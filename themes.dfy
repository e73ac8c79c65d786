/**
 * The theme selector: which theme the identity server renders for each kind of
 * page. The welcome page takes the configured welcome theme; the login pages
 * prefer the current client's login-theme attribute over the realm's login
 * theme; account, email and admin pages take the realm's theme for that kind.
 * A null or empty choice falls back to the configured default theme, or to the
 * lower-cased product name when none is configured. Configuration, client and
 * realm are given as values.
 */
module Themes {
  import opened Wrappers
  import opened JavaStrings

  /** The kinds of theme; COMMON has no case of its own. */
  datatype ThemeType = Login | Account | Admin | Email | Welcome | Common

  /** The current client, reduced to its login-theme attribute. */
  datatype Client = Client(loginThemeAttribute: Option<string>)

  /** The current realm's themes per kind. */
  datatype Realm = Realm(
    loginTheme: Option<string>,
    accountTheme: Option<string>,
    emailTheme: Option<string>,
    adminTheme: Option<string>)

  /** The "theme" configuration scope: the welcome theme and the default theme. */
  datatype ThemeConfig = ThemeConfig(welcomeTheme: Option<string>, defaultTheme: Option<string>)

  predicate IsNullOrEmpty(name: Option<string>) {
    name.None? || name.value == ""
  }

  /** The configured default theme, or the lower-cased product name when it is not configured. */
  function DefaultTheme(config: ThemeConfig, productName: string): string {
    config.defaultTheme.GetOr(ToLower(productName))
  }

  /**
   * The theme name for a kind of page. A per-kind choice that is set and
   * non-empty is returned unchanged; otherwise the default applies.
   */
  function GetThemeName(
    themeType: ThemeType,
    config: ThemeConfig,
    client: Option<Client>,
    realm: Realm,
    productName: string): (name: string)
    ensures themeType == Welcome && !IsNullOrEmpty(config.welcomeTheme) ==> name == config.welcomeTheme.value
    ensures themeType == Login && client.Some? && !IsNullOrEmpty(client.value.loginThemeAttribute) ==>
      name == client.value.loginThemeAttribute.value
    ensures themeType == Login && (client.None? || IsNullOrEmpty(client.value.loginThemeAttribute)) &&
            !IsNullOrEmpty(realm.loginTheme) ==>
      name == realm.loginTheme.value
    ensures themeType == Account && !IsNullOrEmpty(realm.accountTheme) ==> name == realm.accountTheme.value
    ensures themeType == Email && !IsNullOrEmpty(realm.emailTheme) ==> name == realm.emailTheme.value
    ensures themeType == Admin && !IsNullOrEmpty(realm.adminTheme) ==> name == realm.adminTheme.value
    ensures themeType == Common ==> name == DefaultTheme(config, productName)
  {
    var choice: Option<string> :=
      match themeType
      case Welcome => config.welcomeTheme
      case Login =>
        var fromClient := if client.Some? then client.value.loginThemeAttribute else None;
        if IsNullOrEmpty(fromClient) then realm.loginTheme else fromClient
      case Account => realm.accountTheme
      case Email => realm.emailTheme
      case Admin => realm.adminTheme
      case Common => None;
    if IsNullOrEmpty(choice) then DefaultTheme(config, productName) else choice.value
  }

  /**
   * The candidate themes for a kind of page, in order of preference: the one
   * kind-specific setting, or for login pages the client's attribute before the
   * realm's login theme.
   */
  function Candidates(themeType: ThemeType, config: ThemeConfig, client: Option<Client>, realm: Realm): seq<Option<string>> {
    match themeType
    case Welcome => [config.welcomeTheme]
    case Login => (if client.Some? then [client.value.loginThemeAttribute] else []) + [realm.loginTheme]
    case Account => [realm.accountTheme]
    case Email => [realm.emailTheme]
    case Admin => [realm.adminTheme]
    case Common => []
  }

  /**
   * The name is the first candidate that is set and non-empty, and the default
   * exactly when every candidate is null or empty: a default is never chosen
   * over a usable setting.
   */
  lemma ThemeNameIsFirstUsableCandidate(
    themeType: ThemeType,
    config: ThemeConfig,
    client: Option<Client>,
    realm: Realm,
    productName: string)
    ensures var cs := Candidates(themeType, config, client, realm);
      var name := GetThemeName(themeType, config, client, realm, productName);
      (forall i :: 0 <= i < |cs| ==> IsNullOrEmpty(cs[i])) ==> name == DefaultTheme(config, productName)
    ensures var cs := Candidates(themeType, config, client, realm);
      var name := GetThemeName(themeType, config, client, realm, productName);
      forall i :: 0 <= i < |cs| && !IsNullOrEmpty(cs[i]) && (forall j :: 0 <= j < i ==> IsNullOrEmpty(cs[j])) ==>
        name == cs[i].value
  {
    var cs := Candidates(themeType, config, client, realm);
    var name := GetThemeName(themeType, config, client, realm, productName);
    if themeType == Login && client.Some? {
      assert cs == [client.value.loginThemeAttribute, realm.loginTheme];
      if forall i :: 0 <= i < |cs| ==> IsNullOrEmpty(cs[i]) {
        assert IsNullOrEmpty(cs[0]) && IsNullOrEmpty(cs[1]);
      }
      forall i | 0 <= i < |cs| && !IsNullOrEmpty(cs[i]) && (forall j :: 0 <= j < i ==> IsNullOrEmpty(cs[j]))
        ensures name == cs[i].value
      {
        if i == 1 {
          assert IsNullOrEmpty(cs[0]);
        }
      }
    } else if themeType == Login {
      assert cs == [realm.loginTheme];
      if forall i :: 0 <= i < |cs| ==> IsNullOrEmpty(cs[i]) {
        assert IsNullOrEmpty(cs[0]);
      }
    } else if themeType != Common {
      assert |cs| == 1;
      if IsNullOrEmpty(cs[0]) {
        assert name == DefaultTheme(config, productName);
      }
    }
  }

  /** An empty name comes only from an empty configured default theme. */
  lemma EmptyNameOnlyFromEmptyDefault(
    themeType: ThemeType,
    config: ThemeConfig,
    client: Option<Client>,
    realm: Realm,
    productName: string)
    requires productName != []
    ensures GetThemeName(themeType, config, client, realm, productName) == "" ==> config.defaultTheme == Some("")
  {
  }
}
