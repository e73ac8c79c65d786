/**
 * The request mappings of the short-URL forwarding controller: which public
 * (method, path) pairs reach which handler of the controller. Anything else is
 * left to the web framework, which answers it without forwarding.
 */
module Routes {
  import opened Wrappers
  import opened Http

  const BasePathOidc: string := "/oidc"
  const BasePathLogin: string := "/login"

  /** The controller method a request mapping selects. */
  datatype Handler = LoginGet | OidcGet | OidcPost

  datatype Mapping = Mapping(verb: HttpMethod, path: string, handler: Handler)

  /** A public path under the OIDC base: "/oidc", a slash, then the suffix. */
  function OidcPath(suffix: string): string {
    BasePathOidc + "/" + suffix
  }

  const OidcGetSuffixes: seq<string> := ["certs", "login-status-iframe.html", "logout"]
  const OidcPostSuffixes: seq<string> := ["auth", "token", "token/introspect", "userinfo"]

  /** The request mappings the controller declares, in declaration order. */
  const Mappings: seq<Mapping> := [
    Mapping(Get, BasePathLogin, LoginGet),
    Mapping(Get, OidcPath("certs"), OidcGet),
    Mapping(Get, OidcPath("login-status-iframe.html"), OidcGet),
    Mapping(Get, OidcPath("logout"), OidcGet),
    Mapping(Post, OidcPath("auth"), OidcPost),
    Mapping(Post, OidcPath("token"), OidcPost),
    Mapping(Post, OidcPath("token/introspect"), OidcPost),
    Mapping(Post, OidcPath("userinfo"), OidcPost)
  ]

  /** The handler of the first mapping at index k or later that has this method and path, if any. */
  function RouteFrom(table: seq<Mapping>, k: nat, verb: HttpMethod, path: string): Option<Handler>
    decreases |table| - k
  {
    if k >= |table| then None
    else if table[k].verb == verb && table[k].path == path then Some(table[k].handler)
    else RouteFrom(table, k + 1, verb, path)
  }

  /** Which handler, if any, the controller's mappings select for a request. */
  function Route(verb: HttpMethod, path: string): Option<Handler> {
    RouteFrom(Mappings, 0, verb, path)
  }

  /** The mapping table, looked up entry by entry. */
  lemma RouteUnfold(verb: HttpMethod, path: string)
    ensures Route(verb, path) ==
      if verb == Get && path == BasePathLogin then Some(LoginGet)
      else if verb == Get && path == OidcPath("certs") then Some(OidcGet)
      else if verb == Get && path == OidcPath("login-status-iframe.html") then Some(OidcGet)
      else if verb == Get && path == OidcPath("logout") then Some(OidcGet)
      else if verb == Post && path == OidcPath("auth") then Some(OidcPost)
      else if verb == Post && path == OidcPath("token") then Some(OidcPost)
      else if verb == Post && path == OidcPath("token/introspect") then Some(OidcPost)
      else if verb == Post && path == OidcPath("userinfo") then Some(OidcPost)
      else None
  {
    var t := Mappings;
    assert RouteFrom(t, 8, verb, path) == None;
    assert RouteFrom(t, 7, verb, path) == if verb == Post && path == OidcPath("userinfo") then Some(OidcPost) else None;
    assert RouteFrom(t, 6, verb, path) ==
      if verb == Post && path == OidcPath("token/introspect") then Some(OidcPost) else RouteFrom(t, 7, verb, path);
    assert RouteFrom(t, 5, verb, path) ==
      if verb == Post && path == OidcPath("token") then Some(OidcPost) else RouteFrom(t, 6, verb, path);
    assert RouteFrom(t, 4, verb, path) ==
      if verb == Post && path == OidcPath("auth") then Some(OidcPost) else RouteFrom(t, 5, verb, path);
    assert RouteFrom(t, 3, verb, path) ==
      if verb == Get && path == OidcPath("logout") then Some(OidcGet) else RouteFrom(t, 4, verb, path);
    assert RouteFrom(t, 2, verb, path) ==
      if verb == Get && path == OidcPath("login-status-iframe.html") then Some(OidcGet) else RouteFrom(t, 3, verb, path);
    assert RouteFrom(t, 1, verb, path) ==
      if verb == Get && path == OidcPath("certs") then Some(OidcGet) else RouteFrom(t, 2, verb, path);
  }

  /** A path under the OIDC base with one of the GET suffixes. */
  predicate IsOidcGetPath(path: string) {
    exists s :: s in OidcGetSuffixes && path == OidcPath(s)
  }

  /** A path under the OIDC base with one of the POST suffixes. */
  predicate IsOidcPostPath(path: string) {
    exists s :: s in OidcPostSuffixes && path == OidcPath(s)
  }

  lemma OidcGetPathCases(path: string)
    ensures IsOidcGetPath(path) <==>
      path == OidcPath("certs") || path == OidcPath("login-status-iframe.html") || path == OidcPath("logout")
  {
    if path == OidcPath("certs") {
      assert "certs" in OidcGetSuffixes;
    } else if path == OidcPath("login-status-iframe.html") {
      assert "login-status-iframe.html" in OidcGetSuffixes;
    } else if path == OidcPath("logout") {
      assert "logout" in OidcGetSuffixes;
    }
  }

  lemma OidcPostPathCases(path: string)
    ensures IsOidcPostPath(path) <==>
      path == OidcPath("auth") || path == OidcPath("token") || path == OidcPath("token/introspect") ||
      path == OidcPath("userinfo")
  {
    if path == OidcPath("auth") {
      assert "auth" in OidcPostSuffixes;
    } else if path == OidcPath("token") {
      assert "token" in OidcPostSuffixes;
    } else if path == OidcPath("token/introspect") {
      assert "token/introspect" in OidcPostSuffixes;
    } else if path == OidcPath("userinfo") {
      assert "userinfo" in OidcPostSuffixes;
    }
  }

  /** The login path is shorter than any mapped OIDC path. */
  lemma LoginIsNoOidcPath()
    ensures !IsOidcGetPath(BasePathLogin) && !IsOidcPostPath(BasePathLogin)
  {
    OidcGetPathCases(BasePathLogin);
    OidcPostPathCases(BasePathLogin);
    assert |OidcPath("auth")| > |BasePathLogin|;
  }

  /**
   * Looking a request up in the mapping table selects exactly this: GET /login
   * to the login handler, GET on the three OIDC GET suffixes to the OIDC GET
   * handler, POST on the four OIDC POST suffixes to the OIDC POST handler, and
   * nothing for any other method or path.
   */
  lemma RouteTable(verb: HttpMethod, path: string)
    ensures Route(verb, path) == Some(LoginGet) <==> verb == Get && path == BasePathLogin
    ensures Route(verb, path) == Some(OidcGet) <==> verb == Get && IsOidcGetPath(path)
    ensures Route(verb, path) == Some(OidcPost) <==> verb == Post && IsOidcPostPath(path)
    ensures Route(verb, path).None? <==>
      !(verb == Get && path == BasePathLogin) &&
      !(verb == Get && IsOidcGetPath(path)) &&
      !(verb == Post && IsOidcPostPath(path))
  {
    RouteUnfold(verb, path);
    OidcGetPathCases(path);
    OidcPostPathCases(path);
    LoginIsNoOidcPath();
  }

  /** An OIDC path the controller does not list is not forwarded, whatever the method. */
  lemma NotSupportedIsNotForwarded()
    ensures Route(Get, "/oidc/notsupported").None?
    ensures Route(Post, "/oidc/notsupported").None?
  {
    var path := "/oidc/notsupported";
    assert |BasePathLogin| != |path|;
    forall s | s in OidcGetSuffixes || s in OidcPostSuffixes
      ensures path != OidcPath(s)
    {
      assert |OidcPath(s)| == 6 + |s| != |path|;
    }
    RouteTable(Get, path);
    RouteTable(Post, path);
  }
}
