# Europeana Keycloak server customisations, modelled in Dafny

This project models the customisation layer that Europeana adds to an embedded
Keycloak identity server. It covers five parts:

- **Short-URL forwarding controller** (`forward.dfy`, `routes.dfy`).
  - It maps `GET /login` to the account-service path.
  - It maps three OIDC GET paths and four OIDC POST paths under `/oidc` to the token-service path, plus whatever follows the last `/oidc/` in the request URI.
  - It normalises the token-service path once at start-up.
  - It turns a failed server-side dispatch into a `ForwardException` that carries the request's method and context path.
- **Post-start-up warm-up** (`autowarm.dfy`).
  - A predicate decides whether the four warm-up properties are set.
  - On the ready event, the listener schedules one task or skips warming.
  - The task requests a client-credentials token and then lists the clients with it.
- **BCrypt cost factor** (`bcrypt.dfy`). The password-hash provider factory keeps `logRounds`. Initialisation replaces it only with a configured value in [4, 31]. `create` hands it to the provider together with the id `BCrypt`.
- **Theme selection** (`themes.dfy`).
  - Each page kind takes its own setting. Login pages prefer the client's attribute to the realm's.
  - A null or empty choice falls back to the configured default theme, or else to the lower-cased product name.
- **Embedded application** (`application.dfy`).
  - The servlet-context wrapper answers the context path and the `keycloak.embedded` init parameter itself and delegates every other call.
  - The master-realm admin bootstrap begins a transaction, creates the user if absent, commits, rolls back on failure and then closes the session.

`strings.dfy` (module `JavaStrings`) gives the Java and Commons Lang string operations these parts rely on, with their edge cases:
- `lastIndexOf` returns -1 when the pattern is absent.
- `substring` throws when its index is out of range.
- `isBlank` and `isNoneBlank` treat null as blank and use Java's whitespace set.
- `equalsIgnoreCase` treats two nulls as equal.
- Integer-to-text conversion.

`http.dfy` holds the request and response values, and `wrappers.dfy` holds `Option`, which stands for a Java reference that may be null.

Foreign collaborators become parameters:
- The REST client is a function `exchange` from request to response.
- The JSON path lookup of `access_token` is a function returning `None` where it would throw.
- The servlet dispatcher's failure is a boolean.
- The wrapped servlet context is a function from call to result.
- The session's failing steps are a set.

Behaviour worth noting:
- **The `ForwardException` message** carries the request's method and context path (`ForwardController.java` line 79).
- **Missing forward paths** are only logged at start-up. An empty token-service path becomes `"/"`.
- **Requests no mapping matches** are not forwarded. The web framework answers them; `ForwardControllerTest.java` expects 404.
- **The warm-up call** is a `GET` of the list-clients path.
- **Exceptions from the REST client**, for example on a 4xx or 5xx status, are not caught in the timer task. The model reports them as the outcome `RequestError`.

## Model

| member | source | states |
|---|---|---|
| JavaStrings.LastIndexOf | src/main/java/eu/europeana/keycloak/web/ForwardController.java:60-61 | the result is -1 or an index where "/oidc" occurs, and no later index holds an occurrence |
| JavaStrings.Substring | src/main/java/eu/europeana/keycloak/web/ForwardController.java:60-61 | defined exactly when the begin index is within 0..length (otherwise Java throws), and the prefix before it followed by the result is the whole string |
| JavaStrings.AnyBlank | src/main/java/eu/europeana/keycloak/EmbeddedKeycloakApp.java:126 | true exactly when some value is null, empty or whitespace only |
| JavaStrings.EqualsAnyIgnoreCase | src/main/java/eu/europeana/keycloak/EmbeddedKeycloakApp.java:126 | true exactly when the string equals one of the values up to case |
| JavaStrings.ToLower | src/main/java/eu/europeana/keycloak/themes/EuropeanaSelectorProvider.java:51 | same length, each character lower-cased |
| JavaStrings.NatTextRoundTrip | src/main/java/eu/europeana/keycloak/EmbeddedKeycloakApp.java:62 | reading back the decimal text of a number gives the number |
| Routes.RouteTable | src/main/java/eu/europeana/keycloak/web/ForwardController.java:50-69 | GET /login selects the login handler, GET on certs, login-status-iframe.html and logout under /oidc the OIDC GET handler, POST on auth, token, token/introspect and userinfo the OIDC POST handler, and every other method and path nothing, in both directions |
| Routes.NotSupportedIsNotForwarded | src/test/java/eu/europeana/keycloak/ForwardControllerTest.java:94-116 | GET and POST on /oidc/notsupported select no handler |
| Forward.NormaliseTokenPath | src/main/java/eu/europeana/keycloak/web/ForwardController.java:45-47 | the result ends with "/", extends the path by at most that slash, and is the path itself when it already ends with "/" |
| Forward.NormaliseIdempotent | src/main/java/eu/europeana/keycloak/web/ForwardController.java:45-47 | normalising twice gives what normalising once gives |
| Forward.NormaliseEmpty | src/main/java/eu/europeana/keycloak/web/ForwardController.java:42-47 | an empty token-service path becomes "/" |
| Forward.OidcTargetOfSuffix | src/main/java/eu/europeana/keycloak/web/ForwardController.java:60-62 | for any context path and a suffix free of "/oidc", the target of context path + "/oidc/" + suffix is the token path + suffix |
| Forward.OidcSuffixesClean | src/main/java/eu/europeana/keycloak/web/ForwardController.java:58-69 | "/oidc" does not occur in any mapped suffix behind its slash |
| Forward.ForwardTargets | src/main/java/eu/europeana/keycloak/web/ForwardController.java:50-72 | a request has a target exactly when it is mapped; GET /login goes to the account-service path verbatim, and a mapped OIDC request to the token path followed by its path after "/oidc/", whatever the context path |
| Forward.ConfiguredOidcTargets | src/test/java/eu/europeana/keycloak/ForwardControllerTest.java:64-110 | after normalisation, /oidc/<suffix> goes to the configured token path + "/" + suffix when it lacks a trailing slash, and to the configured path + suffix when it has one |
| Forward.ForwardController.constructor | src/main/java/eu/europeana/keycloak/web/ForwardController.java:31-35 | the account-service path defaults to empty; the token-service path is as configured |
| Forward.ForwardController.ValidateConfig | src/main/java/eu/europeana/keycloak/web/ForwardController.java:37-48 | each path is reported exactly when it is empty, nothing is fatal, the login path is unchanged, and the token path becomes its normalised form |
| Forward.ForwardController.Forward | src/main/java/eu/europeana/keycloak/web/ForwardController.java:74-81 | a successful dispatch forwards to the given path; a failed one becomes a ForwardException with "Error forwarding request", the method and the context path |
| Forward.ForwardController.ForwardLoginGet | src/main/java/eu/europeana/keycloak/web/ForwardController.java:50-53 | forwards to the account-service path exactly as configured, or fails with the ForwardException |
| Forward.ForwardController.ForwardOidcGet | src/main/java/eu/europeana/keycloak/web/ForwardController.java:58-63 | throws an index exception exactly when the substring index is out of range, and otherwise forwards to the computed OIDC target |
| Forward.ForwardController.ForwardOidcPost | src/main/java/eu/europeana/keycloak/web/ForwardController.java:68-72 | behaves as the OIDC GET handler |
| Forward.ForwardController.Handle | src/main/java/eu/europeana/keycloak/web/ForwardController.java:50-81 | unmapped requests are not forwarded, mapped ones are forwarded to their target unless dispatch fails, failures carry the method and context path, and a mapped request never hits the substring exception |
| Autowarm.AutowarmPropertiesSet | src/main/java/eu/europeana/keycloak/EmbeddedKeycloakApp.java:125-127 | true exactly when every value is non-blank and none equals "REMOVED" up to case |
| Autowarm.RemovedInAnyCaseSwitchesOff | src/main/java/eu/europeana/keycloak/EmbeddedKeycloakApp.java:126 | any value spelling "removed" in any case makes the predicate false |
| Autowarm.OnApplicationReady | src/main/java/eu/europeana/keycloak/EmbeddedKeycloakApp.java:55-68 | warming is skipped exactly when the four properties are not all set; otherwise one task against "http://localhost:" + port is scheduled with the configured delay, which the timer rejects when negative |
| Autowarm.ScheduledPortReadsBack | src/main/java/eu/europeana/keycloak/EmbeddedKeycloakApp.java:58-62 | the text after "http://localhost:" in the scheduled base URL is all digits and reads back as the port |
| Autowarm.RunWarmup | src/main/java/eu/europeana/keycloak/EmbeddedKeycloakApp.java:72-119 | the first call is the form POST to base + token path with client_id, client_secret and grant_type=client_credentials in that order; a second call is made exactly when the token status is 200 and a token is read, and it is a GET to base + list path with Accept JSON and "Bearer " + token; at most two calls; completed exactly when the list status is 200, with the error, rejection and failure outcomes each tied to their statuses and carrying the status the last call answered with |
| BCrypt.LastAccepted | src/main/java/eu/europeana/keycloak/password/BCryptPasswordHashProviderFactory.java:32-35 | none exactly when no configured value is present and in range; otherwise a present, in-range value after which no value is accepted |
| BCrypt.InitAllIsLastAccepted | src/main/java/eu/europeana/keycloak/password/BCryptPasswordHashProviderFactory.java:29-36 | after any sequence of init calls the cost factor is the last accepted configured value, or the starting one when none was accepted |
| BCrypt.InitAllKeepsRange | src/main/java/eu/europeana/keycloak/password/BCryptPasswordHashProviderFactory.java:17-35 | init calls keep a cost factor in [4, 31] in that range |
| BCrypt.FactoryCostAlwaysInRange | src/main/java/eu/europeana/keycloak/password/BCryptPasswordHashProviderFactory.java:17-35 | from the default 13, any sequence of init calls leaves the cost factor in [4, 31] |
| BCrypt.BCryptPasswordHashProviderFactory.constructor | src/main/java/eu/europeana/keycloak/password/BCryptPasswordHashProviderFactory.java:17-21 | the cost factor starts at 13, within range |
| BCrypt.BCryptPasswordHashProviderFactory.Init | src/main/java/eu/europeana/keycloak/password/BCryptPasswordHashProviderFactory.java:29-36 | a present value in [4, 31] becomes the cost factor; a null or out-of-range one leaves it unchanged; the range invariant is kept |
| BCrypt.BCryptPasswordHashProviderFactory.Create | src/main/java/eu/europeana/keycloak/password/BCryptPasswordHashProviderFactory.java:23-27 | the provider carries the id "BCrypt" and the current cost factor, which is in [4, 31] |
| BCrypt.BCryptPasswordHashProviderFactory.GetId | src/main/java/eu/europeana/keycloak/password/BCryptPasswordHashProviderFactory.java:48-51 | always "BCrypt" |
| Themes.GetThemeName | src/main/java/eu/europeana/keycloak/themes/EuropeanaSelectorProvider.java:22-55 | welcome takes the welcome theme, login the client's non-empty attribute or else the realm's login theme, account, email and admin the realm's theme of that kind, each returned unchanged when non-empty; COMMON always takes the default |
| Themes.ThemeNameIsFirstUsableCandidate | src/main/java/eu/europeana/keycloak/themes/EuropeanaSelectorProvider.java:23-54 | the name is the first non-empty candidate in order of preference, and the configured default or lower-cased product name when every candidate is null or empty |
| Themes.EmptyNameOnlyFromEmptyDefault | src/main/java/eu/europeana/keycloak/themes/EuropeanaSelectorProvider.java:50-52 | with a non-empty product name, an empty theme name comes only from a default theme configured as empty |
| EmbeddedApplication.Invoke | src/main/java/de/tdlabs/examples/keycloak/EmbeddedKeycloakApplication.java:64-77 | getContextPath answers the configured context path, getInitParameter("keycloak.embedded") answers "true", and every other call the wrapped context's answer to the same call |
| EmbeddedApplication.OnlyTwoCallsOverridden | src/main/java/de/tdlabs/examples/keycloak/EmbeddedKeycloakApplication.java:64-76 | the wrapper departs from the wrapped context only on those two calls, and the context path does not depend on the wrapped context |
| EmbeddedApplication.Bootstrap | src/main/java/de/tdlabs/examples/keycloak/EmbeddedKeycloakApplication.java:33-56 | the users stay as they were or, when there were none, become the admin user; an exception escapes exactly when a step in the try block and the rollback both throw, and the session is closed exactly when none escapes |
| EmbeddedApplication.BootstrapIdempotent | src/main/java/de/tdlabs/examples/keycloak/EmbeddedKeycloakApplication.java:43-48 | once a master user exists, running the bootstrap again stores nothing new |
| EmbeddedApplication.BootstrapSucceeds | src/main/java/de/tdlabs/examples/keycloak/EmbeddedKeycloakApplication.java:41-55 | with no failing step a master user exists afterwards, the admin user when there was none, and the session is closed |
| EmbeddedApplication.RollbackFailureLeavesSessionOpen | src/main/java/de/tdlabs/examples/keycloak/EmbeddedKeycloakApplication.java:50-55 | when begin and rollback both throw, the exception escapes and the session is left open |
| EmbeddedApplication.BootstrapClosing | src/main/java/de/tdlabs/examples/keycloak/EmbeddedKeycloakApplication.java:33-56 | with the close in a finally block, the same users and exceptions, and the session always closed |
| EmbeddedApplication.RunTransaction | src/main/java/de/tdlabs/examples/keycloak/EmbeddedKeycloakApplication.java:41-49 | succeeds exactly when begin, the check, the creation when needed and the commit all succeed; then the admin user is committed when the realm had no user, and otherwise nothing is stored |
| EmbeddedApplication.TryCreateMasterRealmAdminUser | src/main/java/de/tdlabs/examples/keycloak/EmbeddedKeycloakApplication.java:33-56 | the session's users, its closed flag and whether an exception escapes are those of Bootstrap, and no transaction is left open unless an exception escapes |
| EmbeddedApplication.TryCreateMasterRealmAdminUserClosing | src/main/java/de/tdlabs/examples/keycloak/EmbeddedKeycloakApplication.java:33-56 | the session is always closed, with users and escaping exceptions as in BootstrapClosing |

## Left out

- Routes.RouteTable: routes on the exact method and path. The web framework's own matching is not modelled: a GET mapping also serves HEAD, so `HEAD /login` is forwarded by the program but selects nothing here; and the framework matches on a percent-decoded lookup path with `;` path parameters removed, so `GET /oidc;x/certs` reaches the certs handler in the program but selects nothing here.
- Forward.ForwardTargets: the target is computed from a request URI that is the context path followed by the routed path, so the two never differ. In the program the handler takes the raw, undecoded request URI while routing used the decoded, parameter-stripped lookup path; for `GET /oidc;x/certs` the program forwards to the token path followed by `x/certs`, which this lemma does not describe.
- The query string is not part of the servlet request URI and is not modelled; the forward target never depends on it.
- Request mapping is by exact path. Spring's trailing-slash and suffix-pattern matching, and the 404 and 405 answers for unmapped requests, belong to the web framework.
- `getRequestDispatcher` returning null, and the forward itself, are not modelled. Whether dispatching throws `ServletException` or `IOException` is an input.
- A null token-service path is not modelled. The property has no default, so start-up fails before `validateConfig` runs.
- Case-insensitive comparison and lower-casing cover the ASCII letters only. Java's full Unicode case mapping is not modelled.
- The warm-up's log lines, its elapsed-time arithmetic in floating point, and the timer thread are not modelled. The `Timer` refusing a delay whose absolute time overflows the clock is not modelled either, because it depends on the wall clock.
- Autowarm.RunWarmup: I/O failures of the REST client (connection refused, timeouts) are not modelled, because `exchange` always answers. An HTTP status outside the codes Spring knows is not modelled either.
- Autowarm.WarmupConfig: `listClientDelay` is an unbounded integer, not a 64-bit `long`, because values outside that range fail when the property is bound.
- BCrypt: a `log-rounds` value that is not an integer makes Keycloak's configuration lookup throw. That case is not modelled: the configured value is present or absent. The hashing itself is not modelled.
- Themes.GetThemeName: a null theme type and a null realm would raise a NullPointerException. The model takes both as present.
- Theme configuration is given as values, not looked up through Keycloak's configuration scopes. The product name is a parameter.
- EmbeddedApplication.Invoke: the reflective proxy, `Method.invoke`, the class loader and the logging of delegated calls are not modelled.
- EmbeddedApplication.TryCreateMasterRealmAdminUser: each session step either always succeeds or always throws, as named by the failing set. A null admin username or password shows up only through the creation step failing. Keycloak's transaction manager, role grants and realm lookup are not modelled.
- `StaticPropertyUtil.java`, `KeycloakServerProperties.java` beyond the context path and admin user, and the application's `main` are not part of this model.

## Findings

| source | as written | input that shows it | evidently intended | confidence | as-written member | corrected member |
|---|---|---|---|---|---|---|
| src/main/java/de/tdlabs/examples/keycloak/EmbeddedKeycloakApplication.java:50-55 | `session.close()` follows the try/catch rather than sitting in a `finally`, so an exception thrown by `rollback()` leaves the method with the session still open | `begin()` throws, then `rollback()` throws: the exception escapes and `close()` never runs | the session is closed on every path | low (not executed; the escaping exception also aborts start-up) | EmbeddedApplication.RollbackFailureLeavesSessionOpen | EmbeddedApplication.TryCreateMasterRealmAdminUserClosing |
