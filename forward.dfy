/**
 * The short-URL forwarding controller: the account-service and token-service
 * paths it forwards to, the one-time normalisation of the token-service path,
 * the computation of the internal target, and the server-side dispatch, whose
 * failure becomes a ForwardException. The servlet dispatcher is foreign:
 * whether dispatching fails is an input.
 */
module Forward {
  import opened Wrappers
  import opened JavaStrings
  import opened Http
  import opened Routes

  /** The token-service path as validateConfig leaves it: it gains a trailing slash when it has none. */
  function NormaliseTokenPath(path: string): (r: string)
    ensures EndsWith(r, "/")
    ensures |path| <= |r| <= |path| + 1 && r[..|path|] == path
    ensures EndsWith(path, "/") ==> r == path
  {
    if EndsWith(path, "/") then path else path + "/"
  }

  /** Normalising a second time changes nothing. */
  lemma NormaliseIdempotent(path: string)
    ensures NormaliseTokenPath(NormaliseTokenPath(path)) == NormaliseTokenPath(path)
  {
  }

  /** An empty token-service path becomes "/". */
  lemma NormaliseEmpty()
    ensures NormaliseTokenPath("") == "/"
  {
  }

  /**
   * The target of an OIDC request: the token-service path followed by what comes
   * after the last "/oidc" of the request URI and one more character. None where
   * Java's substring would throw.
   */
  function OidcTarget(tokenPath: string, uri: string): Option<string> {
    match Substring(uri, LastIndexOf(uri, BasePathOidc) + |BasePathOidc| + 1)
    case None => None
    case Some(rest) => Some(tokenPath + rest)
  }

  /** An occurrence of "/oidc" begins with a slash followed by 'o'. */
  lemma OidcOccurrenceStart(s: string, i: int)
    ensures OccursAt(s, BasePathOidc, i) ==> s[i] == '/' && s[i + 1] == 'o'
  {
    if OccursAt(s, BasePathOidc, i) {
      assert s[i..i + 5][0] == '/';
      assert s[i..i + 5][1] == 'o';
    }
  }

  /** Past the end of a prefix, an occurrence in a concatenation is an occurrence in the second part. */
  lemma OccursAtShift(a: string, b: string, pat: string, i: int)
    requires |a| <= i
    ensures OccursAt(a + b, pat, i) <==> OccursAt(b, pat, i - |a|)
  {
    if i + |pat| <= |a + b| {
      assert (a + b)[i..i + |pat|] == b[i - |a|..i - |a| + |pat|];
    }
  }

  /**
   * For a URI made of any context path, "/oidc/" and a suffix such that "/oidc"
   * does not occur in the slash and the suffix, the target is the token path
   * followed by the suffix.
   */
  lemma {:induction false} OidcTargetOfSuffix(tokenPath: string, contextPath: string, suffix: string)
    requires forall i :: !OccursAt("/" + suffix, BasePathOidc, i)
    ensures OidcTarget(tokenPath, contextPath + OidcPath(suffix)) == Some(tokenPath + suffix)
  {
    var head := contextPath + BasePathOidc;
    var tail := "/" + suffix;
    var uri := head + tail;
    var c := |contextPath|;
    assert uri[c..c + 5] == BasePathOidc;
    assert OccursAt(uri, BasePathOidc, c);
    forall i | c < i
      ensures !OccursAt(uri, BasePathOidc, i)
    {
      if i < c + 5 {
        assert uri[i] == BasePathOidc[i - c];
        OidcOccurrenceStart(uri, i);
      } else {
        OccursAtShift(head, tail, BasePathOidc, i);
      }
    }
    var last := LastIndexOf(uri, BasePathOidc);
    assert last == c;
    assert uri[c + 6..] == suffix;
    assert uri == contextPath + OidcPath(suffix);
  }

  /** The suffixes of the forwarded OIDC paths: "/oidc" does not occur in them behind a slash. */
  lemma OidcSuffixesClean(suffix: string)
    requires suffix in OidcGetSuffixes || suffix in OidcPostSuffixes
    ensures forall i :: !OccursAt("/" + suffix, BasePathOidc, i)
  {
    var tail := "/" + suffix;
    forall i
      ensures !OccursAt(tail, BasePathOidc, i)
    {
      OidcOccurrenceStart(tail, i);
    }
  }

  /**
   * An inbound request: method, servlet context path and path within the
   * application. The request URI is the context path followed by the path.
   */
  datatype Request = Request(verb: HttpMethod, contextPath: string, path: string)

  function RequestUri(req: Request): string {
    req.contextPath + req.path
  }

  /** Where the controller forwards a request, given its two configured paths; None when no mapping matches. */
  function ForwardTarget(loginPath: string, tokenPath: string, req: Request): Option<string> {
    match Route(req.verb, req.path)
    case None => None
    case Some(LoginGet) => Some(loginPath)
    case Some(_) => OidcTarget(tokenPath, RequestUri(req))
  }

  /**
   * Every mapped request has a target: GET /login the account-service path as it
   * is, and an OIDC request, GET or POST alike, the token-service path followed by
   * its path after "/oidc/", whatever the context path.
   */
  lemma {:induction false} ForwardTargets(loginPath: string, tokenPath: string, req: Request)
    ensures ForwardTarget(loginPath, tokenPath, req).None? <==> Route(req.verb, req.path).None?
    ensures Route(req.verb, req.path) == Some(LoginGet) ==> ForwardTarget(loginPath, tokenPath, req) == Some(loginPath)
    ensures Route(req.verb, req.path) in {Some(OidcGet), Some(OidcPost)} ==>
      |req.path| > |BasePathOidc| &&
      ForwardTarget(loginPath, tokenPath, req) == Some(tokenPath + req.path[|BasePathOidc| + 1..])
  {
    RouteTable(req.verb, req.path);
    var route := Route(req.verb, req.path);
    if route == Some(OidcGet) || route == Some(OidcPost) {
      var suffix :| (suffix in OidcGetSuffixes || suffix in OidcPostSuffixes) && req.path == OidcPath(suffix);
      OidcSuffixesClean(suffix);
      OidcTargetOfSuffix(tokenPath, req.contextPath, suffix);
      assert req.path[|BasePathOidc| + 1..] == suffix;
    }
  }

  /**
   * With the token-service path as configured and then normalised, an OIDC
   * request goes to the configured path followed by "/" and the suffix when the
   * configured path has no trailing slash, and to the configured path followed by
   * the suffix when it has one.
   */
  lemma ConfiguredOidcTargets(loginPath: string, configured: string, req: Request, suffix: string)
    requires Route(req.verb, req.path) in {Some(OidcGet), Some(OidcPost)}
    requires req.path == OidcPath(suffix)
    ensures !EndsWith(configured, "/") ==>
      ForwardTarget(loginPath, NormaliseTokenPath(configured), req) == Some(configured + "/" + suffix)
    ensures EndsWith(configured, "/") ==>
      ForwardTarget(loginPath, NormaliseTokenPath(configured), req) == Some(configured + suffix)
  {
    ForwardTargets(loginPath, NormaliseTokenPath(configured), req);
    assert req.path[|BasePathOidc| + 1..] == suffix;
  }

  /** The exception thrown when dispatching a forward fails. */
  datatype ForwardException = ForwardException(message: string)

  /** What handling one request comes to. IndexOutOfBounds is Java's StringIndexOutOfBoundsException from substring. */
  datatype ForwardOutcome = NotForwarded | Forwarded(target: string) | Failed(error: ForwardException) | IndexOutOfBounds

  /** The message of the ForwardException for a request: its method and its context path. */
  function ForwardErrorMessage(req: Request): string {
    "Error forwarding request " + MethodName(req.verb) + " " + req.contextPath
  }

  datatype ConfigError = AccountServicePathMissing | TokenServicePathMissing

  class ForwardController {
    var forwardLoginPath: string
    var forwardTokenPath: string

    /** The injected properties: the account-service path defaults to empty, the token-service path must be set. */
    constructor (accountServicePath: Option<string>, tokenServicePath: string)
      ensures forwardLoginPath == accountServicePath.GetOr("")
      ensures forwardTokenPath == tokenServicePath
    {
      forwardLoginPath := accountServicePath.GetOr("");
      forwardTokenPath := tokenServicePath;
    }

    /**
     * Start-up validation: an empty path is reported, never fatal, and the
     * token-service path gains a trailing slash.
     */
    method ValidateConfig() returns (errors: seq<ConfigError>)
      modifies this
      ensures forwardLoginPath == old(forwardLoginPath)
      ensures forwardTokenPath == NormaliseTokenPath(old(forwardTokenPath))
      ensures AccountServicePathMissing in errors <==> old(forwardLoginPath) == ""
      ensures TokenServicePathMissing in errors <==> old(forwardTokenPath) == ""
    {
      errors := [];
      if forwardLoginPath == "" {
        errors := errors + [AccountServicePathMissing];
      }
      if forwardTokenPath == "" {
        errors := errors + [TokenServicePathMissing];
      }
      if !EndsWith(forwardTokenPath, "/") {
        forwardTokenPath := forwardTokenPath + "/";
      }
    }

    /** Server-side dispatch to a path: the forward happens, or its failure becomes a ForwardException. */
    method Forward(forwardPath: string, req: Request, dispatchFails: bool) returns (outcome: ForwardOutcome)
      ensures !dispatchFails ==> outcome == Forwarded(forwardPath)
      ensures dispatchFails ==> outcome == Failed(ForwardException(ForwardErrorMessage(req)))
    {
      if dispatchFails {
        outcome := Failed(ForwardException(ForwardErrorMessage(req)));
      } else {
        outcome := Forwarded(forwardPath);
      }
    }

    /** GET /login: forwards to the account-service path exactly as configured. */
    method ForwardLoginGet(req: Request, dispatchFails: bool) returns (outcome: ForwardOutcome)
      ensures !dispatchFails ==> outcome == Forwarded(forwardLoginPath)
      ensures dispatchFails ==> outcome == Failed(ForwardException(ForwardErrorMessage(req)))
    {
      outcome := Forward(forwardLoginPath, req, dispatchFails);
    }

    /** The OIDC GET handler: the token-service path followed by the URI after the last "/oidc" and a slash. */
    method ForwardOidcGet(req: Request, dispatchFails: bool) returns (outcome: ForwardOutcome)
      ensures OidcTarget(forwardTokenPath, RequestUri(req)).None? <==> outcome == IndexOutOfBounds
      ensures OidcTarget(forwardTokenPath, RequestUri(req)).Some? && !dispatchFails ==>
        outcome == Forwarded(OidcTarget(forwardTokenPath, RequestUri(req)).value)
      ensures OidcTarget(forwardTokenPath, RequestUri(req)).Some? && dispatchFails ==>
        outcome == Failed(ForwardException(ForwardErrorMessage(req)))
    {
      var uri := RequestUri(req);
      var begin := LastIndexOf(uri, BasePathOidc) + |BasePathOidc| + 1;
      if !(0 <= begin <= |uri|) {
        return IndexOutOfBounds;
      }
      var path := uri[begin..];
      outcome := Forward(forwardTokenPath + path, req, dispatchFails);
    }

    /** The OIDC POST handler does what the GET handler does. */
    method ForwardOidcPost(req: Request, dispatchFails: bool) returns (outcome: ForwardOutcome)
      ensures OidcTarget(forwardTokenPath, RequestUri(req)).None? <==> outcome == IndexOutOfBounds
      ensures OidcTarget(forwardTokenPath, RequestUri(req)).Some? && !dispatchFails ==>
        outcome == Forwarded(OidcTarget(forwardTokenPath, RequestUri(req)).value)
      ensures OidcTarget(forwardTokenPath, RequestUri(req)).Some? && dispatchFails ==>
        outcome == Failed(ForwardException(ForwardErrorMessage(req)))
    {
      outcome := ForwardOidcGet(req, dispatchFails);
    }

    /**
     * A request as the web framework routes it: an unmapped one is not forwarded,
     * a mapped one goes to its target, or fails with a ForwardException carrying
     * its method and context path, and never fails in substring.
     */
    method Handle(req: Request, dispatchFails: bool) returns (outcome: ForwardOutcome)
      ensures outcome.NotForwarded? <==> Route(req.verb, req.path).None?
      ensures outcome != IndexOutOfBounds
      ensures outcome.Forwarded? <==> Route(req.verb, req.path).Some? && !dispatchFails
      ensures outcome.Forwarded? ==> ForwardTarget(forwardLoginPath, forwardTokenPath, req) == Some(outcome.target)
      ensures outcome.Failed? ==> outcome.error.message == ForwardErrorMessage(req)
    {
      ForwardTargets(forwardLoginPath, forwardTokenPath, req);
      var route := Route(req.verb, req.path);
      match route
      case None =>
        outcome := NotForwarded;
      case Some(LoginGet) =>
        outcome := ForwardLoginGet(req, dispatchFails);
      case Some(OidcGet) =>
        outcome := ForwardOidcGet(req, dispatchFails);
      case Some(OidcPost) =>
        outcome := ForwardOidcPost(req, dispatchFails);
    }
  }
}
