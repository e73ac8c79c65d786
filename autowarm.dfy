/**
 * Auto-warming of the embedded server after start-up: when the four warm-up
 * properties are all set, a one-shot task is scheduled on the ready event; the
 * task asks the local server for a client-credentials token and then lists
 * the clients with it. The REST client is foreign: `exchange` answers each
 * request, and `readAccessToken` reads the "access_token" field of a JSON body
 * (None where the JSON path lookup throws).
 */
module Autowarm {
  import opened Wrappers
  import opened JavaStrings
  import opened Http

  /** The marker a deployment puts in a property to switch warming off. */
  const Removed: string := "REMOVED"

  /**
   * The varargs predicate over the warm-up properties: none of them is blank and
   * none of them equals "REMOVED" up to case.
   */
  function AutowarmPropertiesSet(values: seq<Option<string>>): (b: bool)
    ensures b <==> forall i :: 0 <= i < |values| ==>
      !IsBlank(values[i]) && !EqualsIgnoreCase(Some(Removed), values[i])
  {
    NoneBlank(values) && !EqualsAnyIgnoreCase(Some(Removed), values)
  }

  /** Any spelling of "removed" in any property switches warming off. */
  lemma RemovedInAnyCaseSwitchesOff(values: seq<Option<string>>, i: int)
    requires 0 <= i < |values| && values[i].Some? && ToLower(values[i].value) == "removed"
    ensures !AutowarmPropertiesSet(values)
  {
    var s := values[i].value;
    assert |s| == |Removed|;
    forall k | 0 <= k < |s|
      ensures LowerChar(Removed[k]) == LowerChar(s[k])
    {
      assert ToLower(s)[k] == LowerChar(s[k]);
      assert ToLower(Removed) == "removed";
      assert ToLower(Removed)[k] == LowerChar(Removed[k]);
    }
    assert EqualsIgnoreCase(Some(Removed), values[i]);
  }

  /** The injected warm-up properties. */
  datatype WarmupConfig = WarmupConfig(
    tokenPath: string,
    listClientsPath: string,
    clientId: string,
    clientSecret: string,
    listClientDelay: int)

  /** The properties the predicate is applied to, in the order the listener passes them. */
  function WarmupProperties(config: WarmupConfig): seq<Option<string>> {
    [Some(config.tokenPath), Some(config.listClientsPath), Some(config.clientId), Some(config.clientSecret)]
  }

  /** The one-shot warm-up task: the server's base URL and the delay before it runs, in milliseconds. */
  datatype WarmupTask = WarmupTask(kcBasePath: string, delay: int)

  /** What the ready event leads to. ScheduleRejected is the IllegalArgumentException of Timer.schedule for a negative delay. */
  datatype ReadyOutcome = Skipped | Scheduled(task: WarmupTask) | ScheduleRejected

  /** How Java's string concatenation renders the configured port, an Integer that may be null. */
  function PortText(port: Option<int>): string {
    match port
    case None => "null"
    case Some(p) => IntText(p)
  }

  function LocalBase(port: Option<int>): string {
    "http://localhost:" + PortText(port)
  }

  /**
   * The ready-event listener: warming is skipped unless the properties are set;
   * otherwise one task against the local server on the configured port is
   * scheduled with the configured delay, which the timer refuses when negative.
   */
  function OnApplicationReady(config: WarmupConfig, port: Option<int>): (r: ReadyOutcome)
    ensures r.Skipped? <==> !AutowarmPropertiesSet(WarmupProperties(config))
    ensures r.ScheduleRejected? <==> AutowarmPropertiesSet(WarmupProperties(config)) && config.listClientDelay < 0
    ensures r.Scheduled? ==>
      r.task.delay == config.listClientDelay >= 0 &&
      |r.task.kcBasePath| > 17 && r.task.kcBasePath[..17] == "http://localhost:" &&
      r.task.kcBasePath[17..] == PortText(port)
  {
    if !AutowarmPropertiesSet(WarmupProperties(config)) then
      Skipped
    else if config.listClientDelay < 0 then
      ScheduleRejected
    else
      Scheduled(WarmupTask(LocalBase(port), config.listClientDelay))
  }

  /** The port a scheduled task targets reads back from its base URL as the configured one. */
  lemma ScheduledPortReadsBack(config: WarmupConfig, p: nat)
    requires OnApplicationReady(config, Some(p)).Scheduled?
    ensures var base := OnApplicationReady(config, Some(p)).task.kcBasePath;
      (forall i :: 17 <= i < |base| ==> IsDigit(base[i])) && DigitsValue(base[17..]) == p
  {
    NatTextRoundTrip(p);
  }

  /** The form of a client-credentials token request, in the order the fields are added. */
  function TokenForm(config: WarmupConfig): seq<(string, string)> {
    [("client_id", config.clientId), ("client_secret", config.clientSecret), ("grant_type", "client_credentials")]
  }

  const FormContentType: (string, string) := ("Content-Type", "application/x-www-form-urlencoded")
  const AcceptJson: (string, string) := ("Accept", "application/json")

  /** The token request: a form POST to the base URL followed by the token path. */
  function TokenRequest(config: WarmupConfig, kcBasePath: string): HttpRequest {
    HttpRequest(Post, kcBasePath + config.tokenPath, [FormContentType], TokenForm(config))
  }

  /** The list-clients request: a GET to the base URL followed by the list path, authorised with the token. */
  function ListClientsRequest(config: WarmupConfig, kcBasePath: string, token: string): HttpRequest {
    HttpRequest(Get, kcBasePath + config.listClientsPath, [AcceptJson, ("Authorization", "Bearer " + token)], [])
  }

  /** The statuses for which the REST client's default error handler throws instead of returning a response. */
  predicate IsErrorStatus(status: int) {
    400 <= status < 600
  }

  /**
   * How one warm-up run ends. RequestError is the exception the REST client
   * throws on an error status; TokenUnreadable the exception of the JSON path
   * lookup.
   */
  datatype WarmupOutcome =
    | RequestError(status: int)
    | TokenRejected(status: int)
    | TokenUnreadable
    | ListClientsFailed(status: int)
    | Completed

  /**
   * The timer task's run: the token request first; only when it answers 200 and
   * its body yields a token, one list-clients request carrying that token.
   * Warming completes exactly when the list-clients request answers 200.
   */
  method RunWarmup(
    config: WarmupConfig,
    kcBasePath: string,
    exchange: HttpRequest -> HttpResponse,
    readAccessToken: string -> Option<string>)
    returns (sent: seq<HttpRequest>, outcome: WarmupOutcome)
    ensures 1 <= |sent| <= 2
    ensures sent[0] == TokenRequest(config, kcBasePath)
    ensures exchange(sent[0]).status != StatusOk ==> |sent| == 1
    ensures |sent| == 2 <==>
      exchange(sent[0]).status == StatusOk && readAccessToken(exchange(sent[0]).body).Some?
    ensures |sent| == 2 ==>
      sent[1] == ListClientsRequest(config, kcBasePath, readAccessToken(exchange(sent[0]).body).value)
    ensures outcome == Completed <==> |sent| == 2 && exchange(sent[1]).status == StatusOk
    ensures outcome.RequestError? <==> IsErrorStatus(exchange(sent[|sent| - 1]).status)
    ensures outcome.TokenRejected? <==>
      (|sent| == 1 && !IsErrorStatus(exchange(sent[0]).status) && exchange(sent[0]).status != StatusOk)
    ensures outcome.ListClientsFailed? <==>
      (|sent| == 2 && !IsErrorStatus(exchange(sent[1]).status) && exchange(sent[1]).status != StatusOk)
    ensures outcome.RequestError? || outcome.TokenRejected? || outcome.ListClientsFailed? ==>
      outcome.status == exchange(sent[|sent| - 1]).status
  {
    var tokenHeaders := [FormContentType];
    var form: seq<(string, string)> := [];
    form := form + [("client_id", config.clientId)];
    form := form + [("client_secret", config.clientSecret)];
    form := form + [("grant_type", "client_credentials")];
    var tokenRequest := HttpRequest(Post, kcBasePath + config.tokenPath, tokenHeaders, form);
    sent := [tokenRequest];
    var tokenResponse := exchange(tokenRequest);
    if IsErrorStatus(tokenResponse.status) {
      return sent, RequestError(tokenResponse.status);
    }
    if tokenResponse.status != StatusOk {
      return sent, TokenRejected(tokenResponse.status);
    }
    var token := readAccessToken(tokenResponse.body);
    if token.None? {
      return sent, TokenUnreadable;
    }
    var listHeaders := [AcceptJson];
    listHeaders := listHeaders + [("Authorization", "Bearer " + token.value)];
    var listRequest := HttpRequest(Get, kcBasePath + config.listClientsPath, listHeaders, []);
    sent := sent + [listRequest];
    var listResponse := exchange(listRequest);
    if IsErrorStatus(listResponse.status) {
      outcome := RequestError(listResponse.status);
    } else if listResponse.status != StatusOk {
      outcome := ListClientsFailed(listResponse.status);
    } else {
      outcome := Completed;
    }
  }
}
