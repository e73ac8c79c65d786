/** The few HTTP notions shared by the forwarding controller and the warm-up task. */
module Http {

  datatype HttpMethod = Get | Post | Other(name: string)

  /** The method name as the servlet API reports it. */
  function MethodName(m: HttpMethod): string {
    match m
    case Get => "GET"
    case Post => "POST"
    case Other(name) => name
  }

  const StatusOk: int := 200

  /** An outbound request: method, absolute URL, headers and form fields, both in insertion order. */
  datatype HttpRequest = HttpRequest(
    verb: HttpMethod,
    url: string,
    headers: seq<(string, string)>,
    form: seq<(string, string)>)

  /** An inbound response: status code and body text. */
  datatype HttpResponse = HttpResponse(status: int, body: string)
}
