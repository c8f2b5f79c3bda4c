/** The HTTP vocabulary the dispatcher shares with the outbound REST client. */
module Http {
  import opened Wrappers
  import opened Models

  /** `HttpMethods.Get` and friends: the upper-case verb strings, compared ordinally. */
  const GET := "GET"
  const POST := "POST"
  const PUT := "PUT"
  const DELETE := "DELETE"

  /** A header name with all its values (`KeyValuePair<string, IEnumerable<string>>`). */
  type HeaderField = (string, seq<string>)

  /** The upstream `HttpResponseMessage`: status, response headers, content headers, body. */
  datatype UpstreamResponse = UpstreamResponse(
    statusCode: int,
    headers: seq<HeaderField>,
    contentHeaders: seq<HeaderField>,
    body: string)

  /** `HttpResponseMessage.IsSuccessStatusCode` */
  predicate IsSuccessStatusCode(response: UpstreamResponse) {
    200 <= response.statusCode <= 299
  }

  /**
   * One outbound call: `MakeGetCall`/`MakeDeleteCall` (no body) or `MakePostCall`/`MakePutCall`,
   * with the event name, the resolved URL, the rule's headers and its TLS-bypass flag.
   */
  datatype OutboundCall = OutboundCall(
    verb: string,
    eventName: string,
    targetUrl: string,
    body: Option<string>,
    headers: Headers,
    ignoreSslError: bool)

  /** The REST client: the network call it makes is outside the model; it answers or throws. */
  type RestClient = OutboundCall -> Outcome<UpstreamResponse>
}
