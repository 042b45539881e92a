/**
 * What the API clients send and what the HTTP layer hands back. The transport
 * itself is not modelled: each send is answered by an `Exchange` given as input.
 */
module Http {
  import opened Options
  import opened JsonValues

  /** The outcome of `json.loads` on a response body. */
  datatype Decoded = Decoded(value: Json) | DecodeError(text: string)

  /** One answer of the HTTP layer to one send. */
  datatype Exchange =
    | Response(status: nat, body: string, decoded: Decoded)
      /** `aiohttp.ClientError` raised while sending or reading */
    | ClientFailure(errorType: string, text: string)
      /** any other exception raised while sending or reading */
    | OtherFailure(errorType: string, text: string)

  /** The `json=` keyword of a request: left out, or attached (possibly `None`). */
  datatype Payload = NoPayload | JsonPayload(data: Option<Json>)

  /** One call of `session.request(...)`. */
  datatype HttpRequest = HttpRequest(
    verb: string,
    url: string,
    headers: map<string, string>,
    params: Option<map<string, Json>>,
    payload: Payload)

  /** The client's `aiohttp.ClientSession`: none yet, open, or closed but still held. */
  datatype SessionState = NoSession | Open | Closed
}
