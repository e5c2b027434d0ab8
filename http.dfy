/** Responses and network outcomes, as opaque values with the `ok` flag the worker tests. */
module Http {

  /** A response: its status code, body text and headers. Cloning is the identity on these values. */
  datatype Response = Response(status: int, body: string, headers: map<string, string>)

  /** `response.ok`: the status lies in the 200-299 range. Error and opaque responses, whose
      status is 0, are never ok. */
  predicate Ok(r: Response): (b: bool)
    ensures b ==> r.status > 0
    ensures r.status == 0 ==> !b
  {
    200 <= r.status <= 299
  }

  /** The outcome of one `fetch`: a response (ok or not), or a rejected promise (no connectivity). */
  datatype NetOutcome = Fetched(response: Response) | NetworkError

  /** `JSON.stringify({ error: 'Sin conexión' })`. */
  const OFFLINE_BODY: string := "{\"error\":\"Sin conexi\U{F3}n\"}"

  /** The response synthesised when the API cannot be reached: `new Response(body, { headers })`,
      whose status defaults to 200. */
  function OfflineFallback(): (r: Response)
    ensures Ok(r) && r.body == OFFLINE_BODY
    ensures "Content-Type" in r.headers && r.headers["Content-Type"] == "application/json"
  {
    Response(200, OFFLINE_BODY, map["Content-Type" := "application/json"])
  }
}
