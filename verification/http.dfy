/**
 * What handlers hand back and how `serveFromRouter` turns it into a status, headers and body.
 * Bodies are kept as the values `JSON.stringify` would render, not as bytes.
 */
module Http {
  import opened Wrappers
  import opened Store

  datatype Payload =
    | NoBody
    | Text(text: string)
    | TalkJson(talk: Talk)
    | ListingJson(talks: seq<Talk>)

  type HeaderMap = map<string, string>

  /** `defaultHeaders` */
  const DefaultHeaders: HeaderMap := map["Content-Type" := "text/plain"]

  /** A handler's `{status, body, headers}`; an absent status or header object is `undefined`. */
  datatype HandlerResult = HandlerResult(status: Option<int>, body: Payload, headers: Option<HeaderMap>)

  /** A thrown error: its own `status`, `body`, `headers` properties, and `String(error)`. */
  datatype Thrown = Thrown(status: Option<int>, body: Payload, headers: Option<HeaderMap>, description: string)

  /** How a routed handler finishes: a value, an exception, or a promise held by a waiter. */
  datatype Reply =
    | Returned(result: HandlerResult)
    | Threw(error: Thrown)
    | Suspended(waiter: nat, seconds: nat)

  datatype Response = Response(status: int, headers: HeaderMap, body: Payload)

  /** What `serveFromRouter` does: write a response, call `next`, or wait for a promise. */
  datatype Served = Write(response: Response) | Next | Pending(waiter: nat, seconds: nat)

  /** The destructuring `{ body, status = 200, headers = defaultHeaders }`. */
  function Written(h: HandlerResult): (r: Response)
    ensures r.body == h.body
    ensures h.status.None? ==> r.status == 200
    ensures h.status.Some? ==> r.status == h.status.value
    ensures h.headers.None? ==> r.headers == DefaultHeaders
    ensures h.headers.Some? ==> r.headers == h.headers.value
  {
    Response(h.status.GetOr(200), h.headers.GetOr(DefaultHeaders), h.body)
  }

  /** The error handler of `serveFromRouter`: an error with a status is the result; any other is a 500. */
  function Recover(e: Thrown): (r: HandlerResult)
    ensures e.status.Some? ==> r == HandlerResult(e.status, e.body, e.headers)
    ensures e.status.None? ==> Written(r) == Response(500, DefaultHeaders, Text(e.description))
  {
    if e.status.Some? then HandlerResult(e.status, e.body, e.headers)
    else HandlerResult(Some(500), Text(e.description), None)
  }

  /** `serveFromRouter`, given what the router produced (`None` when no route matched). */
  function Serve(routed: Option<Reply>): (r: Served)
    ensures r.Next? <==> routed.None?
    ensures r.Pending? <==> routed.Some? && routed.value.Suspended?
    ensures routed.Some? && routed.value.Returned? ==> r == Write(Written(routed.value.result))
    ensures routed.Some? && routed.value.Threw? && routed.value.error.status.None? ==>
      r == Write(Response(500, DefaultHeaders, Text(routed.value.error.description)))
    ensures routed.Some? && routed.value.Threw? && routed.value.error.status.Some? ==>
      r.Write? && r.response.status == routed.value.error.status.value && r.response.body == routed.value.error.body
  {
    match routed
    case None => Next
    case Some(Returned(h)) => Write(Written(h))
    case Some(Threw(e)) => Write(Written(Recover(e)))
    case Some(Suspended(w, seconds)) => Pending(w, seconds)
  }

  /** An error that carries a status is served exactly as a returned result with the same fields. */
  lemma ThrownWithStatusServedAsResult(e: Thrown)
    requires e.status.Some?
    ensures Serve(Some(Threw(e))) == Serve(Some(Returned(HandlerResult(e.status, e.body, e.headers))))
  {
  }
}
