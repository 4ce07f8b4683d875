/**
  The hh.ru vacancy API as the maintenance scripts call it: one GET of
  `https://api.hh.ru/vacancies/{id}` per vacancy.
 */
module HhApi {
  import opened Wrappers
  import opened Json

  /** What `hc.get(...)` produced: a transport failure, or a response with its
      status and its body decoded as JSON (`None` when it is not JSON). */
  datatype Reply = TransportFailure | Response(status: int, body: Option<Json>)

  /** `r.raise_for_status()` lets a reply through only with a 2xx status. */
  predicate Success(status: int) {
    200 <= status < 300
  }

  /** The decoded body of a reply that `raise_for_status()` and `r.json()`
      accept, and whose fields `data.get(...)` can read; the error otherwise.
      A 404 is handled by each caller before this. */
  function Body(reply: Reply): (r: Result<Payload, PyError>)
    ensures r.Ok? <==> reply.Response? && Success(reply.status) && reply.body.Some? && reply.body.value.Object?
    ensures r.Ok? ==> r.value == reply.body.value.fields
  {
    match reply
    case TransportFailure => Err(TransportError)
    case Response(status, body) =>
      if !Success(status) then Err(HttpStatusError)
      else if body.None? then Err(DecodeError)
      else if !body.value.Object? then Err(AttributeError)
      else Ok(body.value.fields)
  }
}
