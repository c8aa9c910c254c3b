/** The parts of the Express framework the handlers depend on: requests,
    responses, the two ways a handler can finish (send a response or pass an
    error to `next`), and the ordered chain of error-handling middleware. */
module Express {
  import opened JsValues

  datatype Option<+T> = None | Some(value: T)

  /** An error value handed to `next(err)`. Only the three properties the
      error handlers read are kept: `status`, `message` and the Postgres
      error `code`; a property the error lacks is `Undefined`. */
  datatype ErrorValue = ErrorValue(status: Value, message: Value, code: Value)

  /** A route parameter: the raw path segment and the number `Number(raw)`
      that JavaScript coerces it to. The coercion itself is not modelled. */
  datatype PathParam = PathParam(raw: string, asNumber: NumberValue)

  /** `req`: route parameters, the parsed query string and the parsed JSON body. */
  datatype Request = Request(params: map<string, PathParam>, query: map<string, Value>, body: Value)

  /** A response body: nothing (`res.end()`) or a JSON document (`res.send(obj)`). */
  datatype Body = Empty | Json(payload: Value)

  /** A response: the status passed to `res.status` and the body sent. */
  datatype Response = Response(status: Value, body: Body)

  /** How a handler finishes: it sends a response, or it forwards an error
      to the error-handling chain with `next(err)` (also what `.catch(next)`
      does with a rejected promise). */
  datatype Outcome = Sent(response: Response) | Forwarded(error: ErrorValue)

  /** The first half of a guarded handler: it either replies at once, before
      any model is called, or goes on to consult the model with `args`. */
  datatype Step<+A> = Reply(response: Response) | Consult(args: A)

  /** An error-handling middleware: it answers the error or defers it, unchanged, to the next one. */
  type ErrorHandler = ErrorValue -> Option<Response>

  /** `{ key: value }` */
  function Envelope(key: string, value: Value): Value {
    Obj(map[key := value])
  }

  /** `res.status(status).send({ message })` */
  function MessageResponse(status: Value, message: Value): Response {
    Response(status, Json(Envelope("message", message)))
  }

  /** The error reaches handler `i`: every handler before it deferred. */
  predicate Reaches(handlers: seq<ErrorHandler>, e: ErrorValue, i: nat)
    requires i <= |handlers|
  {
    forall j :: 0 <= j < i ==> handlers[j](e).None?
  }

  /** Express runs the error handlers in registration order; the first one
      that sends a response ends the request. `None` means every handler
      deferred. */
  function RunChain(handlers: seq<ErrorHandler>, e: ErrorValue): (r: Option<Response>)
    ensures r.None? <==> Reaches(handlers, e, |handlers|)
    ensures r.Some? ==> exists i :: 0 <= i < |handlers| && Reaches(handlers, e, i) && handlers[i](e) == r
    decreases |handlers|
  {
    if |handlers| == 0 then None
    else
      match handlers[0](e)
      case Some(response) =>
        assert Reaches(handlers, e, 0);
        Some(response)
      case None =>
        var rest := handlers[1..];
        var r := RunChain(rest, e);
        assert forall j :: 0 <= j < |rest| ==> rest[j] == handlers[j + 1];
        if r.Some? then
          var i :| 0 <= i < |rest| && Reaches(rest, e, i) && rest[i](e) == r;
          assert Reaches(handlers, e, i + 1) && handlers[i + 1](e) == r;
          r
        else r
  }

  /** What the client receives for a handler's outcome: a sent response as
      is, a forwarded error as the chain answers it. */
  function Serve(handlers: seq<ErrorHandler>, outcome: Outcome): (r: Option<Response>)
    ensures outcome.Sent? ==> r == Some(outcome.response)
    ensures outcome.Forwarded? ==> r == RunChain(handlers, outcome.error)
  {
    match outcome
    case Sent(response) => Some(response)
    case Forwarded(e) => RunChain(handlers, e)
  }

  /** Running two chains one after the other is running their concatenation. */
  lemma {:induction false} RunChainAppend(first: seq<ErrorHandler>, second: seq<ErrorHandler>, e: ErrorValue)
    ensures RunChain(first + second, e) == if RunChain(first, e).Some? then RunChain(first, e) else RunChain(second, e)
    decreases |first|
  {
    if |first| == 0 {
      assert first + second == second;
    } else {
      assert (first + second)[0] == first[0];
      assert (first + second)[1..] == first[1..] + second;
      if first[0](e).None? {
        RunChainAppend(first[1..], second, e);
      }
    }
  }
}
