/** The user controller: listing every user. */
module UsersControllers {
  import opened JsValues
  import opened Express
  import opened Store

  /** The rows as a JSON array of objects. */
  function RowsAsArray(rows: seq<Row>): (v: Value)
    ensures v.Arr? && |v.items| == |rows|
    ensures forall i :: 0 <= i < |rows| ==> v.items[i] == Obj(rows[i])
  {
    Arr(seq(|rows|, i requires 0 <= i < |rows| => Obj(rows[i])))
  }

  /** The users the listing model resolves with (`result`) are sent under `users` with status 200; a rejection is forwarded. */
  function GetAllUsersController(result: Settled<seq<Row>>): (o: Outcome)
    ensures o.Sent? <==> result.Resolved?
    ensures o.Sent? ==> o.response == Response(Int(200), Json(Envelope("users", RowsAsArray(result.value))))
    ensures o.Forwarded? ==> o.error == result.reason
  {
    match result
    case Rejected(e) => Forwarded(e)
    case Resolved(rows) => Sent(Response(Int(200), Json(Envelope("users", RowsAsArray(rows)))))
  }
}
