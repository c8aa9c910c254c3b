/** The comment controller: deleting a comment by id. */
module CommentsControllers {
  import opened JsValues
  import opened Express
  import opened Store

  /** A delete the model resolves answers 204 with no body; a rejection is forwarded. */
  function DeleteCommentController(req: Request, deleteCommentModel: string -> Settled<()>): (o: Outcome)
    requires "comment_id" in req.params
    ensures o.Sent? <==> deleteCommentModel(req.params["comment_id"].raw).Resolved?
    ensures o.Sent? ==> o.response == Response(Int(204), Empty)
    ensures o.Forwarded? ==> o.error == deleteCommentModel(req.params["comment_id"].raw).reason
  {
    match deleteCommentModel(req.params["comment_id"].raw)
    case Rejected(e) => Forwarded(e)
    case Resolved(_) => Sent(Response(Int(204), Empty))
  }
}
