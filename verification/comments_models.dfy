/** The comment model: deleting a comment by id. */
module CommentsModels {
  import opened JsValues
  import opened Express
  import opened Store

  /** `DELETE FROM comments WHERE comment_id=$1 RETURNING *` with the id bound as `$1`. */
  function DeleteCommentQuery(commentId: string): (q: Query)
    ensures WellBound(q)
    ensures Render(q.template) == "DELETE FROM comments WHERE comment_id=$1 RETURNING *"
    ensures q.params == [Str(commentId)]
  {
    Query([Sql("DELETE FROM comments WHERE comment_id="), Slot(1), Sql(" RETURNING *")], [Str(commentId)])
  }

  /** The rejection for an id that matched no comment. */
  function CommentNotFound(commentId: string): (e: ErrorValue)
    ensures e.status == Int(404) && Truthy(e.message)
    ensures e.message == Str("no comment with an id of " + commentId)
  {
    ErrorValue(Int(404), Str("no comment with an id of " + commentId), Undefined)
  }

  /** Resolves with no value when the delete returned a row; an empty
      `RETURNING` set rejects with a 404 naming the id; a database error
      rejects unchanged. */
  function DeleteCommentModel(commentId: string, db: Db): (r: Settled<()>)
    ensures db(DeleteCommentQuery(commentId)).Rejected? ==> r == Rejected(db(DeleteCommentQuery(commentId)).reason)
    ensures db(DeleteCommentQuery(commentId)) == Resolved([]) ==> r == Rejected(CommentNotFound(commentId))
    ensures r.Resolved? <==> db(DeleteCommentQuery(commentId)).Resolved? && |db(DeleteCommentQuery(commentId)).value| > 0
  {
    match db(DeleteCommentQuery(commentId))
    case Rejected(e) => Rejected(e)
    case Resolved(rows) =>
      if |rows| == 0 then Rejected(CommentNotFound(commentId))
      else Resolved(())
  }
}
