/** The article controllers: the guards that answer 400 before any model is
    called, and the status and envelope each endpoint sends for what its
    model settles with. A model that rejects is never answered here: its
    error is forwarded to the error-handling chain unchanged. */
module ArticlesControllers {
  import opened JsValues
  import opened Express
  import opened Store

  const BadIdMessage := "bad request: article id must be an integer"
  const NotFoundMessage := "resource not found"
  const IncVotesMessage := "patch request must be accompanied with an object with inc_votes key"
  const CommentShapeMessage := "post request must be accompanied by a comment object with valid username and body keys"

  /** What JavaScript throws when `rows[0].comment_count = 0` runs on an empty row set. */
  const CommentCountTypeError := ErrorValue(Undefined, Str("Cannot set properties of undefined (setting 'comment_count')"), Undefined)

  /** The id test as written, `isNaN(id) || Math.floor(id) !== Number(id)`:
      it rejects exactly the ids that are not integers. */
  predicate RejectsId(n: NumberValue)
    ensures RejectsId(n) <==> !IsInteger(n)
  {
    IsNaN(n) || !StrictEquals(Floor(n), n)
  }

  /** The body test `!obj || !obj[key]`, negated: the body is present and
      carries a truthy `key`. */
  predicate HasTruthy(body: Value, key: string)
    ensures HasTruthy(body, key) <==> body.Obj? && key in body.fields && Truthy(body.fields[key])
  {
    Truthy(body) && Truthy(Get(body, key))
  }

  /** A created article as sent back: the stored row with `comment_count` set to 0. */
  function WithZeroCommentCount(row: Row): (article: Row)
    ensures article.Keys == row.Keys + {"comment_count"}
    ensures article["comment_count"] == Int(0)
    ensures forall k :: k in row && k != "comment_count" ==> article[k] == row[k]
  {
    row["comment_count" := Int(0)]
  }

  // getArticleController

  /** The id guard of `getArticleController`. */
  function GetArticleStep(req: Request): (s: Step<string>)
    requires "article_id" in req.params
    ensures s.Reply? <==> !IsInteger(req.params["article_id"].asNumber)
    ensures s.Reply? ==> s.response == MessageResponse(Int(400), Str(BadIdMessage))
    ensures s.Consult? ==> s.args == req.params["article_id"].raw
  {
    var id := req.params["article_id"];
    if RejectsId(id.asNumber) then Reply(MessageResponse(Int(400), Str(BadIdMessage)))
    else Consult(id.raw)
  }

  /** What `getArticleController` does with the rows the model settles with. */
  function GetArticleResult(result: Settled<seq<Row>>): (o: Outcome)
    ensures result.Rejected? ==> o == Forwarded(result.reason)
    ensures result == Resolved([]) ==> o == Sent(MessageResponse(Int(404), Str(NotFoundMessage)))
    ensures o.Sent? && o.response.status == Int(200) <==> result.Resolved? && |result.value| > 0
    ensures result.Resolved? && |result.value| > 0 ==> o.response.body == Json(Envelope("article", Obj(result.value[0])))
  {
    match result
    case Rejected(e) => Forwarded(e)
    case Resolved(rows) =>
      if |rows| == 0 then Sent(MessageResponse(Int(404), Str(NotFoundMessage)))
      else Sent(Response(Int(200), Json(Envelope("article", RowAt(rows, 0)))))
  }

  function GetArticleController(req: Request, getArticleModel: string -> Settled<seq<Row>>): (o: Outcome)
    requires "article_id" in req.params
    ensures !IsInteger(req.params["article_id"].asNumber) ==> o == Sent(MessageResponse(Int(400), Str(BadIdMessage)))
    ensures IsInteger(req.params["article_id"].asNumber) ==> o == GetArticleResult(getArticleModel(req.params["article_id"].raw))
  {
    match GetArticleStep(req)
    case Reply(response) => Sent(response)
    case Consult(id) => GetArticleResult(getArticleModel(id))
  }

  // getAllArticlesController and getArticleCommentsController

  /** Sends whatever the listing model resolves with, under status 200. */
  function GetAllArticlesController(req: Request, getAllArticlesModel: map<string, Value> -> Settled<Value>): (o: Outcome)
    ensures o.Sent? <==> getAllArticlesModel(req.query).Resolved?
    ensures o.Sent? ==> o.response == Response(Int(200), Json(getAllArticlesModel(req.query).value))
    ensures o.Forwarded? ==> o.error == getAllArticlesModel(req.query).reason
  {
    match getAllArticlesModel(req.query)
    case Rejected(e) => Forwarded(e)
    case Resolved(data) => Sent(Response(Int(200), Json(data)))
  }

  /** Passes the raw id and the `limit` and `p` query values, unvalidated, to
      the model and sends what it resolves with under status 200. */
  function GetArticleCommentsController(req: Request, getArticleCommentsModel: (string, Value, Value) -> Settled<Value>): (o: Outcome)
    requires "article_id" in req.params
    ensures
      var result := getArticleCommentsModel(req.params["article_id"].raw, Get(Obj(req.query), "limit"), Get(Obj(req.query), "p"));
      && (o.Sent? <==> result.Resolved?)
      && (o.Sent? ==> o.response == Response(Int(200), Json(result.value)))
      && (o.Forwarded? ==> o.error == result.reason)
  {
    var articleId := req.params["article_id"].raw;
    var limit := Get(Obj(req.query), "limit");
    var p := Get(Obj(req.query), "p");
    match getArticleCommentsModel(articleId, limit, p)
    case Rejected(e) => Forwarded(e)
    case Resolved(data) => Sent(Response(Int(200), Json(data)))
  }

  // patchArticleVotesController

  /** The body guard of `patchArticleVotesController`: a missing body or a
      falsy `inc_votes` (absent, 0, "", null, false) is answered with 400. */
  function PatchVotesStep(req: Request): (s: Step<(string, Value)>)
    requires "article_id" in req.params
    ensures s.Reply? <==> !(req.body.Obj? && "inc_votes" in req.body.fields && Truthy(req.body.fields["inc_votes"]))
    ensures s.Reply? ==> s.response == MessageResponse(Int(400), Str(IncVotesMessage))
    ensures s.Consult? ==> s.args == (req.params["article_id"].raw, req.body.fields["inc_votes"])
  {
    if !HasTruthy(req.body, "inc_votes") then Reply(MessageResponse(Int(400), Str(IncVotesMessage)))
    else Consult((req.params["article_id"].raw, Get(req.body, "inc_votes")))
  }

  /** A successful vote patch sends the first returned row under `updatedArticle`. */
  function PatchVotesResult(result: Settled<seq<Row>>): (o: Outcome)
    ensures result.Rejected? <==> o.Forwarded?
    ensures result.Rejected? ==> o.error == result.reason
    ensures result.Resolved? ==> o == Sent(Response(Int(200), Json(Envelope("updatedArticle", RowAt(result.value, 0)))))
  {
    match result
    case Rejected(e) => Forwarded(e)
    case Resolved(rows) => Sent(Response(Int(200), Json(Envelope("updatedArticle", RowAt(rows, 0)))))
  }

  function PatchArticleVotesController(req: Request, patchArticleVotesModel: (string, Value) -> Settled<seq<Row>>): (o: Outcome)
    requires "article_id" in req.params
    ensures !HasTruthy(req.body, "inc_votes") ==> o == Sent(MessageResponse(Int(400), Str(IncVotesMessage)))
    ensures HasTruthy(req.body, "inc_votes") ==>
      o == PatchVotesResult(patchArticleVotesModel(req.params["article_id"].raw, req.body.fields["inc_votes"]))
  {
    match PatchVotesStep(req)
    case Reply(response) => Sent(response)
    case Consult(args) => PatchVotesResult(patchArticleVotesModel(args.0, args.1))
  }

  // postCommentController

  /** The body guard of `postCommentController`: the body must be present and
      carry a truthy `username` and a truthy `body`. */
  function PostCommentStep(req: Request): (s: Step<(string, Value, Value)>)
    requires "article_id" in req.params
    ensures s.Reply? <==> !(HasTruthy(req.body, "username") && HasTruthy(req.body, "body"))
    ensures s.Reply? ==> s.response == MessageResponse(Int(400), Str(CommentShapeMessage))
    ensures s.Consult? ==> s.args == (req.params["article_id"].raw, req.body.fields["username"], req.body.fields["body"])
  {
    var comment := req.body;
    if !Truthy(comment) || !Truthy(Get(comment, "username")) || !Truthy(Get(comment, "body")) then
      Reply(MessageResponse(Int(400), Str(CommentShapeMessage)))
    else
      Consult((req.params["article_id"].raw, Get(comment, "username"), Get(comment, "body")))
  }

  /** A posted comment is sent back under `postedComment` with status 201. */
  function PostCommentResult(result: Settled<seq<Row>>): (o: Outcome)
    ensures result.Rejected? <==> o.Forwarded?
    ensures result.Rejected? ==> o.error == result.reason
    ensures result.Resolved? ==> o == Sent(Response(Int(201), Json(Envelope("postedComment", RowAt(result.value, 0)))))
  {
    match result
    case Rejected(e) => Forwarded(e)
    case Resolved(rows) => Sent(Response(Int(201), Json(Envelope("postedComment", RowAt(rows, 0)))))
  }

  function PostCommentController(req: Request, postCommentModel: (string, Value, Value) -> Settled<seq<Row>>): (o: Outcome)
    requires "article_id" in req.params
    ensures !(HasTruthy(req.body, "username") && HasTruthy(req.body, "body")) ==>
      o == Sent(MessageResponse(Int(400), Str(CommentShapeMessage)))
    ensures HasTruthy(req.body, "username") && HasTruthy(req.body, "body") ==>
      o == PostCommentResult(postCommentModel(req.params["article_id"].raw, req.body.fields["username"], req.body.fields["body"]))
  {
    match PostCommentStep(req)
    case Reply(response) => Sent(response)
    case Consult(args) => PostCommentResult(postCommentModel(args.0, args.1, args.2))
  }

  // postArticleController

  /** A created article is sent back under `newArticle` with status 201 and
      `comment_count` 0. An empty row set makes the assignment to
      `rows[0].comment_count` throw, and that error is forwarded. */
  function PostArticleResult(result: Settled<seq<Row>>): (o: Outcome)
    ensures result.Rejected? ==> o == Forwarded(result.reason)
    ensures result == Resolved([]) ==> o == Forwarded(CommentCountTypeError)
    ensures o.Sent? <==> result.Resolved? && |result.value| > 0
    ensures o.Sent? ==> o.response == Response(Int(201), Json(Envelope("newArticle", Obj(WithZeroCommentCount(result.value[0])))))
  {
    match result
    case Rejected(e) => Forwarded(e)
    case Resolved(rows) =>
      if |rows| == 0 then Forwarded(CommentCountTypeError)
      else Sent(Response(Int(201), Json(Envelope("newArticle", Obj(WithZeroCommentCount(rows[0]))))))
  }

  /** Unlike the other write endpoints there is no guard: the whole body goes
      to the model unchecked, and the controller never replies 400 itself. */
  function PostArticleController(req: Request, postArticleModel: Value -> Settled<seq<Row>>): (o: Outcome)
    ensures o.Sent? ==> o.response.status == Int(201)
    ensures postArticleModel(req.body).Rejected? ==> o == Forwarded(postArticleModel(req.body).reason)
    ensures postArticleModel(req.body) == Resolved([]) ==> o == Forwarded(CommentCountTypeError)
    ensures postArticleModel(req.body).Resolved? && |postArticleModel(req.body).value| > 0 ==>
      o == Sent(Response(Int(201), Json(Envelope("newArticle", Obj(WithZeroCommentCount(postArticleModel(req.body).value[0]))))))
  {
    PostArticleResult(postArticleModel(req.body))
  }

  // deleteArticleController

  /** Whatever the model resolves with, a delete answers 204 with no body. */
  function DeleteArticleController<T>(req: Request, deleteArticleModel: string -> Settled<T>): (o: Outcome)
    requires "article_id" in req.params
    ensures o.Sent? <==> deleteArticleModel(req.params["article_id"].raw).Resolved?
    ensures o.Sent? ==> o.response == Response(Int(204), Empty)
    ensures o.Forwarded? ==> o.error == deleteArticleModel(req.params["article_id"].raw).reason
  {
    match deleteArticleModel(req.params["article_id"].raw)
    case Rejected(e) => Forwarded(e)
    case Resolved(_) => Sent(Response(Int(204), Empty))
  }
}
