/** The application as assembled: the error-handling middleware in the order
    it is registered, and requests followed from controller through model to
    the response the client receives. */
module App {
  import opened JsValues
  import opened Express
  import opened Store
  import opened ErrorHandlers
  import ArticlesModels
  import UsersModels
  import CommentsModels
  import ArticlesControllers
  import CommentsControllers
  import UsersControllers

  /** The error handlers in registration order: custom, Postgres, server. */
  function AppChain(): seq<ErrorHandler> {
    [CustomErrorController, PsqlErrorController, ServerErrorController]
  }

  /** The same chain with the Postgres handler as evidently intended. */
  function IntendedChain(): seq<ErrorHandler> {
    [CustomErrorController, PsqlErrorIntended, ServerErrorController]
  }

  // The chain as registered

  /** Every error gets exactly one response from the chain. */
  lemma ChainIsTotal(e: ErrorValue)
    ensures RunChain(AppChain(), e).Some?
    ensures RunChain(IntendedChain(), e).Some?
  {
    var chain := AppChain();
    assert chain[1..][1..] == [ServerErrorController];
    var intended := IntendedChain();
    assert intended[1..][1..] == [ServerErrorController];
  }

  /** A domain rejection `{ status, message }` comes out with exactly its own status and message. */
  lemma DomainRejectionPassesThrough(e: ErrorValue)
    requires IsDomainRejection(e)
    ensures RunChain(AppChain(), e) == Some(MessageResponse(e.status, e.message))
    ensures RunChain(IntendedChain(), e) == Some(MessageResponse(e.status, e.message))
  {
  }

  /** Any other error becomes 400 "bad request", whatever its code and
      message: the Postgres handler answers everything it is given. */
  lemma OtherErrorsAreBadRequest(e: ErrorValue)
    requires !IsDomainRejection(e)
    ensures RunChain(AppChain(), e) == Some(MessageResponse(Int(400), Str(BadRequestMessage)))
  {
    var chain := AppChain();
    assert chain[0](e).None?;
    assert chain[1..][0](e).Some?;
  }

  /** The 500 handler is never reached: no error gets past the Postgres handler. */
  lemma ServerErrorUnreachable(e: ErrorValue)
    ensures !Reaches(AppChain(), e, 2)
    ensures RunChain(AppChain(), e).value.status != Int(500) || e.status == Int(500)
  {
    var chain := AppChain();
    assert chain[1](e).Some?;
    if IsDomainRejection(e) {
      DomainRejectionPassesThrough(e);
    } else {
      OtherErrorsAreBadRequest(e);
    }
  }

  /** Outside domain rejections the client sees only a fixed message, never
      the error's own text, under either version of the chain. */
  lemma OtherErrorsHideTheirMessage(e: ErrorValue)
    requires !IsDomainRejection(e)
    ensures RunChain(AppChain(), e).value.body in {Json(Envelope("message", Str(BadRequestMessage)))}
    ensures RunChain(IntendedChain(), e).value.body in
      {Json(Envelope("message", Str(BadRequestMessage))), Json(Envelope("message", Str(ServerErrorMessage)))}
  {
    OtherErrorsAreBadRequest(e);
    IntendedChainClassifies(e);
  }

  // The chain as evidently intended

  /** With the intended Postgres handler, an error that is not a domain
      rejection is 400 exactly when its code is 22P02 or 23503, and 500
      "server error" otherwise. */
  lemma IntendedChainClassifies(e: ErrorValue)
    requires !IsDomainRejection(e)
    ensures e.code == Str(InvalidTextRepresentation) || e.code == Str(ForeignKeyViolation) ==>
      RunChain(IntendedChain(), e) == Some(MessageResponse(Int(400), Str(BadRequestMessage)))
    ensures e.code != Str(InvalidTextRepresentation) && e.code != Str(ForeignKeyViolation) ==>
      RunChain(IntendedChain(), e) == Some(MessageResponse(Int(500), Str(ServerErrorMessage)))
  {
    var chain := IntendedChain();
    assert chain[0](e).None?;
    assert chain[1..][1..] == [ServerErrorController];
  }

  /** A Postgres error with an unrelated code, undefined-table 42P01, is
      answered 400 "bad request" by the chain as written, where the intended
      chain answers 500 "server error". */
  lemma PsqlConditionMisclassifies()
    ensures var e := PgError("42P01", "relation \"articles\" does not exist");
      && RunChain(AppChain(), e) == Some(MessageResponse(Int(400), Str(BadRequestMessage)))
      && RunChain(IntendedChain(), e) == Some(MessageResponse(Int(500), Str(ServerErrorMessage)))
  {
    var e := PgError("42P01", "relation \"articles\" does not exist");
    OtherErrorsAreBadRequest(e);
    IntendedChainClassifies(e);
  }

  // Requests end to end

  /** GET /api/articles/:article_id served against a database `db`. */
  function ServeGetArticle(req: Request, db: Db): (r: Option<Response>)
    requires "article_id" in req.params
  {
    Serve(AppChain(), ArticlesControllers.GetArticleController(req, id => ArticlesModels.GetArticleModel(id, db)))
  }

  /** A non-integer id is answered 400 whatever the database holds; a missing
      article is 404 "resource not found"; a found one is 200 under `article`;
      a database failure is 400 "bad request". */
  lemma GetArticleEndToEnd(req: Request, db: Db)
    requires "article_id" in req.params
    ensures var id := req.params["article_id"];
      && (!IsInteger(id.asNumber) ==>
            ServeGetArticle(req, db) == Some(MessageResponse(Int(400), Str(ArticlesControllers.BadIdMessage))))
      && (IsInteger(id.asNumber) && db(ArticlesModels.ArticleByIdQuery(id.raw)) == Resolved([]) ==>
            ServeGetArticle(req, db) == Some(MessageResponse(Int(404), Str(ArticlesControllers.NotFoundMessage))))
      && (IsInteger(id.asNumber) && db(ArticlesModels.ArticleByIdQuery(id.raw)).Resolved? && |db(ArticlesModels.ArticleByIdQuery(id.raw)).value| > 0 ==>
            ServeGetArticle(req, db) == Some(Response(Int(200), Json(Envelope("article", Obj(db(ArticlesModels.ArticleByIdQuery(id.raw)).value[0]))))))
      && (IsInteger(id.asNumber) && db(ArticlesModels.ArticleByIdQuery(id.raw)).Rejected? && !Truthy(db(ArticlesModels.ArticleByIdQuery(id.raw)).reason.status) ==>
            ServeGetArticle(req, db) == Some(MessageResponse(Int(400), Str(BadRequestMessage))))
  {
    var id := req.params["article_id"];
    var result := db(ArticlesModels.ArticleByIdQuery(id.raw));
    if IsInteger(id.asNumber) && result.Rejected? && !Truthy(result.reason.status) {
      OtherErrorsAreBadRequest(result.reason);
    }
  }

  /** DELETE /api/comments/:comment_id served against a database `db`. */
  function ServeDeleteComment(req: Request, db: Db): (r: Option<Response>)
    requires "comment_id" in req.params
  {
    Serve(AppChain(), CommentsControllers.DeleteCommentController(req, id => CommentsModels.DeleteCommentModel(id, db)))
  }

  /** A delete that removed a row is 204 with no body; one whose `RETURNING`
      set is empty is 404 naming the id. */
  lemma DeleteCommentEndToEnd(req: Request, db: Db)
    requires "comment_id" in req.params
    ensures var id := req.params["comment_id"].raw;
      && (db(CommentsModels.DeleteCommentQuery(id)) == Resolved([]) ==>
            ServeDeleteComment(req, db) == Some(MessageResponse(Int(404), Str("no comment with an id of " + id))))
      && (db(CommentsModels.DeleteCommentQuery(id)).Resolved? && |db(CommentsModels.DeleteCommentQuery(id)).value| > 0 ==>
            ServeDeleteComment(req, db) == Some(Response(Int(204), Empty)))
  {
    var id := req.params["comment_id"].raw;
    if db(CommentsModels.DeleteCommentQuery(id)) == Resolved([]) {
      DomainRejectionPassesThrough(CommentsModels.CommentNotFound(id));
    }
  }

  /** Once forwarded, the rejection for an unknown username is answered by the
      chain with 404 and its own message. No mounted route calls the user
      lookup, so this is the model and the chain taken together. */
  lemma UnknownUserEndToEnd(username: string, db: Db)
    requires db(UsersModels.UserByNameQuery(username)) == Resolved([])
    ensures UsersModels.GetUserModel(username, db).Rejected?
    ensures RunChain(AppChain(), UsersModels.GetUserModel(username, db).reason)
      == Some(MessageResponse(Int(404), Str("no user with username of " + username + " found")))
  {
    DomainRejectionPassesThrough(UsersModels.UserNotFound(username));
  }

  /** Creating an article whose insert returns no row makes the controller
      throw; the chain as written answers that 400 "bad request". */
  lemma PostArticleWithoutRowIsBadRequest(req: Request, postArticleModel: Value -> Settled<seq<Row>>)
    requires postArticleModel(req.body) == Resolved([])
    ensures Serve(AppChain(), ArticlesControllers.PostArticleController(req, postArticleModel))
      == Some(MessageResponse(Int(400), Str(BadRequestMessage)))
  {
    OtherErrorsAreBadRequest(ArticlesControllers.CommentCountTypeError);
  }

  /** A forwarded error as the client receives it: a domain rejection
      verbatim, anything else as 400 "bad request". */
  lemma ForwardedErrorServed(e: ErrorValue)
    ensures IsDomainRejection(e) ==> Serve(AppChain(), Forwarded(e)) == Some(MessageResponse(e.status, e.message))
    ensures !IsDomainRejection(e) ==> Serve(AppChain(), Forwarded(e)) == Some(MessageResponse(Int(400), Str(BadRequestMessage)))
  {
    if IsDomainRejection(e) {
      DomainRejectionPassesThrough(e);
    } else {
      OtherErrorsAreBadRequest(e);
    }
  }

  /** GET /api/articles: the model's data is sent with 200; a failure is
      never answered by the controller but by the chain. */
  lemma GetAllArticlesEndToEnd(req: Request, getAllArticlesModel: map<string, Value> -> Settled<Value>)
    ensures var result := getAllArticlesModel(req.query);
      var served := Serve(AppChain(), ArticlesControllers.GetAllArticlesController(req, getAllArticlesModel));
      && (result.Resolved? ==> served == Some(Response(Int(200), Json(result.value))))
      && (result.Rejected? && IsDomainRejection(result.reason) ==>
            served == Some(MessageResponse(result.reason.status, result.reason.message)))
      && (result.Rejected? && !IsDomainRejection(result.reason) ==>
            served == Some(MessageResponse(Int(400), Str(BadRequestMessage))))
  {
    var result := getAllArticlesModel(req.query);
    if result.Rejected? {
      ForwardedErrorServed(result.reason);
    }
  }

  /** GET /api/articles/:article_id/comments: the model's data is sent with
      200; a failure is answered by the chain. */
  lemma GetArticleCommentsEndToEnd(req: Request, getArticleCommentsModel: (string, Value, Value) -> Settled<Value>)
    requires "article_id" in req.params
    ensures var result := getArticleCommentsModel(req.params["article_id"].raw, Get(Obj(req.query), "limit"), Get(Obj(req.query), "p"));
      var served := Serve(AppChain(), ArticlesControllers.GetArticleCommentsController(req, getArticleCommentsModel));
      && (result.Resolved? ==> served == Some(Response(Int(200), Json(result.value))))
      && (result.Rejected? && IsDomainRejection(result.reason) ==>
            served == Some(MessageResponse(result.reason.status, result.reason.message)))
      && (result.Rejected? && !IsDomainRejection(result.reason) ==>
            served == Some(MessageResponse(Int(400), Str(BadRequestMessage))))
  {
    var result := getArticleCommentsModel(req.params["article_id"].raw, Get(Obj(req.query), "limit"), Get(Obj(req.query), "p"));
    if result.Rejected? {
      ForwardedErrorServed(result.reason);
    }
  }

  /** DELETE /api/articles/:article_id: any resolution is 204 with no body; a
      failure is answered by the chain. */
  lemma DeleteArticleEndToEnd<T>(req: Request, deleteArticleModel: string -> Settled<T>)
    requires "article_id" in req.params
    ensures var result := deleteArticleModel(req.params["article_id"].raw);
      var served := Serve(AppChain(), ArticlesControllers.DeleteArticleController(req, deleteArticleModel));
      && (result.Resolved? ==> served == Some(Response(Int(204), Empty)))
      && (result.Rejected? && IsDomainRejection(result.reason) ==>
            served == Some(MessageResponse(result.reason.status, result.reason.message)))
      && (result.Rejected? && !IsDomainRejection(result.reason) ==>
            served == Some(MessageResponse(Int(400), Str(BadRequestMessage))))
  {
    var result := deleteArticleModel(req.params["article_id"].raw);
    if result.Rejected? {
      ForwardedErrorServed(result.reason);
    }
  }

  /** GET /api/users served against a database `db`: the constant listing
      query's rows come back under `users` with 200; a database failure is 400. */
  lemma GetAllUsersEndToEnd(db: Db)
    ensures var result := db(UsersModels.AllUsersQuery());
      var served := Serve(AppChain(), UsersControllers.GetAllUsersController(UsersModels.GetAllUsersModel(db)));
      && (result.Resolved? ==> served == Some(Response(Int(200), Json(Envelope("users", UsersControllers.RowsAsArray(result.value))))))
      && (result.Rejected? && !IsDomainRejection(result.reason) ==>
            served == Some(MessageResponse(Int(400), Str(BadRequestMessage))))
  {
    var result := db(UsersModels.AllUsersQuery());
    if result.Rejected? {
      ForwardedErrorServed(result.reason);
    }
  }

  /** The unmatched-route 404 is the same for every request, and it is told
      apart from the 404 of a missing article by its message. */
  lemma BadPathIgnoresRequest(a: Request, b: Request)
    ensures BadPathController(a) == BadPathController(b)
    ensures BadPathController(a) != ArticlesControllers.GetArticleResult(Resolved([])).response
  {
    var notFound := ArticlesControllers.GetArticleResult(Resolved([])).response;
    assert notFound.body.payload.fields["message"] == Str(ArticlesControllers.NotFoundMessage);
    assert BadPathController(a).body.payload.fields["message"] == Str(InvalidPathMessage);
    assert InvalidPathMessage[0] != ArticlesControllers.NotFoundMessage[0];
  }

  /** What calling an imported name that holds `undefined` throws. */
  function NotAFunction(name: string): (e: ErrorValue)
    ensures !Truthy(e.status) && Truthy(e.message)
  {
    ErrorValue(Undefined, Str(name + " is not a function"), Undefined)
  }

  /** A route whose model is not defined anywhere throws when it calls it;
      Express forwards the error and the chain answers 400 "bad request". */
  lemma UndefinedModelIsBadRequest(name: string)
    ensures Serve(AppChain(), Forwarded(NotAFunction(name))) == Some(MessageResponse(Int(400), Str(BadRequestMessage)))
  {
    ForwardedErrorServed(NotAFunction(name));
  }
}
