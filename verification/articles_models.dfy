/** The one article model that is defined: fetching an article by id. */
module ArticlesModels {
  import opened JsValues
  import opened Store

  /** `SELECT * FROM articles WHERE article_id=$1` with the id bound as `$1`. */
  function ArticleByIdQuery(articleId: string): (q: Query)
    ensures WellBound(q)
    ensures Render(q.template) == "SELECT * FROM articles WHERE article_id=$1"
    ensures q.params == [Str(articleId)]
  {
    Query([Sql("SELECT * FROM articles WHERE article_id="), Slot(1)], [Str(articleId)])
  }

  /** Resolves with the matching rows, possibly none; a database error rejects
      unchanged. Unlike the user and comment models, an empty row set is not a
      rejection here: the controller decides what no rows means. */
  function GetArticleModel(articleId: string, db: Db): (r: Settled<seq<Row>>)
    ensures db(ArticleByIdQuery(articleId)) == Resolved([]) ==> r == Resolved([])
    ensures r.Rejected? <==> db(ArticleByIdQuery(articleId)).Rejected?
    ensures r.Rejected? ==> r.reason == db(ArticleByIdQuery(articleId)).reason
    ensures r.Resolved? ==> r.value == db(ArticleByIdQuery(articleId)).value
  {
    db(ArticleByIdQuery(articleId))
  }
}
