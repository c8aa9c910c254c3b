# nc_news: error classification and response shaping

A Dafny model of the decision logic of a small Express + Postgres news API:
how each request outcome becomes an HTTP status and a JSON body.

- **Error-handling chain.** Errors forwarded with `next(err)` go through three
  middlewares in registration order: the custom handler answers an error that
  carries a truthy `status` and `message` with exactly those; the Postgres
  handler answers with 400 "bad request"; the server handler answers with
  500 "server error". Unmatched routes get 404 "invalid path". The chain is a
  fold over an ordered list of `ErrorValue -> Option<Response>` functions
  (`Express.RunChain`).
- **Article controllers.** The integer-id guard of the article lookup and the
  body guards of the vote patch and the comment post answer 400 before any
  model is called. Each guarded controller is split into a `Step`
  (`Reply(response)` or `Consult(args)`), so "the store is never consulted"
  is a statement about which constructor comes out. After that come the
  404-on-empty-rows rule, the per-endpoint envelopes and status codes, and the
  `comment_count: 0` added to a new article. A model that rejects is forwarded
  unchanged.
- **Models.** The user lookup and the comment delete turn an empty row set
  into a `{status: 404, message}` rejection. Otherwise the lookup returns the
  first row and the delete resolves with no value. Queries are kept as
  fragments and numbered slots, so the proofs can state that user input
  reaches the database only as a bound parameter and that the rendered text is
  constant.
- **End to end** (`App`): controller and model outcomes fed through the chain
  give the response the client receives.

JavaScript values are modelled as `JsValues.Value`, with truthiness, `||`,
`===` on primitives, property reads and `Math.floor`. A response's status is
the value handed to `res.status`. The database is an abstract function
`Db = Query -> Settled<seq<Row>>`. The article models that the controllers
import but that are not defined here are passed to the controllers as
function parameters.

The Postgres handler answers every error that is not a domain rejection with
400, not only malformed-input and foreign-key errors, so the 500 handler
(`app/controllers/errorhandlers.js:17-19`) is never reached (see Findings). A
500 still comes out for a domain rejection that itself carries status 500. The
server handler logs nothing. Pagination, sort whitelisting and topic existence
checks would live in article models that no source file defines, so they are
not modelled.

## Model

| member | source | states |
|---|---|---|
| `JsValues.Or` | app/controllers/errorhandlers.js:12 | `a or b` is truthy exactly when one operand is, and evaluates to one of its operands |
| `JsValues.StrictEquals` | app/controllers/errorhandlers.js:12 | on primitives, `===` holds exactly between equal values that are not NaN; it never holds for arrays or objects |
| `JsValues.Floor` | app/controllers/articles.controllers.js:13 | `Math.floor` gives the greatest integer not above the number, and keeps NaN as NaN |
| `Express.RunChain` | app/app.js:33-35 | the chain answers with the response of the first handler that answers; it answers nothing only when every handler defers |
| `Express.RunChainAppend` | app/app.js:33-35 | running a chain then another equals running their concatenation |
| `Store.RowAt` | app/controllers/articles.controllers.js:62 | `rows[i]` is the i-th row as an object inside the row set and `undefined` past its end |
| `ErrorHandlers.BadPathController` | app/controllers/errorhandlers.js:1-3 | any unmatched request gets 404 with message "invalid path" |
| `ErrorHandlers.CustomErrorController` | app/controllers/errorhandlers.js:5-9 | answers exactly when message and status are both truthy, with that status and `{message}`; otherwise defers |
| `ErrorHandlers.PsqlCondition` | app/controllers/errorhandlers.js:12 | the Postgres test is truthy for every error; for any code other than 22P02 it evaluates to the string "23503" |
| `ErrorHandlers.PsqlErrorController` | app/controllers/errorhandlers.js:11-15 | as written, answers every error with 400 "bad request" |
| `ErrorHandlers.PsqlErrorIntended` | app/controllers/errorhandlers.js:11-15 | as intended, answers 400 "bad request" exactly for codes 22P02 and 23503 and defers the rest |
| `ErrorHandlers.ServerErrorController` | app/controllers/errorhandlers.js:17-19 | always answers 500 with the fixed message "server error" |
| `App.ChainIsTotal` | app/app.js:33-35 | every error gets a response from the registered chain, and from the intended chain too |
| `App.DomainRejectionPassesThrough` | app/controllers/errorhandlers.js:5-9 | an error with truthy status and message leaves the chain with exactly that status and message |
| `App.OtherErrorsAreBadRequest` | app/controllers/errorhandlers.js:11-15 | every other error becomes 400 "bad request", whatever its code |
| `App.ServerErrorUnreachable` | app/controllers/errorhandlers.js:11-19 | no error reaches the third handler; a 500 comes out only for a domain rejection that itself carries status 500 |
| `App.OtherErrorsHideTheirMessage` | app/controllers/errorhandlers.js:11-19 | a non-domain error's response carries a fixed message, never the error's own text, under either chain |
| `App.IntendedChainClassifies` | app/controllers/errorhandlers.js:11-19 | with the intended handler, codes 22P02 and 23503 give 400 "bad request" and every other code gives 500 "server error" |
| `App.PsqlConditionMisclassifies` | app/controllers/errorhandlers.js:12 | a Postgres error with code 42P01 is answered 400 by the chain as written and 500 by the intended chain |
| `ArticlesModels.ArticleByIdQuery` | app/models/articles.models.js:4-6 | the lookup query renders to a constant text and binds the id as its only parameter `$1` |
| `ArticlesModels.GetArticleModel` | app/models/articles.models.js:3-7 | an empty row set resolves as an empty row set, not a rejection (unlike the user and comment models); rows and database errors pass through unchanged |
| `UsersModels.AllUsersQuery` | app/models/users.models.js:3-5 | the listing query is a constant text with no parameters |
| `UsersModels.UserByNameQuery` | app/models/users.models.js:9 | the lookup text is constant and the username is bound only as `$1` |
| `UsersModels.UserNotFound` | app/models/users.models.js:12-15 | the rejection has status 404 and a truthy message naming the username |
| `UsersModels.GetUserModel` | app/models/users.models.js:7-19 | no matching row rejects with the 404 naming the username; otherwise resolves with the first row; database errors pass through |
| `CommentsModels.DeleteCommentQuery` | app/models/comments.models.js:4-6 | the delete text is constant and the id is bound only as `$1` |
| `CommentsModels.CommentNotFound` | app/models/comments.models.js:8-11 | the rejection has status 404 and a truthy message naming the id |
| `CommentsModels.DeleteCommentModel` | app/models/comments.models.js:3-15 | an empty RETURNING set rejects with the 404 naming the id; a deleted row resolves with no value; database errors pass through |
| `ArticlesControllers.RejectsId` | app/controllers/articles.controllers.js:13 | the NaN-or-floor test rejects exactly the coerced ids that are not integers |
| `ArticlesControllers.HasTruthy` | app/controllers/articles.controllers.js:51 | the body passes the test exactly when it is an object whose key holds a truthy value |
| `ArticlesControllers.WithZeroCommentCount` | app/controllers/articles.controllers.js:88 | the new article has `comment_count` 0, gains no other key, and keeps every other field unchanged |
| `ArticlesControllers.GetArticleStep` | app/controllers/articles.controllers.js:11-17 | replies 400 "bad request: article id must be an integer" exactly when the id is not an integer; otherwise consults the model with the raw id |
| `ArticlesControllers.GetArticleResult` | app/controllers/articles.controllers.js:19-27 | no rows gives 404 "resource not found"; status 200 exactly when there are rows, with the first under `article`; a rejection is forwarded |
| `ArticlesControllers.GetArticleController` | app/controllers/articles.controllers.js:11-28 | a bad id gives the 400 whatever the model would do; a good id goes to the model |
| `ArticlesControllers.GetAllArticlesController` | app/controllers/articles.controllers.js:30-36 | sends the model's data unchanged with 200, or forwards its error |
| `ArticlesControllers.GetArticleCommentsController` | app/controllers/articles.controllers.js:38-48 | passes id, `limit` and `p` unvalidated; sends the model's data with 200, or forwards its error |
| `ArticlesControllers.PatchVotesStep` | app/controllers/articles.controllers.js:50-58 | replies 400 with the `inc_votes` message exactly when the body is not an object with a truthy `inc_votes` (so 0 is rejected); otherwise consults the model with id and `inc_votes` |
| `ArticlesControllers.PatchVotesResult` | app/controllers/articles.controllers.js:60-64 | success sends 200 with the first row under `updatedArticle`; a rejection is forwarded |
| `ArticlesControllers.PatchArticleVotesController` | app/controllers/articles.controllers.js:50-65 | a bad body gives the 400 whatever the model would do; a good one goes to the model |
| `ArticlesControllers.PostCommentStep` | app/controllers/articles.controllers.js:67-76 | replies 400 with the comment-shape message exactly when `username` or `body` is missing or falsy; otherwise consults the model with id, username and body |
| `ArticlesControllers.PostCommentResult` | app/controllers/articles.controllers.js:78-82 | success sends 201 with the first row under `postedComment`; a rejection is forwarded |
| `ArticlesControllers.PostCommentController` | app/controllers/articles.controllers.js:67-83 | a bad body gives the 400 whatever the model would do; a good one goes to the model |
| `ArticlesControllers.PostArticleResult` | app/controllers/articles.controllers.js:86-91 | a created row is sent with 201 under `newArticle` with `comment_count` 0; an empty row set forwards the thrown TypeError; a rejection is forwarded |
| `ArticlesControllers.PostArticleController` | app/controllers/articles.controllers.js:85-92 | no guard and no 400 of its own: any response it sends is 201; a rejection is forwarded; no row forwards the TypeError; a row is sent under `newArticle` with `comment_count` 0 |
| `ArticlesControllers.DeleteArticleController` | app/controllers/articles.controllers.js:94-100 | any resolution gives 204 with an empty body; a rejection is forwarded |
| `CommentsControllers.DeleteCommentController` | app/controllers/comments.controllers.js:3-11 | any resolution gives 204 with an empty body; a rejection is forwarded |
| `UsersControllers.RowsAsArray` | app/controllers/users.controllers.js:6 | the rows become a JSON array of the same length holding each row as an object, in order |
| `UsersControllers.GetAllUsersController` | app/controllers/users.controllers.js:3-9 | a resolution sends 200 with the rows under `users`; a rejection is forwarded |
| `App.GetArticleEndToEnd` | app/controllers/articles.controllers.js:11-28 | end to end: a non-integer id gives 400 for every database; a missing row gives 404; a found row gives 200 `{article}`; a database error gives 400 "bad request" |
| `App.DeleteCommentEndToEnd` | app/models/comments.models.js:3-15 | end to end: a deleted comment gives 204 with no body; a missing one gives 404 "no comment with an id of <id>" |
| `App.UnknownUserEndToEnd` | app/models/users.models.js:7-19 | once forwarded, the model's rejection for an unknown username is answered by the chain with 404 and its own message "no user with username of <username> found" |
| `App.ForwardedErrorServed` | app/app.js:33-35 | a forwarded error reaches the client as itself when it is a domain rejection, and as 400 "bad request" otherwise |
| `App.GetAllArticlesEndToEnd` | app/controllers/articles.controllers.js:30-36 | end to end: the model's data comes back with 200; a failure is answered by the chain, a domain rejection verbatim and anything else as 400 |
| `App.GetArticleCommentsEndToEnd` | app/controllers/articles.controllers.js:38-48 | end to end: the model's data comes back with 200; a failure is answered by the chain, a domain rejection verbatim and anything else as 400 |
| `App.DeleteArticleEndToEnd` | app/controllers/articles.controllers.js:94-100 | end to end: any resolution gives 204 with no body; a failure is answered by the chain, a domain rejection verbatim and anything else as 400 |
| `App.GetAllUsersEndToEnd` | app/models/users.models.js:3-5 | end to end: the constant listing query's rows come back under `users` with 200; a database error gives 400 "bad request" |
| `App.BadPathIgnoresRequest` | app/controllers/errorhandlers.js:1-3 | the unmatched-route response is the same for every request, and differs from the 404 of a missing article |
| `App.NotAFunction` | app/models/index.js:3-9 | calling an imported name that holds `undefined` throws an error with no status and a non-empty message |
| `App.UndefinedModelIsBadRequest` | app/models/index.js:3-9 | that error reaches the client as 400 "bad request" |
| `App.PostArticleWithoutRowIsBadRequest` | app/controllers/articles.controllers.js:85-92 | when the insert returns no row, the thrown TypeError reaches the client as 400 "bad request" |

## Findings

| source | as written | input that shows it | evidently intended | confidence | as-written member | corrected member |
|---|---|---|---|---|---|---|
| app/controllers/errorhandlers.js:12 | the condition ORs the comparison with 22P02 with the bare string literal "23503", which is always truthy, so every error that reaches the Postgres handler becomes 400 and the 500 handler is dead | a Postgres error with code 42P01 (undefined table) and no status | 400 "bad request" only for codes 22P02 and 23503, everything else deferred to 500 "server error" | high, not executed | `ErrorHandlers.PsqlErrorController` (with `App.PsqlConditionMisclassifies`) | `ErrorHandlers.PsqlErrorIntended` (with `App.IntendedChainClassifies`) |

The rest of the model uses the handler as written, because that is what the
application runs. `App.IntendedChain` is the chain with the corrected handler.
`App.ChainIsTotal`, `App.DomainRejectionPassesThrough` and
`App.OtherErrorsHideTheirMessage` are proved for both chains.

## Left out

- Routing: the Express route tables and routers (`app/app.js:20-31`, `app/routers/*.js`) are plumbing. Each controller takes the request its route delivers. The route guarantees the path parameter, so controllers require it.
- The database: `db/connection` is not part of this model, and neither is the SQL the database executes. The database is the abstract `Store.Db`. Vote arithmetic, cascades and foreign keys are enforced by Postgres, which is not modelled.
- Missing models: `getAllArticlesModel`, `getArticleCommentsModel`, `patchArticleVotesModel`, `postCommentModel`, `postArticleModel` and `deleteArticleModel` are imported but not defined in `app/models/articles.models.js`. The controllers take them as function parameters. Pagination, sort/order whitelisting, topic existence checks and total counts would live there, so they are not modelled.
- Wiring as it stands: `postArticleModel` and `deleteArticleModel` are not even re-exported by `app/models/index.js:3-9`, and `postArticleController` and `deleteArticleController` are neither exported by `app/controllers/index.js` nor mounted in `app/app.js:22-31`. So `ArticlesControllers.PostArticleController`, `ArticlesControllers.DeleteArticleController` and `App.PostArticleWithoutRowIsBadRequest` describe controllers that are not wired. The other imported article models are `undefined`, so their routes throw a TypeError that the chain answers with 400 (`App.UndefinedModelIsBadRequest`); the controller lemmas with a model parameter cover that case too. No mounted route calls `getUserModel`: `app/app.js:20-31` mounts only `GET /api/users`, the users router is never loaded, so `GET /api/users/:username` falls to the catch-all (`app/app.js:31`) and gets the invalid-path 404.
- Thin or I/O-only files: `app/models/api.models.js` and `app/controllers/api.controllers.js` only read a file. `app/controllers/topics.controllers.js` and `app/models/topics.models.js` are one-line pass-throughs. `app/controllers/index.js` and `app/models/index.js` only re-export. None of these is modelled.
- Missing controllers: `getUserController`, `patchCommentController` and `postTopicController` are referenced (`app/controllers/index.js:18,22`, `app/routers/topics.router.js:3`) but not defined by the controller files they are imported from. `landingPageController` is re-exported (`app/controllers/index.js:24,27`) and not modelled. Since the user-lookup route is not mounted, the user model is followed straight into the chain.
- Numeric coercion: JavaScript's `Number` and `isNaN` on strings are not modelled. `PathParam.asNumber` is the coerced number, NaN or a finite real. Infinities and negative zero are not modelled.
- Error values: only the `status`, `message` and `code` properties of an error object are kept. Rejections with a non-object value are not modelled.
- Status values: a response's status is the value passed to `res.status`. How Node reacts to a non-integer status coming from a custom error is not modelled.
- App.DomainRejectionPassesThrough: states that the custom handler hands the status to `res` verbatim, not what Node then does with it. A status that does not truncate to an integer from 100 to 999 (42, -1, 1000, a string) makes `res.status(...).send(...)` throw inside the custom handler. Express passes that throw to the next handler, so the chain as written answers 400 "bad request". With status 204 or 304 the `{message}` body is not sent. Neither case is modelled.
- JSON serialisation: not modelled. An envelope holding `undefined` (for example `rows[0]` of an empty row set) is kept as is, although serialisation would drop that key.
- Asynchrony: promises and `next` continuations are modelled as sequential function composition.
- TypeError wording: `ArticlesControllers.CommentCountTypeError` keeps the V8 wording of the TypeError message. Only its missing status and code matter to the chain.
