# Board forum backend: routes, session trails and authentication

This project models the logic of a small Express forum backend. The backend has boards, comments under boards, and users who sign up and log in with a signed token. The model covers:

- **Session trails.** `req.session.boardPath` holds the titles of visited boards. It is updated in place with `push` and then `shift`, and it keeps at most 10 titles, dropping the oldest first. `req.session.urlHistory` holds every requested URL, with no cap. Each trail is a class with an `Option<seq<…>>` field, where `None` means the session property is absent. Each class has a method that reassigns the field.
- **Board and comment handlers.** The database is an in-memory map from document id to document. Each handler is a function from the old store to the new store and what the handler does. Comment listing filters on `{ board }`. Comment update and delete filter on `{ board, _id }`. The model also states each handler's status code: 200, 201 or 204.
- **The application's middleware.** This covers the URL-history middleware, the catch-all that forwards a 404 error, and the terminal error handler. The error handler maps an error and the environment name to a status (`err.status || 500`) and a body `{ message, error }`.
- **The users router.** This covers signup (201 or 400), login (201, a token lasting 259200 seconds and an `authToken` cookie whose max-age is that lifetime in milliseconds) and logout (204 and a cleared cookie). It also covers `authenticate`: how it chooses the token, how it sets `req.user`, and the calls it makes to the continuation.

Modules: `Http` holds the shared value types: errors, replies, cookies, handler outcomes and calls of `next`. `BoardRouter` models `routes/board.js`, `App` models `app.js` and `UsersRouter` models `routes/users.js`.

Calls into code outside these files become parameters:

- The database assigns fresh ids. Each create takes that id as a parameter and requires it to be unused.
- `User.signUp` and `User.login` are awaited. Their settlement is a `Result` parameter.
- `createToken` and `verifyToken` sign and check tokens with a key and a clock. They are function-typed parameters. Their types make them total, so the model assumes that neither throws, and that `verifyToken` reports a failed verification as a falsy (`None`) result.
- `Date.now()` in logout is a parameter.

Two facts about the code shape the model:

- `GET /board/:boardId` on a missing board throws a TypeError, because `board.title` is read without a null check (routes/board.js:71, 76, 81). It is never answered with null. The throw happens before the session is touched. `BoardRouter.FetchBoard` models this as `Rejected`, with the trail unchanged.
- `authenticate` is defined but never exported or installed (routes/users.js:58-74). The model gives its behaviour as if a route ran it.

## Model

| member | source | states |
|---|---|---|
| `BoardRouter.SessionBoardPath.Visit` | routes/board.js:75-82 | The trail becomes the last 10 of the old titles followed by the visited title, and stays within the cap. An absent trail becomes exactly `[title]`. |
| `BoardRouter.VisitEndsWithTitle` | routes/board.js:76-81 | After a visit the trail is non-empty, holds at most 10 titles, and ends with the visited title. |
| `BoardRouter.VisitBelowCapKeepsAll` | routes/board.js:76-77 | With fewer than 10 titles, a visit only appends; nothing is evicted. |
| `BoardRouter.VisitAtCapEvictsOldest` | routes/board.js:76-78 | When the push makes 11 titles, exactly the oldest is removed and the others keep their order. |
| `BoardRouter.MostRecentAbsorbs` | routes/board.js:75-82 | Trimming the trail before a visit gives the same trail after it as not trimming. |
| `BoardRouter.ReplayKeepsMostRecent` | routes/board.js:75-82 | From an absent trail, any sequence of visits leaves exactly the last 10 titles in visit order. |
| `BoardRouter.VisitAll` | routes/board.js:75-82 | A fresh session that visits the titles in turn, one `Visit` each, holds exactly `Replay` of them, so the lemmas about `Replay` hold of the class. |
| `BoardRouter.ElevenVisitsDropFirst` | routes/board.js:75-82 | Visiting t1..t11 from an absent trail leaves exactly t2..t11. |
| `BoardRouter.ListBoards` | routes/board.js:28-49 | Listing boards answers 200 with every stored board. |
| `BoardRouter.CreateBoard` | routes/board.js:51-66 | Creating a board adds exactly the new id, leaves the other boards unchanged, and answers 200 with the stored board. |
| `BoardRouter.FetchBoard` | routes/board.js:68-99 | An existing board is answered with 200 and its title is recorded in the trail. A missing board throws and leaves the trail unchanged. |
| `BoardRouter.UpdateBoard` | routes/board.js:106-122 | Updating keeps the key set and changes only the target board, replacing its title and content. It answers 200 with the updated board, or with null when the id is unknown. |
| `BoardRouter.DeleteBoard` | routes/board.js:124-129 | Deleting removes only that id and always answers 204 with no body. |
| `BoardRouter.CreateThenFind` | routes/board.js:60-71 | A created board is found again with the same title and content. |
| `BoardRouter.UpdateThenFind` | routes/board.js:111-120 | After an update, a lookup returns the new title and content (last write wins). |
| `BoardRouter.DeleteThenFind` | routes/board.js:124-128 | After a delete, the board is not found, so a later fetch throws. |
| `BoardRouter.ListComments` | routes/board.js:152-156 | Listing answers 200 with exactly the comments whose board is the given board id, unchanged. |
| `BoardRouter.CreateComment` | routes/board.js:159-167 | A truthy content is stored under the fresh id and the board id, with answer 201. A missing or empty content fails the schema's `required` check and changes nothing. |
| `BoardRouter.UpdateComment` | routes/board.js:170-181 | Only a comment matching both the board id and the comment id gets the new content. The answer is 200 with the document as it was before the update, or null when nothing matched. |
| `BoardRouter.DeleteComment` | routes/board.js:184-195 | Only a comment matching both ids is removed. The answer is always 204 with no body. |
| `BoardRouter.CreatedCommentListedOnlyUnderItsBoard` | routes/board.js:152-167 | A created comment is listed under its own board and not under any other board. The other boards' listings are unchanged. |
| `BoardRouter.UpdateIsScoped` | routes/board.js:173-179 | An update changes at most one comment, and only one that matches both ids. A same-id comment under another board is unchanged, and no comment moves to another board. |
| `BoardRouter.DeleteIsScoped` | routes/board.js:187-193 | A delete removes at most one comment, and only one that matches both ids. Every remaining comment is unchanged. |
| `App.SessionUrlHistory.Record` | app.js:59-70 | The request URL is appended after the unchanged earlier entries; an absent history becomes `[url]`. The history grows by exactly one. The continuation is called exactly once, with no error. |
| `App.HistoryKeepsEveryUrl` | app.js:61-65 | After any sequence of requests the history is the old history followed by every URL in order; nothing is ever dropped. |
| `App.RecordAll` | app.js:59-70 | A session that handles the requests in turn, one `Record` each, holds exactly `HistoryAfter` of them, so `HistoryKeepsEveryUrl` holds of the class. |
| `App.CatchAll` | app.js:78-80 | A request that no router answers is forwarded as one error with status 404. |
| `App.ErrorStatus` | app.js:89 | The status is never 0. It is `err.status` when that is truthy, and 500 when it is missing or 0. |
| `App.ErrorResponse` | app.js:83-92 | The body always carries `err.message`. Its `error` field is the error object exactly when the environment is "development", and `{}` otherwise. |
| `App.UnmatchedRequestAnswers404` | app.js:78-92 | In every environment, an unmatched request ends in a 404 response whose message is "Not Found". |
| `App.FinalStatus` | app.js:83-92 | A handler's own reply keeps its status. A forwarded error gets the error handler's status, whatever status the handler set before forwarding. |
| `UsersRouter.ForwardFailure` | routes/users.js:17-21 | A failing handler sets status 400 and forwards the same error. |
| `UsersRouter.Signup` | routes/users.js:11-22 | Signup answers 201 with the user when `User.signUp` succeeds. When it fails, signup sets 400 and forwards the error. |
| `UsersRouter.Login` | routes/users.js:24-42 | On success: a token signed for 259200 seconds goes on the user and in an http-only `authToken` cookie with max-age 259200000 ms, and the answer is 201. On failure: 400 and the error is forwarded. |
| `UsersRouter.Logout` | routes/users.js:44-56 | Logout always answers 204 with no body. It sets `authToken` to "" with an expiry of the current time. |
| `UsersRouter.LoginCookieMatchesToken` | routes/users.js:28-35 | The cookie's max-age is exactly 1000 times the token lifetime of 60·60·24·3 = 259200 seconds. The cookie and the answered user carry the same token. |
| `UsersRouter.Split` | routes/users.js:62 | `split(" ")` gives at least one part, no part contains the separator, and joining the parts gives back the input. |
| `UsersRouter.SplitJoin` | routes/users.js:62 | Splitting undoes joining parts that contain no separator. |
| `UsersRouter.SplitWithoutSep` | routes/users.js:62 | A string without the separator splits into itself alone. |
| `UsersRouter.SecondField` | routes/users.js:62 | The field taken from the header never contains a space. |
| `UsersRouter.BearerField` | routes/users.js:62 | The second field of `scheme + " " + token` is the token, when neither contains a space. |
| `UsersRouter.SelectToken` | routes/users.js:59-63 | A truthy cookie token is used. Otherwise a truthy header gives its second field. Otherwise the falsy cookie value is verified. |
| `UsersRouter.CookieTokenWins` | routes/users.js:59-63 | When the cookie token is truthy, the headers make no difference to the chosen token. |
| `UsersRouter.BearerHeaderYieldsToken` | routes/users.js:60-62 | With no cookie, a `Bearer <token>` value under the header key that is read yields exactly the token. |
| `UsersRouter.AuthRequest.Authenticate` | routes/users.js:58-72 | `req.user` is set to the verification result whether or not it succeeded. On success `next()` is called once. On failure `next` is called with the 403 error and then again with no error, so the last call always proceeds. |
| `UsersRouter.AuthRequest.AuthenticateIntended` | routes/users.js:58-72 | The corrected middleware calls the continuation exactly once. That call carries the 403 error exactly when verification failed. |
| `UsersRouter.StandardHeaderIgnored` | routes/users.js:60 | With no cookie, a request whose only header is a standard `authorization: Bearer <token>` gets no token. |
| `UsersRouter.StandardHeaderAccepted` | routes/users.js:60 | Reading the standard header name, the same request gets its bearer token. |
| `UsersRouter.RejectedSignupAnswers500` | routes/users.js:19-20 | A signup failure whose error has no status sets 400, but the client receives 500. |
| `UsersRouter.ForwardFailureIntended` | routes/users.js:19-20 | The corrected failure path sets 400 and forwards the same error with its own status set to 400. |
| `UsersRouter.IntendedRejectionAnswers400` | routes/users.js:19-20 | With the corrected failure path, every failure reaches the client as 400. |

## Left out

- The database itself: connection, query semantics beyond the filters the routes pass, `_id` casting (a malformed id makes mongoose throw a CastError), generated ids and timestamps in the answered documents, the order of listed documents, and the Board and User schemas' validation, which are not part of this model.
- `BoardRouter.UpdateBoard` and `BoardRouter.UpdateComment`: an `undefined` title or content in the request body is not modelled; the fields are taken as given strings.
- `BoardRouter.DeleteComment`: the `{ content }` the route passes as the second argument of `findOneAndDelete` is an options argument and has no effect here.
- `BoardRouter.FetchBoard` and `BoardRouter.CreateComment`: a rejected async handler is only recorded as `Rejected`. What Express then does with the rejected promise depends on its version and is not modelled, so `App.FinalStatus` gives no status for it.
- `UsersRouter.Login`: `createToken` is assumed not to throw. The 201 body is assumed to carry the token set by `user.token = token`. A Mongoose document whose User schema has no `token` path would leave it out of its JSON, and the User model is not part of this model.
- `UsersRouter.AuthRequest.Authenticate`: `verifyToken` is assumed to return a falsy result on a bad or missing token. If it throws instead, the async `authenticate` rejects at routes/users.js:64 and calls `next` zero times. That path is not modelled.
- `App.ErrorResponse`: the `error` field holds the error object as the handler puts it in `res.locals`. How `res.json` serialises it is not modelled. `JSON.stringify` drops an Error's non-enumerable `message` and `stack`, so the client sees only its enumerable properties, such as `status`.
- `App.ErrorStatus`: `err.status` may be any integer. Node.js rejects status codes outside 100..999 when it writes the response, and that check is not modelled.
- `UsersRouter.SelectToken`: the headers map holds header names as Node.js presents them, already lower-cased. That normalisation is not modelled.
- `User.signUp`, `User.login`, password hashing, and the signing and checking of tokens are not part of this model (the User model and the auth utilities are not part of this model).
- The test cookies set by `GET /board`, the logging middleware, `console.log`, cookie parsing, session persistence, static files, the index and birds routers, and environment configuration.
- Express routing and middleware ordering, and asynchrony: handlers are treated as running one after the other. The two session trails are separate classes, although both live in the same session object.
- The trail cap is a class invariant: a trail is only ever built by visits, so it never holds more than 10 titles.

## Findings

| source | as written | input that shows it | evidently intended | confidence | as-written member | corrected member |
|---|---|---|---|---|---|---|
| routes/users.js:60 | the header token is read from `req.headers.authroization` (misspelled) | no `authToken` cookie, header `Authorization: Bearer abc` (Node.js presents it as `authorization`) | read `req.headers.authorization`, so the bearer token `abc` is verified | not executed; high | `UsersRouter.StandardHeaderIgnored` | `UsersRouter.StandardHeaderAccepted` |
| routes/users.js:66-71 | after `next(error)` there is no `return`, so `next()` runs too | any request whose token `verifyToken` rejects | call only `next(error)` with the 403 error | not executed; high | `UsersRouter.AuthRequest.Authenticate` | `UsersRouter.AuthRequest.AuthenticateIntended` |
| routes/users.js:19-20 | `res.status(400)` is set before `next(err)`, and the error handler then sets `err.status`, or 500 when that is missing (app.js:89) | `User.signUp` rejects with an error that has no `status` property | the client receives 400 | not executed; medium (the User model's errors are not part of this model) | `UsersRouter.RejectedSignupAnswers500` | `UsersRouter.IntendedRejectionAnswers400` |
