# Blog post controller and request saga, modelled in Dafny

This project models two pieces of a small blog application.

- The backend post controller (`blog-backend/src/api/posts/posts.ctrl.js`). It covers:
  - the listing pipeline behind `GET /api/posts?username=&tag=&page=`: page parsing with default 1, the 400 guard, the conjunctive filter, the newest-first window of 10, the `Last-Page` header and the body summaries;
  - the summary rule `removeHtmlAndShorten`;
  - the guard middleware `getPostById` and `checkOwnPost`;
  - the handlers `write`, `read`, `update` and `remove`.
- The frontend request-lifecycle wrapper (`blog-frontend/src/lib/createRequestSaga.js`). It covers `createRequestActionTypes` and the generator returned by `createRequestSaga`.

Files and modules:

- `wrappers.dfy` (`Wrappers`): `Option`.
- `js.dfy` (`Js`): the JavaScript semantics the controller depends on. That is string truthiness, `a || b`, and `parseInt(s, 10)` with NaN as `None`, including its white-space set, its sign and its longest run of digits.
- `post_model.dfy` (`PostModel`): the `Post` document and `PostStore`. `PostStore` is a class standing in for the Mongoose model. Its `posts` field is a sequence kept newest first, so ids strictly decrease along it. Queries are functions over that sequence. `save`, `findByIdAndUpdate` and `findByIdAndDelete` are methods that update it.
- `posts_ctrl.dfy` (`PostsCtrl`): the Koa context (a class whose `response` record holds status, body and the `Last-Page` header, plus `ctx.state.post` and `ctx.state.user`). Each handler is a method that updates the context step by step with the same early returns as the controller. The pure parts of `list` are functions.
- `posts_ctrl_lemmas.dfy` (`PostsCtrlLemmas`): what the listing and the update document promise.
- `create_request_saga.dfy` (`CreateRequestSaga`): the saga. Each run appends its yielded effects (`put` of an action, `call` of the request) to a log object. Lemmas cover the exact action sequence on each outcome.

Collaborators the controller does not define are parameters of the handlers:

- `sanitize-html` is a `Sanitizer` function of the HTML and the options record. The options record keeps the controller's own spelling of `allwoedAttributes` and `allwoedSchemes`.
- Joi is a `Validator` from schema and request body to an optional error. `write` relies only on `required()` keeping required keys present (`HonoursPresence`).
- `ObjectId.isValid` together with Mongoose's cast of the id is an `IdCast`.
- A storage call that raises is the flag `dbFault`.
- The clock that stamps a new post is the parameter `now`.

Behaviour of the code worth noting; the model follows it:

- An invalid id answers 400, not 404.
- Deleting an id no post has still answers 204.
- A failing request in the saga is not the only way to reach FAILURE. The `try` also covers reading `response.data` and the SUCCESS `put`. So a request that resolves to `undefined` or `null` puts FAILURE, with the TypeError as payload.

One exception is deliberate. A `page` with no digits parses to NaN, and the code's guard `page < 1` lets NaN through (see "## Findings"). That guard is modelled as written by `PostsCtrl.RejectsPageAsWritten`. `PostsCtrl.List` uses the corrected guard `PostsCtrl.RejectsPage`, which answers 400 for such a page.

## Model

| member | source | states |
|---|---|---|
| `PostsCtrl.RemoveHtmlAndShorten` | blog-backend/src/api/posts/posts.ctrl.js:106-111 | stripped text under 200 characters is returned unchanged; otherwise the result is 203 characters: the first 200 of the stripped text followed by "..." |
| `PostsCtrl.Summaries` | blog-backend/src/api/posts/posts.ctrl.js:141-146 | one item per fetched post, in fetched order; each item equals its post except `body`, which is `removeHtmlAndShorten(body)` |
| `PostsCtrlLemmas.ListedSummaries` | blog-backend/src/api/posts/posts.ctrl.js:141-146 | listed items keep id, title, tags, author and date of their post, and every listed body has at most 203 characters |
| `PostsCtrl.PageOf` | blog-backend/src/api/posts/posts.ctrl.js:119 | a truthy `page` parameter is parsed by `parseInt` as given; an absent or empty one gives page 1 |
| `PostsCtrl.RejectsPageAsWritten` | blog-backend/src/api/posts/posts.ctrl.js:121 | the guard `page < 1` as written: a number below 1 is rejected and NaN passes |
| `PostsCtrl.RejectsPage` | blog-backend/src/api/posts/posts.ctrl.js:121 | the corrected guard: it lets through exactly the numbers of at least 1, and agrees with the written guard on every number |
| `PostsCtrlLemmas.PageDefaultsToOne` | blog-backend/src/api/posts/posts.ctrl.js:119 | an absent or empty `page` parameter gives page 1 |
| `PostsCtrlLemmas.PageOfDecimal` | blog-backend/src/api/posts/posts.ctrl.js:119-124 | `page=n` (with any non-digit suffix) gives page n, and it is rejected exactly when n is 0 |
| `PostsCtrlLemmas.NegativePageRejected` | blog-backend/src/api/posts/posts.ctrl.js:119-124 | a negative page is rejected by both the written and the corrected guard |
| `PostsCtrlLemmas.AsWrittenGuardAdmitsNaN` | blog-backend/src/api/posts/posts.ctrl.js:119-124 | `page=abc` parses to NaN, which the written guard `page < 1` lets through and the corrected guard rejects |
| `PostsCtrlLemmas.RejectsPageOnlyAddsNaN` | blog-backend/src/api/posts/posts.ctrl.js:121-124 | the corrected guard agrees with the written one on every number, and what it lets through is a page of at least 1 |
| `PostsCtrl.BuildFilter` | blog-backend/src/api/posts/posts.ctrl.js:126-131 | the filter has a `user.username` clause exactly when `username` is truthy and a `tags` clause exactly when `tag` is truthy, each holding the given value |
| `PostsCtrlLemmas.EmptyFilterMatchesAll` | blog-backend/src/api/posts/posts.ctrl.js:126-134 | no username and no tag (absent or empty) give the empty filter, which matches every post in store order |
| `PostsCtrlLemmas.FilterConjunction` | blog-backend/src/api/posts/posts.ctrl.js:126-134 | with both clauses, the matches are the author's posts filtered again by tag: a post matches exactly when it satisfies both clauses |
| `PostsCtrl.PageItems` | blog-backend/src/api/posts/posts.ctrl.js:134-138 | at most 10 posts: exactly the matches at positions `(page-1)*10` onwards, as many as remain up to 10 |
| `PostsCtrlLemmas.ListedNewestFirst` | blog-backend/src/api/posts/posts.ctrl.js:134-138 | a page of a newest-first store is itself newest first (ids strictly decrease) |
| `PostsCtrlLemmas.PageEmptyIff` | blog-backend/src/api/posts/posts.ctrl.js:134-140 | a page is empty exactly when it is past `Last-Page`; such a page is an empty list, not an error |
| `PostsCtrlLemmas.PagesCoverMatches` | blog-backend/src/api/posts/posts.ctrl.js:134-140 | the posts `list` fetches for pages 1 to `Last-Page`, concatenated, are exactly the matching posts in order |
| `PostsCtrlLemmas.TwentyFiveMatches` | blog-backend/src/api/posts/posts.ctrl.js:134-140 | 25 matches give `Last-Page` 3, five posts on page 3 and none on page 4 |
| `PostsCtrl.LastPage` | blog-backend/src/api/posts/posts.ctrl.js:139-140 | `Math.ceil(count / 10)`: the least r with count <= 10r (0 for no match) |
| `PostsCtrl.List` | blog-backend/src/api/posts/posts.ctrl.js:116-150 | a rejected page sets 400 and touches nothing else (no header, no body); a storage fault answers 500; otherwise `Last-Page` is the page count of all matches, whatever the page, and the body is the summaries of that page's posts |
| `PostsCtrl.WithBody` | blog-backend/src/api/posts/posts.ctrl.js:99 | assigning `ctx.body` keeps an explicitly set status and otherwise answers 200 (204 for an empty body) |
| `PostsCtrl.WithStatus` | blog-backend/src/api/posts/posts.ctrl.js:166 | `ctx.status = code` sets that status and marks it explicit; a body already set is dropped when the code is 204, 205 or 304 and stays otherwise; `Last-Page` stays |
| `PostsCtrl.WithLastPage` | blog-backend/src/api/posts/posts.ctrl.js:140 | `ctx.set('Last-Page', n)` sets the header to n and changes nothing else |
| `PostsCtrl.Thrown` | blog-backend/src/api/posts/posts.ctrl.js:148 | `ctx.throw(code, e)` answers that status with an error body, whatever was set before, and Koa's error handler drops every header set so far, `Last-Page` included |
| `PostsCtrl.GetPostById` | blog-backend/src/api/posts/posts.ctrl.js:34-52 | an invalid id sets 400, a storage fault 500, a missing post 404; otherwise the post is stored in `ctx.state.post` and `next` is called; no other case calls `next` |
| `PostsCtrl.CheckOwnPost` | blog-backend/src/api/posts/posts.ctrl.js:54-61 | `next` is called exactly when the author's id equals the user's id; a differing owner sets 403; a missing post, author or user makes the access throw (500) |
| `PostsCtrl.Write` | blog-backend/src/api/posts/posts.ctrl.js:71-103 | a validation error sets 400 with the error as body and leaves the store alone; a storage fault answers 500; otherwise the new post (sanitised body, given title and tags, the logged-in user) is stored as the newest one and answered |
| `PostsCtrl.Read` | blog-backend/src/api/posts/posts.ctrl.js:155-157 | the body becomes `ctx.state.post` |
| `PostsCtrl.Remove` | blog-backend/src/api/posts/posts.ctrl.js:162-170 | the post with that id is removed (if any) and 204 is answered; an uncastable id or a storage fault answers 500 and leaves the store alone |
| `PostsCtrl.NextData` | blog-backend/src/api/posts/posts.ctrl.js:196-201 | the update document copies title and tags, and replaces the body by its sanitised form exactly when a truthy body is supplied |
| `PostsCtrlLemmas.UpdatedPost` | blog-backend/src/api/posts/posts.ctrl.js:196-207 | the updated post keeps id, author and date, takes supplied fields (a truthy body sanitised) and keeps the others |
| `PostsCtrl.Update` | blog-backend/src/api/posts/posts.ctrl.js:180-216 | a validation error sets 400 with the error as body; an uncastable id or a storage fault answers 500; no post with that id sets 404 and leaves the store unchanged; otherwise the store holds the updated post and answers it |
| `PostModel.Satisfies` | blog-backend/src/api/posts/posts.ctrl.js:127-134 | MongoDB matching of the query document: the empty filter matches every post; a post fails when its author's name differs from a `user.username` clause or its tags lack a `tags` clause's value; a post passing every present clause matches |
| `PostModel.Matches` | blog-backend/src/api/posts/posts.ctrl.js:134 | the stored posts that satisfy the filter, and no others |
| `PostModel.CountDocuments` | blog-backend/src/api/posts/posts.ctrl.js:139 | the number of matching posts: at most the store's size, and 0 exactly when no stored post satisfies the filter |
| `PostModel.Find` | blog-backend/src/api/posts/posts.ctrl.js:134-138 | the matches from position `skip` on, in store order, as many as remain up to `limit`; empty once `skip` reaches the count |
| `PostModel.ReplaceById` | blog-backend/src/api/posts/posts.ctrl.js:204-207 | same length; the post with that id is replaced by its `$set` update and every other post stays in place |
| `PostModel.RemoveById` | blog-backend/src/api/posts/posts.ctrl.js:165 | no post with that id is left, and every post with another id stays |
| `PostModel.FindById` | blog-backend/src/api/posts/posts.ctrl.js:41-46 | answers a stored post with that id, or nothing exactly when no stored post has it |
| `PostModel.Window` | blog-backend/src/api/posts/posts.ctrl.js:136-137 | skip/limit: at most `limit` consecutive posts from position `skip`, empty past the end |
| `PostModel.WhereDescending` | blog-backend/src/api/posts/posts.ctrl.js:134-135 | filtering a newest-first sequence keeps it newest first |
| `PostModel.PostStore.Save` | blog-backend/src/api/posts/posts.ctrl.js:90-98 | the saved post gets the next id and becomes the newest post; the store stays newest first |
| `PostModel.ApplyUpdate` | blog-backend/src/api/posts/posts.ctrl.js:204-207 | `$set` of the supplied fields; id, author and date are kept |
| `PostModel.FindByIdAfterReplace` | blog-backend/src/api/posts/posts.ctrl.js:204-207 | with `new: true` the update answers the updated document, or nothing when no post has the id |
| `PostModel.ReplaceByIdKeepsIds` | blog-backend/src/api/posts/posts.ctrl.js:204-207 | an update keeps every id in place, so the store stays newest first and below its next id |
| `PostModel.ReplaceByIdAbsent` | blog-backend/src/api/posts/posts.ctrl.js:204-211 | an update of an id no post has leaves the store unchanged |
| `PostModel.PostStore.FindByIdAndUpdate` | blog-backend/src/api/posts/posts.ctrl.js:204-207 | the store has the post with that id updated, the others untouched and the order kept |
| `PostModel.PostStore.FindByIdAndDelete` | blog-backend/src/api/posts/posts.ctrl.js:165 | the store loses exactly the post with that id and stays newest first |
| `PostModel.RemoveByIdKeepsOrder` | blog-backend/src/api/posts/posts.ctrl.js:165 | after removal exactly the posts with other ids remain, newest first |
| `Js.Truthy` | blog-backend/src/api/posts/posts.ctrl.js:128-129 | a query-string value is falsy exactly when it is absent or the empty string |
| `Js.Or` | blog-backend/src/api/posts/posts.ctrl.js:119 | `v \|\| fallback` is `v` when `v` is truthy and the fallback otherwise, and it is non-empty exactly when one of them is truthy |
| `Js.ParseInt` | blog-backend/src/api/posts/posts.ctrl.js:119 | `parseInt(s, 10)` as ECMAScript defines it; it has no contract of its own, and `Js.ParseIntNaN`, `Js.ParseIntOfDecimal`, `Js.ParseIntOfNegative`, `Js.TrimStart` and `Js.LeadingDigits` state what it computes |
| `Js.ParseIntOfDecimal` | blog-backend/src/api/posts/posts.ctrl.js:119 | `parseInt` reads back the decimal rendering of n, whatever non-digit text follows |
| `Js.ParseIntOfNegative` | blog-backend/src/api/posts/posts.ctrl.js:119 | `parseInt("-" + n + rest)` is -n |
| `Js.ParseIntNaN` | blog-backend/src/api/posts/posts.ctrl.js:119 | `parseInt` is NaN exactly when no digit follows the leading white space and sign |
| `Js.TrimStart` | blog-backend/src/api/posts/posts.ctrl.js:119 | `parseInt` first drops exactly the leading white space |
| `Js.LeadingDigits` | blog-backend/src/api/posts/posts.ctrl.js:119 | `parseInt` reads the longest prefix of digits |
| `CreateRequestSaga.CreateRequestActionTypes` | blog-frontend/src/lib/createRequestSaga.js:4-8 | exactly `[type, type + "_SUCCESS", type + "_FAILURE"]`, pairwise distinct |
| `CreateRequestSaga.CreateRequestSaga` | blog-frontend/src/lib/createRequestSaga.js:10-12 | the saga's SUCCESS and FAILURE names are the ones `createRequestActionTypes` derives |
| `CreateRequestSaga.Settled` | blog-frontend/src/lib/createRequestSaga.js:16-30 | SUCCESS exactly when the request resolved to a response, with its data as payload and the response as meta; otherwise FAILURE with `error: true`, carrying the rejection or the TypeError of reading `.data` of nothing |
| `CreateRequestSaga.Trace` | blog-frontend/src/lib/createRequestSaga.js:15-31 | four effects: `put` start, `call` of the request with the payload, `put` of the settled action, `put` finish |
| `CreateRequestSaga.EffectLog.Yield` | blog-frontend/src/lib/createRequestSaga.js:15-31 | each `yield` appends its effect to the effects yielded so far |
| `CreateRequestSaga.ActionsAppend` | blog-frontend/src/lib/createRequestSaga.js:15-31 | the actions put by consecutive runs of effects are the actions of each, in order |
| `CreateRequestSaga.Run` | blog-frontend/src/lib/createRequestSaga.js:14-32 | a run appends exactly the effects of the generator to the log, and nothing escapes it |
| `CreateRequestSaga.ActionsOfTrace` | blog-frontend/src/lib/createRequestSaga.js:15-31 | a run puts `startLoading(type)`, the settled action and `finishLoading(type)`, in that order |
| `CreateRequestSaga.StartBeforeCall` | blog-frontend/src/lib/createRequestSaga.js:15-17 | `startLoading(type)` is put before the request is called; the request is called once, with the action's payload |
| `CreateRequestSaga.SuccessActions` | blog-frontend/src/lib/createRequestSaga.js:15-23 | when the request resolves to a response the actions are exactly start, `{SUCCESS, payload: response.data, meta: response}`, finish |
| `CreateRequestSaga.FailureActions` | blog-frontend/src/lib/createRequestSaga.js:24-31 | on rejection with e the actions are exactly start, `{FAILURE, payload: e, error: true}`, finish |
| `CreateRequestSaga.ResolvedToNothingFails` | blog-frontend/src/lib/createRequestSaga.js:16-31 | a request resolving to `undefined` or `null` throws on `response.data` inside the `try`, so the actions are start, FAILURE with that TypeError, finish |
| `CreateRequestSaga.SettlesOnceThenFinishes` | blog-frontend/src/lib/createRequestSaga.js:17-31 | exactly one SUCCESS-or-FAILURE action; it is SUCCESS exactly when the request resolved to a response; `finishLoading(type)` is put once, last |

## Findings

| source | as written | input that shows it | evidently intended | confidence | as-written member | corrected member |
|---|---|---|---|---|---|---|
| blog-backend/src/api/posts/posts.ctrl.js:119-124 | `parseInt` answers NaN for a page with no digits and `NaN < 1` is false, so the 400 guard lets it through to the store query with a skip of NaN | `GET /api/posts?page=abc` | a page that is not a number of at least 1 is a bad request (400) | not executed; high that the guard admits it, what the driver then does with skip NaN is not modelled | `PostsCtrlLemmas.AsWrittenGuardAdmitsNaN` (guard `PostsCtrl.RejectsPageAsWritten`) | `PostsCtrlLemmas.RejectsPageOnlyAddsNaN` (guard `PostsCtrl.RejectsPage`, used by `PostsCtrl.List`) |

## Left out

- `sanitize-html` internals: the sanitiser is an uninterpreted parameter. Neither tag removal, `<script>` removal, idempotence nor attribute filtering is claimed. The controller's option keys `allwoedAttributes` and `allwoedSchemes` are misspelled, so the library most likely ignores them; the model keeps them as spelled and draws nothing from them.
- Joi internals: validation is an uninterpreted parameter. `write` assumes only that an accepted body has every `required()` key (`HonoursPresence`). The detail of the error object is abstract.
- ObjectId format checking and Mongoose's cast are one uninterpreted `IdCast`. An id it rejects makes `update` and `remove` throw, as Mongoose's CastError does.
- Mongoose persistence and connections. Any raising storage call is the single flag `dbFault`, answered as Koa answers `ctx.throw(500, e)`: status 500 with an error body. The error object and logging are not modelled.
- In `list`, the find and the count are read from the same store state; the possible inconsistency between the two separate queries is not modelled.
- New posts get an id above every stored id, standing for ObjectIds growing with time. The publish date is the parameter `now`.
- `next()` is modelled as the boolean a guard returns. What downstream middleware does, how Koa answers its failures, and the router that chains these handlers are not part of this model.
- `PostsCtrl.List`: uses the corrected page guard, so a non-numeric page answers 400 where the code as written would query the store with skip NaN (see "## Findings").
- Numbers are unbounded integers. `parseInt`'s rounding of values beyond 2^53 and the floating-point division in `Math.ceil` are not modelled; below 2^53 they are exact.
- String lengths and `slice` count characters. JavaScript counts UTF-16 code units, which differ only outside the Basic Multilingual Plane.
- A query parameter given twice (an array in `ctx.query`) is not modelled; every parameter is a string or absent.
- A resolved value is a response or nothing (`undefined`/`null`). A primitive, whose `.data` reads as `undefined` without throwing, is not modelled.
- An exception raised while the SUCCESS action is dispatched (a throwing reducer) would also land in the `catch`. The model does not let a `put` fail.
- The redux-saga scheduler: `put` appends to the log, `call` answers a given outcome. Interleavings of concurrent runs and the loading reducer (`modules/loading`, which is not part of this model) are left out.
- Frontend UI and bootstrapping (`Editor.js`, `RegisterForm.js`, `PostViewer.js`, `index.js`): React rendering, refs, navigation and `localStorage`, not logic of the core.
