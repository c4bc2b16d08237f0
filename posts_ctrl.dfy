/** The post controller: the Koa middleware and handlers behind `/api/posts`.
    Each handler is a method that updates the request context step by step, as
    the controller does; the listing pipeline (page parsing, filter, window,
    `Last-Page`, summaries) is made of the functions it calls, and the lemmas
    below state what the listing promises.

    Foreign collaborators are parameters: `sanitize-html` is a `Sanitizer`, Joi
    is a `Validator`, the ObjectId check and cast is an `IdCast`, and a storage
    call that raises is `dbFault`. */
module PostsCtrl {
  import opened Wrappers
  import opened Js
  import opened PostModel

  // ---------------------------------------------------------------------------
  // Collaborators

  /** The options record handed to `sanitize-html`. The two attribute keys are
      spelled as the controller spells them; the library reads neither. */
  datatype SanitizeOptions = SanitizeOptions(
    allowedTags: seq<string>,
    allwoedAttributes: Option<map<string, seq<string>>>,
    allwoedSchemes: Option<seq<string>>)

  /** The options used before storing a body. */
  const sanitizeOption := SanitizeOptions(
    ["h1", "h2", "b", "i", "u", "s", "p", "ul", "ol", "li", "blockquote", "a", "img"],
    Some(map["a" := ["href", "name", "target"], "img" := ["src"], "li" := ["class"]]),
    Some(["data", "http"]))

  /** The options used for list summaries: no tag is allowed. */
  const stripAllOption := SanitizeOptions([], None, None)

  /** `sanitizeHtml(html, options)`, left uninterpreted. */
  type Sanitizer = (string, SanitizeOptions) -> string

  datatype Presence = Required | Optional

  /** A Joi object schema over the three keys of a post. */
  datatype Schema = Schema(title: Presence, body: Presence, tags: Presence)

  /** `write`: title, body and tags are all `required()`. */
  const writeSchema := Schema(Required, Required, Required)

  /** `update`: every key may be left out. */
  const updateSchema := Schema(Optional, Optional, Optional)

  /** The error object Joi reports; its detail stays abstract. */
  datatype ValidationError = ValidationError(details: string)

  /** `schema.validate(value).error`, left uninterpreted. */
  type Validator = (Schema, PostFields) -> Option<ValidationError>

  predicate Present<T>(rule: Presence, v: Option<T>)
  {
    rule.Required? ==> v.Some?
  }

  /** What `required()` guarantees: a value Joi accepts has every required key. */
  ghost predicate HonoursPresence(joi: Validator)
  {
    forall s, d :: joi(s, d).None? ==>
      Present(s.title, d.title) && Present(s.body, d.body) && Present(s.tags, d.tags)
  }

  /** `ObjectId.isValid(id)` together with Mongoose's cast of the id string:
      `None` for an id that is not a valid ObjectId. */
  type IdCast = string -> Option<PostId>

  // ---------------------------------------------------------------------------
  // The Koa context

  /** What the handler leaves on `ctx.body`. */
  datatype Body =
    | NoBody
    | PostJson(post: Post)
    | PostList(items: seq<Post>)
    | ErrorJson(error: ValidationError)
    | ServerError

  /** The response under construction: status (and whether it was set
      explicitly), body and the `Last-Page` header. */
  datatype Response = Response(status: int, explicitStatus: bool, body: Body, lastPage: Option<int>)

  /** Koa starts every response at 404 with no body. */
  const initialResponse := Response(404, false, NoBody, None)

  /** `ctx.status = code`: the status is set explicitly, and a body already set
      is dropped when the code is one Koa sends without a body. */
  function WithStatus(r: Response, code: int): (r': Response)
    ensures r'.status == code && r'.explicitStatus && r'.lastPage == r.lastPage
    ensures IsEmptyStatus(code) ==> r'.body == NoBody
    ensures !IsEmptyStatus(code) ==> r'.body == r.body
  {
    r.(status := code, explicitStatus := true, body := if IsEmptyStatus(code) then NoBody else r.body)
  }

  /** The statuses Koa sends without a body. */
  predicate IsEmptyStatus(code: int)
  {
    code == 204 || code == 205 || code == 304
  }

  /** `ctx.body = b`: Koa answers 200 unless a status was set explicitly; an empty
      body turns the status into 204 unless it already is an empty-body status. */
  function WithBody(r: Response, b: Body): (r': Response)
    ensures r'.body == b && r'.lastPage == r.lastPage
    ensures !b.NoBody? ==> r'.status == (if r.explicitStatus then r.status else 200)
    ensures b.NoBody? ==> r'.status == (if IsEmptyStatus(r.status) then r.status else 204)
  {
    if b.NoBody? && IsEmptyStatus(r.status) then r.(body := b)
    else if b.NoBody? then Response(204, true, b, r.lastPage)
    else if r.explicitStatus then r.(body := b)
    else Response(200, true, b, r.lastPage)
  }

  /** `ctx.set('Last-Page', n)`: only the header changes. */
  function WithLastPage(r: Response, n: int): (r': Response)
    ensures r'.lastPage == Some(n)
    ensures r'.status == r.status && r'.explicitStatus == r.explicitStatus && r'.body == r.body
  {
    r.(lastPage := Some(n))
  }

  /** `ctx.throw(code, e)`, or an exception escaping the handler, as Koa's error
      handler answers it: the given status and an error body, whatever status
      and body were set before; the error handler removes every header set so
      far, `Last-Page` included. */
  function Thrown(r: Response, code: int): (r': Response)
    ensures r'.status == code && r'.explicitStatus && r'.body == ServerError
    ensures r'.lastPage == None
  {
    Response(code, true, ServerError, None)
  }

  class Context {
    var response: Response
    /** `ctx.state.post`, set by `getPostById`. */
    var statePost: Option<Post>
    /** `ctx.state.user`, set by the login middleware before these handlers. */
    const stateUser: Option<User>

    constructor (user: Option<User>)
      ensures response == initialResponse && statePost == None && stateUser == user
    {
      response := initialResponse;
      statePost := None;
      stateUser := user;
    }
  }

  // ---------------------------------------------------------------------------
  // Summaries

  const SummaryLength := 200

  /** `removeHtmlAndShorten`: strip every tag, then keep the text when it is
      shorter than 200 characters, else cut it to 200 and append "...". */
  function RemoveHtmlAndShorten(sanitize: Sanitizer, body: string): (r: string)
    ensures var filtered := sanitize(body, stripAllOption);
      (|filtered| < SummaryLength ==> r == filtered) &&
      (|filtered| >= SummaryLength ==>
         |r| == SummaryLength + 3 && r[..SummaryLength] == filtered[..SummaryLength] &&
         r[SummaryLength..] == "...")
  {
    var filtered := sanitize(body, stripAllOption);
    if |filtered| < SummaryLength then filtered else filtered[..SummaryLength] + "..."
  }

  /** Two posts that agree on every field except possibly `body`. */
  predicate SameButBody(a: Post, b: Post)
  {
    a.(body := "") == b.(body := "")
  }

  /** The `.map(post => ({ ...post, body: removeHtmlAndShorten(post.body) }))`
      chain: same posts in the same order, bodies summarised. */
  function Summaries(sanitize: Sanitizer, ps: seq<Post>): (r: seq<Post>)
    ensures |r| == |ps|
    ensures forall i :: 0 <= i < |ps| ==>
      SameButBody(r[i], ps[i]) && r[i].body == RemoveHtmlAndShorten(sanitize, ps[i].body)
  {
    if ps == [] then []
    else [ps[0].(body := RemoveHtmlAndShorten(sanitize, ps[0].body))] + Summaries(sanitize, ps[1..])
  }

  // ---------------------------------------------------------------------------
  // The listing pipeline

  /** `GET /api/posts?username=&tag=&page=`: each parameter may be absent. */
  datatype Query = Query(page: Option<string>, username: Option<string>, tag: Option<string>)

  const PageSize := 10

  const DefaultPage: string := "1"

  /** `parseInt(ctx.query.page || '1', 10)`; `None` is NaN. A truthy parameter
      is parsed as given; an absent or empty one means page 1. */
  function PageOf(page: Option<string>): (r: Option<int>)
    ensures Truthy(page) ==> r == ParseInt(page.value)
    ensures !Truthy(page) ==> r == Some(1)
  {
    assert Decimal(1) + "" == DefaultPage;
    ParseIntOfDecimal(1, "");
    ParseInt(Or(page, DefaultPage))
  }

  /** The guard `page < 1` as written: a number below 1 is rejected, and NaN,
      which compares false, passes. */
  function RejectsPageAsWritten(page: Option<int>): (b: bool)
    ensures page.None? ==> !b
    ensures page.Some? ==> (b <==> page.value < 1)
  {
    page.Some? && page.value < 1
  }

  /** The guard as intended: anything that is not a page number of at least 1 is
      a bad request. On numbers it agrees with the guard as written. */
  function RejectsPage(page: Option<int>): (b: bool)
    ensures !b <==> page.Some? && page.value >= 1
    ensures page.Some? ==> b == RejectsPageAsWritten(page)
  {
    page.None? || page.value < 1
  }

  /** The query document: a `user.username` clause only for a truthy username, a
      `tags` clause only for a truthy tag. */
  function BuildFilter(q: Query): (f: Filter)
    ensures f.username.Some? <==> Truthy(q.username)
    ensures f.tag.Some? <==> Truthy(q.tag)
    ensures f.username.Some? ==> f.username == q.username
    ensures f.tag.Some? ==> f.tag == q.tag
  {
    Filter(if Truthy(q.username) then q.username else None,
           if Truthy(q.tag) then q.tag else None)
  }

  /** `Math.ceil(count / 10)`. */
  function LastPage(count: nat): (r: nat)
    ensures count <= r * PageSize
    ensures count == 0 ==> r == 0
    ensures count > 0 ==> (r - 1) * PageSize < count
  {
    (count + PageSize - 1) / PageSize
  }

  /** The posts `list` fetches for a page: the matches at positions
      `(page-1)*10` up to `(page-1)*10 + 9`, newest first. */
  function PageItems(ps: seq<Post>, f: Filter, page: int): (r: seq<Post>)
    requires page >= 1
    ensures |r| <= PageSize
    ensures |r| == if (page - 1) * PageSize >= CountDocuments(ps, f) then 0
                   else Min(PageSize, CountDocuments(ps, f) - (page - 1) * PageSize)
    ensures forall k :: 0 <= k < |r| ==> r[k] == Matches(ps, f)[(page - 1) * PageSize + k]
  {
    Find(ps, f, (page - 1) * PageSize, PageSize)
  }

  /** `list`. */
  method List(ctx: Context, store: PostStore, query: Query, sanitize: Sanitizer, dbFault: bool)
    requires store.Valid()
    modifies ctx
    ensures ctx.statePost == old(ctx.statePost)
    ensures RejectsPage(PageOf(query.page)) ==>
      ctx.response == WithStatus(old(ctx.response), 400)
    ensures !RejectsPage(PageOf(query.page)) && dbFault ==>
      ctx.response == Thrown(old(ctx.response), 500)
    ensures !RejectsPage(PageOf(query.page)) && !dbFault ==>
      var f := BuildFilter(query);
      var items := PageItems(store.posts, f, PageOf(query.page).value);
      ctx.response ==
        WithBody(WithLastPage(old(ctx.response), LastPage(CountDocuments(store.posts, f))),
                 PostList(Summaries(sanitize, items)))
  {
    var page := PageOf(query.page);
    if RejectsPage(page) {
      ctx.response := WithStatus(ctx.response, 400);
      return;
    }
    var filter := BuildFilter(query);
    if dbFault {
      ctx.response := Thrown(ctx.response, 500);
      return;
    }
    var posts := PageItems(store.posts, filter, page.value);
    var postCount := CountDocuments(store.posts, filter);
    ctx.response := WithLastPage(ctx.response, LastPage(postCount));
    ctx.response := WithBody(ctx.response, PostList(Summaries(sanitize, posts)));
  }

  // ---------------------------------------------------------------------------
  // Guards

  /** `getPostById`: answers whether it called `next`. */
  method GetPostById(ctx: Context, store: PostStore, id: string, cast: IdCast, dbFault: bool)
    returns (callsNext: bool)
    modifies ctx
    ensures callsNext <==>
      cast(id).Some? && !dbFault && FindById(store.posts, cast(id).value).Some?
    ensures cast(id).None? ==>
      ctx.response == WithStatus(old(ctx.response), 400) && ctx.statePost == old(ctx.statePost)
    ensures cast(id).Some? && dbFault ==>
      ctx.response == Thrown(old(ctx.response), 500) && ctx.statePost == old(ctx.statePost)
    ensures cast(id).Some? && !dbFault && FindById(store.posts, cast(id).value).None? ==>
      ctx.response == WithStatus(old(ctx.response), 404) && ctx.statePost == old(ctx.statePost)
    ensures callsNext ==>
      ctx.response == old(ctx.response) && ctx.statePost == FindById(store.posts, cast(id).value)
  {
    var oid := cast(id);
    if oid.None? {
      ctx.response := WithStatus(ctx.response, 400);
      return false;
    }
    if dbFault {
      ctx.response := Thrown(ctx.response, 500);
      return false;
    }
    var post := FindById(store.posts, oid.value);
    if post.None? {
      ctx.response := WithStatus(ctx.response, 404);
      return false;
    }
    ctx.statePost := post;
    callsNext := true;
  }

  /** Both the post's author and the logged-in user are there to compare. */
  predicate OwnerKnown(post: Option<Post>, user: Option<User>)
  {
    post.Some? && post.value.user.Some? && user.Some?
  }

  /** `checkOwnPost`: answers whether it called `next`. A missing post, author or
      user makes the property access throw, which Koa answers with 500. */
  method CheckOwnPost(ctx: Context) returns (callsNext: bool)
    modifies ctx
    ensures ctx.statePost == old(ctx.statePost)
    ensures callsNext <==>
      OwnerKnown(ctx.statePost, ctx.stateUser) &&
      ctx.statePost.value.user.value.id == ctx.stateUser.value.id
    ensures OwnerKnown(ctx.statePost, ctx.stateUser) && !callsNext ==>
      ctx.response == WithStatus(old(ctx.response), 403)
    ensures !OwnerKnown(ctx.statePost, ctx.stateUser) ==>
      ctx.response == Thrown(old(ctx.response), 500)
    ensures callsNext ==> ctx.response == old(ctx.response)
  {
    if !OwnerKnown(ctx.statePost, ctx.stateUser) {
      ctx.response := Thrown(ctx.response, 500);
      return false;
    }
    var post := ctx.statePost.value;
    var user := ctx.stateUser.value;
    if post.user.value.id != user.id {
      ctx.response := WithStatus(ctx.response, 403);
      return false;
    }
    callsNext := true;
  }

  // ---------------------------------------------------------------------------
  // Handlers

  /** `write`. */
  method Write(ctx: Context, store: PostStore, request: PostFields, joi: Validator,
               sanitize: Sanitizer, dbFault: bool, now: int)
    requires store.Valid() && HonoursPresence(joi)
    modifies ctx, store
    ensures store.Valid() && ctx.statePost == old(ctx.statePost)
    ensures joi(writeSchema, request).Some? ==>
      ctx.response ==
        WithBody(WithStatus(old(ctx.response), 400), ErrorJson(joi(writeSchema, request).value)) &&
      store.posts == old(store.posts) && store.nextId == old(store.nextId)
    ensures joi(writeSchema, request).None? && dbFault ==>
      ctx.response == Thrown(old(ctx.response), 500) &&
      store.posts == old(store.posts) && store.nextId == old(store.nextId)
    ensures joi(writeSchema, request).None? && !dbFault ==>
      store.nextId == old(store.nextId) + 1 &&
      |store.posts| == |old(store.posts)| + 1 && store.posts[1..] == old(store.posts) &&
      var p := store.posts[0];
      p.id == old(store.nextId) &&
      p.title == request.title.value &&
      p.body == sanitize(request.body.value, sanitizeOption) &&
      p.tags == request.tags.value &&
      p.user == ctx.stateUser && p.publishedDate == now &&
      ctx.response == WithBody(old(ctx.response), PostJson(p))
  {
    var error := joi(writeSchema, request);
    if error.Some? {
      ctx.response := WithStatus(ctx.response, 400);
      ctx.response := WithBody(ctx.response, ErrorJson(error.value));
      return;
    }
    var title, body, tags := request.title.value, request.body.value, request.tags.value;
    if dbFault {
      ctx.response := Thrown(ctx.response, 500);
      return;
    }
    var post := store.Save(title, sanitize(body, sanitizeOption), tags, ctx.stateUser, now);
    ctx.response := WithBody(ctx.response, PostJson(post));
  }

  /** `read`. */
  method Read(ctx: Context)
    modifies ctx
    ensures ctx.statePost == old(ctx.statePost)
    ensures ctx.response ==
      WithBody(old(ctx.response), if ctx.statePost.Some? then PostJson(ctx.statePost.value) else NoBody)
  {
    ctx.response := WithBody(ctx.response,
      if ctx.statePost.Some? then PostJson(ctx.statePost.value) else NoBody);
  }

  /** `remove`: deletes whatever has the id and answers 204; an id Mongoose
      cannot cast makes the query throw. */
  method Remove(ctx: Context, store: PostStore, id: string, cast: IdCast, dbFault: bool)
    requires store.Valid()
    modifies ctx, store
    ensures store.Valid() && ctx.statePost == old(ctx.statePost)
    ensures cast(id).None? || dbFault ==>
      ctx.response == Thrown(old(ctx.response), 500) &&
      store.posts == old(store.posts) && store.nextId == old(store.nextId)
    ensures cast(id).Some? && !dbFault ==>
      ctx.response == WithStatus(old(ctx.response), 204) &&
      store.posts == RemoveById(old(store.posts), cast(id).value) && store.nextId == old(store.nextId)
  {
    var oid := cast(id);
    if oid.None? || dbFault {
      ctx.response := Thrown(ctx.response, 500);
      return;
    }
    var _ := store.FindByIdAndDelete(oid.value);
    ctx.response := WithStatus(ctx.response, 204);
  }

  /** The update document `update` sends: a copy of the request body whose
      `body`, when truthy, is replaced by its sanitised form. */
  function NextData(sanitize: Sanitizer, request: PostFields): (d: PostFields)
    ensures d.title == request.title && d.tags == request.tags
    ensures Truthy(request.body) ==> d.body == Some(sanitize(request.body.value, sanitizeOption))
    ensures !Truthy(request.body) ==> d.body == request.body
  {
    if Truthy(request.body) then request.(body := Some(sanitize(request.body.value, sanitizeOption)))
    else request
  }

  /** `update`. */
  method Update(ctx: Context, store: PostStore, id: string, request: PostFields, joi: Validator,
                sanitize: Sanitizer, cast: IdCast, dbFault: bool)
    requires store.Valid()
    modifies ctx, store
    ensures store.Valid() && ctx.statePost == old(ctx.statePost)
    ensures joi(updateSchema, request).Some? ==>
      ctx.response ==
        WithBody(WithStatus(old(ctx.response), 400), ErrorJson(joi(updateSchema, request).value)) &&
      store.posts == old(store.posts) && store.nextId == old(store.nextId)
    ensures joi(updateSchema, request).None? && (cast(id).None? || dbFault) ==>
      ctx.response == Thrown(old(ctx.response), 500) &&
      store.posts == old(store.posts) && store.nextId == old(store.nextId)
    ensures joi(updateSchema, request).None? && cast(id).Some? && !dbFault ==>
      var oid := cast(id).value;
      var d := NextData(sanitize, request);
      store.posts == ReplaceById(old(store.posts), oid, d) && store.nextId == old(store.nextId) &&
      (FindById(old(store.posts), oid).None? ==>
         ctx.response == WithStatus(old(ctx.response), 404) && store.posts == old(store.posts)) &&
      (FindById(old(store.posts), oid).Some? ==>
         ctx.response ==
           WithBody(old(ctx.response), PostJson(ApplyUpdate(FindById(old(store.posts), oid).value, d))))
  {
    var error := joi(updateSchema, request);
    if error.Some? {
      ctx.response := WithStatus(ctx.response, 400);
      ctx.response := WithBody(ctx.response, ErrorJson(error.value));
      return;
    }
    var nextData := request;
    if Truthy(nextData.body) {
      nextData := nextData.(body := Some(sanitize(nextData.body.value, sanitizeOption)));
    }
    var oid := cast(id);
    if oid.None? || dbFault {
      ctx.response := Thrown(ctx.response, 500);
      return;
    }
    ReplaceByIdAbsent(store.posts, oid.value, nextData);
    var post := store.FindByIdAndUpdate(oid.value, nextData);
    if post.None? {
      ctx.response := WithStatus(ctx.response, 404);
      return;
    }
    ctx.response := WithBody(ctx.response, PostJson(post.value));
  }
}
