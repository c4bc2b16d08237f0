/** The Post document and the document store behind it. The store is the
    in-memory stand-in for the Mongoose `Post` model: a sequence of posts kept
    newest first (descending id, as `sort({ _id: -1 })` orders them), with the
    queries and updates the controller issues. */
module PostModel {
  import opened Wrappers

  /** An ObjectId; ids grow with creation time. */
  type PostId = nat

  /** The author as embedded in a post and as carried by the login token. */
  datatype User = User(id: string, username: string)

  datatype Post = Post(
    id: PostId,
    title: string,
    body: string,
    tags: seq<string>,
    user: Option<User>,
    publishedDate: int)

  /** A request body / update document: each field may be absent. */
  datatype PostFields = PostFields(
    title: Option<string>,
    body: Option<string>,
    tags: Option<seq<string>>)

  /** A query document with an optional `user.username` clause and an optional
      `tags` clause; an absent clause imposes nothing. */
  datatype Filter = Filter(username: Option<string>, tag: Option<string>)

  /** MongoDB matching: `{ 'user.username': u }` compares the embedded author's
      name, `{ tags: t }` on an array field matches when the array holds `t`. */
  function Satisfies(p: Post, f: Filter): (b: bool)
    ensures f.username.None? && f.tag.None? ==> b
    ensures f.username.Some? && (p.user.None? || p.user.value.username != f.username.value) ==> !b
    ensures f.tag.Some? && f.tag.value !in p.tags ==> !b
    ensures ((f.username.Some? ==> p.user.Some? && p.user.value.username == f.username.value) &&
             (f.tag.Some? ==> f.tag.value in p.tags)) ==> b
  {
    (f.username.Some? ==> p.user.Some? && p.user.value.username == f.username.value) &&
    (f.tag.Some? ==> f.tag.value in p.tags)
  }

  /** Newest first: ids strictly decrease along the store. */
  ghost predicate Descending(ps: seq<Post>)
  {
    forall i, j :: 0 <= i < j < |ps| ==> ps[i].id > ps[j].id
  }

  /** The posts that pass `keep`, in store order. */
  function Where(ps: seq<Post>, keep: Post -> bool): (r: seq<Post>)
    ensures |r| <= |ps|
    ensures forall p :: p in r <==> p in ps && keep(p)
  {
    if ps == [] then []
    else (if keep(ps[0]) then [ps[0]] else []) + Where(ps[1..], keep)
  }

  lemma {:induction false} WhereDescending(ps: seq<Post>, keep: Post -> bool)
    requires Descending(ps)
    ensures Descending(Where(ps, keep))
  {
    if ps != [] {
      var tail := Where(ps[1..], keep);
      WhereDescending(ps[1..], keep);
      forall j | 0 <= j < |tail| ensures tail[j].id < ps[0].id {
        assert tail[j] in ps[1..];
      }
    }
  }

  /** Keeping every post keeps the store as it is. */
  lemma {:induction false} WhereAll(ps: seq<Post>, keep: Post -> bool)
    requires forall p :: p in ps ==> keep(p)
    ensures Where(ps, keep) == ps
  {
    if ps != [] {
      WhereAll(ps[1..], keep);
    }
  }

  /** `Post.find(filter)` before skip and limit: the stored posts that satisfy
      the filter, in store order. */
  function Matches(ps: seq<Post>, f: Filter): (r: seq<Post>)
    ensures |r| <= |ps|
    ensures forall p :: p in r <==> p in ps && Satisfies(p, f)
  {
    Where(ps, (p: Post) => Satisfies(p, f))
  }

  /** `Post.countDocuments(filter)`: how many posts `find` would return without
      skip and limit; 0 exactly when no stored post satisfies the filter. */
  function CountDocuments(ps: seq<Post>, f: Filter): (n: nat)
    ensures n <= |ps|
    ensures n == 0 <==> forall p :: p in ps ==> !Satisfies(p, f)
  {
    var m := Matches(ps, f);
    assert m != [] ==> m[0] in m;
    |m|
  }

  function Min(a: int, b: int): int
  {
    if a <= b then a else b
  }

  /** `.skip(skip).limit(limit)`: at most `limit` consecutive posts starting at
      position `skip`; nothing (and no error) when `skip` is past the end. */
  function Window(m: seq<Post>, skip: nat, limit: nat): (r: seq<Post>)
    ensures |r| == if skip >= |m| then 0 else Min(limit, |m| - skip)
    ensures forall k :: 0 <= k < |r| ==> r[k] == m[skip + k]
  {
    if skip >= |m| then [] else m[skip..skip + Min(limit, |m| - skip)]
  }

  /** `Post.find(filter).sort({ _id: -1 }).skip(skip).limit(limit)` over a store
      that is already newest first: the matches from position `skip` on, as
      many as remain up to `limit`, in store order; none when `skip` reaches
      the count. */
  function Find(ps: seq<Post>, f: Filter, skip: nat, limit: nat): (r: seq<Post>)
    ensures |r| <= limit
    ensures |r| == if skip >= CountDocuments(ps, f) then 0 else Min(limit, CountDocuments(ps, f) - skip)
    ensures forall k :: 0 <= k < |r| ==> r[k] == Matches(ps, f)[skip + k]
    ensures forall k :: 0 <= k < |r| ==> r[k] in ps && Satisfies(r[k], f)
  {
    Window(Matches(ps, f), skip, limit)
  }

  /** `Post.findById(id)`: the post with that id, or `null`. */
  function FindById(ps: seq<Post>, id: PostId): (r: Option<Post>)
    ensures r.Some? ==> r.value in ps && r.value.id == id
    ensures r.None? ==> forall p :: p in ps ==> p.id != id
  {
    if ps == [] then None
    else if ps[0].id == id then Some(ps[0])
    else FindById(ps[1..], id)
  }

  /** MongoDB `$set` of the supplied fields; id, author and date stay. */
  function ApplyUpdate(p: Post, d: PostFields): (q: Post)
    ensures q.id == p.id && q.user == p.user && q.publishedDate == p.publishedDate
    ensures q.title == (if d.title.Some? then d.title.value else p.title)
    ensures q.body == (if d.body.Some? then d.body.value else p.body)
    ensures q.tags == (if d.tags.Some? then d.tags.value else p.tags)
  {
    Post(p.id,
         if d.title.Some? then d.title.value else p.title,
         if d.body.Some? then d.body.value else p.body,
         if d.tags.Some? then d.tags.value else p.tags,
         p.user, p.publishedDate)
  }

  /** The store after updating the post with id `id`; order and ids are kept. */
  function ReplaceById(ps: seq<Post>, id: PostId, d: PostFields): (r: seq<Post>)
    ensures |r| == |ps|
    ensures forall i :: 0 <= i < |ps| ==>
      r[i] == if ps[i].id == id then ApplyUpdate(ps[i], d) else ps[i]
  {
    if ps == [] then []
    else [if ps[0].id == id then ApplyUpdate(ps[0], d) else ps[0]] + ReplaceById(ps[1..], id, d)
  }

  /** With `{ new: true }` the update answers the document as updated, or `null`
      when no post has that id. */
  lemma {:induction false} FindByIdAfterReplace(ps: seq<Post>, id: PostId, d: PostFields)
    ensures FindById(ReplaceById(ps, id, d), id) ==
      match FindById(ps, id)
      case None => None
      case Some(p) => Some(ApplyUpdate(p, d))
  {
    if ps != [] && ps[0].id != id {
      assert ReplaceById(ps, id, d)[1..] == ReplaceById(ps[1..], id, d);
      FindByIdAfterReplace(ps[1..], id, d);
    }
  }

  /** An update keeps the ids where they were, so it keeps the store newest
      first and below its next id. */
  lemma ReplaceByIdKeepsIds(ps: seq<Post>, id: PostId, d: PostFields, bound: PostId)
    requires Descending(ps) && forall p :: p in ps ==> p.id < bound
    ensures Descending(ReplaceById(ps, id, d))
    ensures forall p :: p in ReplaceById(ps, id, d) ==> p.id < bound
  {
    var r := ReplaceById(ps, id, d);
    assert forall i :: 0 <= i < |r| ==> r[i].id == ps[i].id;
    forall p | p in r ensures p.id < bound {
      var i :| 0 <= i < |r| && r[i] == p;
      assert ps[i] in ps;
    }
  }

  /** Updating an id no post has leaves the store as it is. */
  lemma {:induction false} ReplaceByIdAbsent(ps: seq<Post>, id: PostId, d: PostFields)
    ensures FindById(ps, id).None? ==> ReplaceById(ps, id, d) == ps
  {
    if ps != [] {
      ReplaceByIdAbsent(ps[1..], id, d);
    }
  }

  /** The store after `findByIdAndDelete(id)`: no post with that id is left,
      and every post with another id stays. */
  function RemoveById(ps: seq<Post>, id: PostId): (r: seq<Post>)
    ensures |r| <= |ps|
    ensures FindById(r, id).None?
    ensures forall p :: p in r <==> p in ps && p.id != id
  {
    Where(ps, (p: Post) => p.id != id)
  }

  lemma RemoveByIdKeepsOrder(ps: seq<Post>, id: PostId)
    requires Descending(ps)
    ensures Descending(RemoveById(ps, id))
    ensures forall p :: p in RemoveById(ps, id) <==> p in ps && p.id != id
  {
    WhereDescending(ps, (p: Post) => p.id != id);
  }

  class PostStore {
    var posts: seq<Post>
    /** The id the next saved post receives. */
    var nextId: PostId

    ghost predicate Valid()
      reads this
    {
      Descending(posts) && forall p :: p in posts ==> p.id < nextId
    }

    constructor ()
      ensures Valid() && posts == [] && nextId == 0
    {
      posts := [];
      nextId := 0;
    }

    /** `new Post({...}).save()`: the new post is the newest one. */
    method Save(title: string, body: string, tags: seq<string>, user: Option<User>, now: int)
      returns (p: Post)
      requires Valid()
      modifies this
      ensures Valid()
      ensures p == Post(old(nextId), title, body, tags, user, now)
      ensures posts == [p] + old(posts) && nextId == old(nextId) + 1
    {
      p := Post(nextId, title, body, tags, user, now);
      posts := [p] + posts;
      nextId := nextId + 1;
    }

    /** `findByIdAndUpdate(id, d, { new: true })`. */
    method FindByIdAndUpdate(id: PostId, d: PostFields) returns (r: Option<Post>)
      requires Valid()
      modifies this
      ensures Valid() && nextId == old(nextId)
      ensures posts == ReplaceById(old(posts), id, d)
      ensures r == match FindById(old(posts), id)
                   case None => None
                   case Some(p) => Some(ApplyUpdate(p, d))
    {
      FindByIdAfterReplace(posts, id, d);
      ReplaceByIdKeepsIds(posts, id, d, nextId);
      posts := ReplaceById(posts, id, d);
      r := FindById(posts, id);
    }

    /** `findByIdAndDelete(id)`: answers the removed post, or `null`. */
    method FindByIdAndDelete(id: PostId) returns (r: Option<Post>)
      requires Valid()
      modifies this
      ensures Valid() && nextId == old(nextId)
      ensures posts == RemoveById(old(posts), id)
      ensures r == FindById(old(posts), id)
    {
      r := FindById(posts, id);
      RemoveByIdKeepsOrder(posts, id);
      posts := RemoveById(posts, id);
    }
  }
}
