/** What the listing pipeline and the update document of the post controller
    promise, stated over the functions the handlers use. */
module PostsCtrlLemmas {
  import opened Wrappers
  import opened Js
  import opened PostModel
  import opened PostsCtrl

  // ---------------------------------------------------------------------------
  // Page parsing

  /** Without a page parameter (or with an empty one) the listing starts at 1. */
  lemma PageDefaultsToOne()
    ensures PageOf(None) == Some(1) && PageOf(Some("")) == Some(1)
  {
    assert Decimal(1) + "" == DefaultPage;
    ParseIntOfDecimal(1, "");
  }

  /** `?page=n` (whatever non-digit text follows) asks for page `n`. */
  lemma PageOfDecimal(n: nat, rest: string)
    requires rest == [] || !IsDigit(rest[0])
    ensures PageOf(Some(Decimal(n) + rest)) == Some(n)
    ensures RejectsPage(PageOf(Some(Decimal(n) + rest))) <==> n == 0
  {
    ParseIntOfDecimal(n, rest);
  }

  /** A negative page number is a bad request. */
  lemma NegativePageRejected(n: nat, rest: string)
    requires rest == [] || !IsDigit(rest[0])
    ensures RejectsPage(PageOf(Some("-" + Decimal(n) + rest)))
    ensures RejectsPageAsWritten(PageOf(Some("-" + Decimal(n) + rest)))
  {
    var s := "-" + Decimal(n) + rest;
    assert |s| > 0;
    assert Or(Some(s), DefaultPage) == s;
    ParseIntOfNegative(n, rest);
    assert ParseInt(s) == Some(-(n as int));
  }

  /** The guard as written lets a page that is not a number through: `parseInt`
      answers NaN for "abc" and `NaN < 1` is false. */
  lemma AsWrittenGuardAdmitsNaN()
    ensures PageOf(Some("abc")) == None
    ensures !RejectsPageAsWritten(PageOf(Some("abc")))
    ensures RejectsPage(PageOf(Some("abc")))
  {
    var s := "abc";
    assert !IsWhiteSpace(s[0]) && !IsDigit(s[0]) && !HasSign(s);
    assert TrimStart(s) == s;
    assert LeadingDigits(s) == [];
  }

  /** The corrected guard differs from the written one only on NaN, and what it
      lets through is a page of at least 1. */
  lemma RejectsPageOnlyAddsNaN(p: Option<int>)
    ensures p.Some? ==> (RejectsPage(p) <==> RejectsPageAsWritten(p))
    ensures !RejectsPage(p) <==> p.Some? && p.value >= 1
  {
  }

  // ---------------------------------------------------------------------------
  // The filter

  /** No username and no tag: the query document is empty and matches every post. */
  lemma EmptyFilterMatchesAll(ps: seq<Post>, page: Option<string>)
    ensures BuildFilter(Query(page, None, None)) == Filter(None, None)
    ensures BuildFilter(Query(page, Some(""), Some(""))) == Filter(None, None)
    ensures Matches(ps, Filter(None, None)) == ps
  {
    WhereAll(ps, (p: Post) => Satisfies(p, Filter(None, None)));
  }

  /** Both clauses: a post matches exactly when it matches each clause alone. */
  lemma {:induction false} FilterConjunction(ps: seq<Post>, u: string, t: string)
    ensures Matches(ps, Filter(Some(u), Some(t))) ==
            Matches(Matches(ps, Filter(Some(u), None)), Filter(None, Some(t)))
    ensures forall p :: p in Matches(ps, Filter(Some(u), Some(t))) <==>
      p in ps && p.user.Some? && p.user.value.username == u && t in p.tags
  {
    if ps != [] {
      FilterConjunction(ps[1..], u, t);
      var byUser := Matches(ps, Filter(Some(u), None));
      if Satisfies(ps[0], Filter(Some(u), None)) {
        assert byUser[1..] == Matches(ps[1..], Filter(Some(u), None));
      } else {
        assert byUser == Matches(ps[1..], Filter(Some(u), None));
      }
    }
  }

  // ---------------------------------------------------------------------------
  // Pagination

  /** The pages are newest first when the store is. */
  lemma ListedNewestFirst(ps: seq<Post>, f: Filter, page: int)
    requires Descending(ps) && page >= 1
    ensures Descending(PageItems(ps, f, page))
  {
    WhereDescending(ps, (p: Post) => Satisfies(p, f));
  }

  /** A page has posts exactly when it is between 1 and `Last-Page`; a page past
      the end is an empty list, not an error. */
  lemma PageEmptyIff(ps: seq<Post>, f: Filter, page: int)
    requires page >= 1
    ensures PageItems(ps, f, page) == [] <==> page > LastPage(CountDocuments(ps, f))
  {
    var n := CountDocuments(ps, f);
    var last := LastPage(n);
    if page <= last {
      assert (page - 1) * PageSize <= (last - 1) * PageSize;
    } else {
      assert last * PageSize <= (page - 1) * PageSize;
    }
  }

  /** The posts `list` fetches for pages 1 to `k`, one after the other. */
  function PagesUpTo(ps: seq<Post>, f: Filter, k: nat): seq<Post>
  {
    if k == 0 then [] else PagesUpTo(ps, f, k - 1) + PageItems(ps, f, k)
  }

  lemma {:induction false} PagesUpToPrefix(ps: seq<Post>, f: Filter, k: nat)
    ensures PagesUpTo(ps, f, k) == Matches(ps, f)[..Min(k * PageSize, CountDocuments(ps, f))]
  {
    if k > 0 {
      PagesUpToPrefix(ps, f, k - 1);
      var m := Matches(ps, f);
      var a := Min((k - 1) * PageSize, |m|);
      var b := Min(k * PageSize, |m|);
      assert PageItems(ps, f, k) == m[a..b];
      assert m[..a] + m[a..b] == m[..b];
    }
  }

  /** Pages 1 to `Last-Page`, as `list` fetches them, together list every
      match once, in order. */
  lemma PagesCoverMatches(ps: seq<Post>, f: Filter)
    ensures PagesUpTo(ps, f, LastPage(CountDocuments(ps, f))) == Matches(ps, f)
  {
    var m := Matches(ps, f);
    PagesUpToPrefix(ps, f, LastPage(|m|));
    assert m[..|m|] == m;
  }

  /** Twenty-five matches make three pages: the third holds five posts and the
      fourth none. */
  lemma TwentyFiveMatches(ps: seq<Post>, f: Filter)
    requires CountDocuments(ps, f) == 25
    ensures LastPage(CountDocuments(ps, f)) == 3
    ensures |PageItems(ps, f, 3)| == 5 && PageItems(ps, f, 4) == []
  {
  }

  /** Every listed body is at most 203 characters, every other field is the
      stored one, and the order is the fetched order. */
  lemma ListedSummaries(sanitize: Sanitizer, items: seq<Post>)
    ensures |Summaries(sanitize, items)| == |items|
    ensures forall i :: 0 <= i < |items| ==>
      Summaries(sanitize, items)[i].id == items[i].id &&
      Summaries(sanitize, items)[i].title == items[i].title &&
      Summaries(sanitize, items)[i].tags == items[i].tags &&
      Summaries(sanitize, items)[i].user == items[i].user &&
      Summaries(sanitize, items)[i].publishedDate == items[i].publishedDate &&
      |Summaries(sanitize, items)[i].body| <= SummaryLength + 3
  {
    var r := Summaries(sanitize, items);
    forall i | 0 <= i < |items|
      ensures r[i].id == items[i].id && r[i].title == items[i].title && r[i].tags == items[i].tags
      ensures r[i].user == items[i].user && r[i].publishedDate == items[i].publishedDate
    {
      assert SameButBody(r[i], items[i]);
      assert r[i].(body := "").id == items[i].(body := "").id;
      assert r[i].(body := "").title == items[i].(body := "").title;
      assert r[i].(body := "").tags == items[i].(body := "").tags;
      assert r[i].(body := "").user == items[i].(body := "").user;
      assert r[i].(body := "").publishedDate == items[i].(body := "").publishedDate;
    }
  }

  // ---------------------------------------------------------------------------
  // Updates

  /** What `update` stores: a supplied truthy body in sanitised form, a supplied
      title or tag list as given, and everything else as it was. */
  lemma UpdatedPost(p: Post, sanitize: Sanitizer, request: PostFields)
    ensures var q := ApplyUpdate(p, NextData(sanitize, request));
      q.id == p.id && q.user == p.user && q.publishedDate == p.publishedDate &&
      q.title == (if request.title.Some? then request.title.value else p.title) &&
      q.tags == (if request.tags.Some? then request.tags.value else p.tags) &&
      q.body == (if Truthy(request.body) then sanitize(request.body.value, sanitizeOption)
                 else if request.body.Some? then request.body.value
                 else p.body)
  {
  }
}
