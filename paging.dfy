/** Listing arithmetic shared by the handlers: newest-first ordering, the
    `skip`/`limit` window the database applies, and utils/paginate.js (page
    and limit clamping, skip, total pages). */
module Paging {
  import opened Common
  import opened Text

  /** `sort({ createdAt: -1 })` over a collection kept in insertion order:
      the most recently created document comes first. */
  function NewestFirst<T>(s: seq<T>): (r: seq<T>)
    ensures |r| == |s|
    ensures forall k :: 0 <= k < |s| ==> r[k] == s[|s| - 1 - k]
  {
    if s == [] then [] else NewestFirst(s[1..]) + [s[0]]
  }

  /** The number of documents a limit lets through: 0 means no limit, and a
      negative limit returns at most its absolute value in one batch. */
  function LimitCount(limit: int, available: nat): (n: nat)
    ensures n <= available
    ensures limit > 0 ==> n == Min(limit, available)
    ensures limit == 0 ==> n == available
  {
    if limit == 0 then available else if limit < 0 then Min(-limit, available) else Min(limit, available)
  }

  /** `.skip(skip).limit(limit)` on `docs`: the server refuses a negative skip;
      otherwise the result is the run of documents starting at `skip`. */
  function Window<T>(docs: seq<T>, skip: int, limit: int): (r: Result<seq<T>, string>)
    ensures r.Failure? <==> skip < 0
    ensures r.Success? ==> |r.value| == LimitCount(limit, if skip < |docs| then |docs| - skip else 0)
    ensures r.Success? ==> forall k :: 0 <= k < |r.value| ==> r.value[k] == docs[skip + k]
  {
    if skip < 0 then Failure("skip must be non-negative")
    else
      var from := Min(skip, |docs|);
      Success(docs[from .. from + LimitCount(limit, |docs| - from)])
  }

  /** Page `page` (counted from 1) of `limit` documents each. */
  function PageOf<T>(docs: seq<T>, page: int, limit: int): seq<T>
    requires page >= 1 && limit > 0
  {
    Window(docs, (page - 1) * limit, limit).value
  }

  /** The pages 1..p one after another. */
  function PagesUpTo<T>(docs: seq<T>, limit: int, p: nat): seq<T>
    requires limit > 0
  {
    if p == 0 then [] else PagesUpTo(docs, limit, p - 1) + PageOf(docs, p, limit)
  }

  /** Reading pages 1..p in turn yields exactly the first p·limit documents. */
  lemma {:induction false} PagesUpToPrefix<T>(docs: seq<T>, limit: int, p: nat)
    requires limit > 0
    ensures PagesUpTo(docs, limit, p) == docs[..Min(p * limit, |docs|)]
  {
    if p > 0 {
      PagesUpToPrefix(docs, limit, p - 1);
      var a := Min((p - 1) * limit, |docs|);
      var b := Min(p * limit, |docs|);
      assert p * limit == (p - 1) * limit + limit;
      assert PageOf(docs, p, limit) == docs[a..b];
      assert docs[..a] + docs[a..b] == docs[..b];
    }
  }

  /** Pages 1..totalPages, with totalPages = ceil(total / limit), cover the
      collection exactly, each document once and in order. */
  lemma PagesCoverAll<T>(docs: seq<T>, limit: int)
    requires limit > 0
    ensures CeilDiv(|docs|, limit) >= 0
    ensures PagesUpTo(docs, limit, CeilDiv(|docs|, limit)) == docs
  {
    var r := CeilDiv(|docs|, limit);
    assert r >= 0;
    PagesUpToPrefix(docs, limit, r);
  }

  /** A page is non-empty exactly when its number does not exceed
      ceil(total / limit). */
  lemma PageNonEmptyIff<T>(docs: seq<T>, page: int, limit: int)
    requires page >= 1 && limit > 0
    ensures |PageOf(docs, page, limit)| > 0 <==> page <= CeilDiv(|docs|, limit)
  {
    var r := CeilDiv(|docs|, limit);
    if page <= r {
      assert (page - 1) * limit <= (r - 1) * limit;
    } else {
      assert (page - 1) * limit >= r * limit;
    }
  }

  /** A listing answer: one page of the matching documents newest first, the
      number of matching documents, the page number and ceil(total / limit). */
  datatype Listing<T> = Listing(items: seq<T>, total: nat, page: int, totalPages: int)

  /** The listing the handlers build from a page number and a non-zero limit;
      it fails when the skip they compute is negative. */
  function ListNewest<T>(matching: seq<T>, page: int, limit: int): (r: Result<Listing<T>, string>)
    requires limit != 0
    ensures r.Failure? <==> (page - 1) * limit < 0
    ensures r.Success? ==>
      r.value.total == |matching| && r.value.page == page && r.value.totalPages == CeilDiv(|matching|, limit)
  {
    match Window(NewestFirst(matching), (page - 1) * limit, limit)
    case Failure(e) => Failure(e)
    case Success(items) => Success(Listing(items, |matching|, page, CeilDiv(|matching|, limit)))
  }

  /** For a page from 1 and a positive limit the listing succeeds with that
      page of the newest-first order, which has items exactly when page <=
      totalPages. */
  lemma ListNewestPositive<T>(matching: seq<T>, page: int, limit: int)
    requires page >= 1 && limit > 0
    ensures var r := ListNewest(matching, page, limit);
      && r.Success?
      && r.value.items == PageOf(NewestFirst(matching), page, limit)
      && (|r.value.items| > 0 <==> page <= r.value.totalPages)
  {
    assert (page - 1) * limit >= 0 by {
      assert page - 1 >= 0 && limit > 0;
    }
    var ordered := NewestFirst(matching);
    assert |ordered| == |matching|;
    PageNonEmptyIff(ordered, page, limit);
  }

  // ------------------------------------------- descending sort on a number

  /** The order a `-1` sort gives an optional number: larger values first,
      documents without the field after every document that has it. */
  predicate RankAtLeast(a: Option<real>, b: Option<real>) {
    b.None? || (a.Some? && a.value >= b.value)
  }

  predicate SortedDesc<T>(s: seq<T>, key: T -> Option<real>) {
    forall i :: 0 <= i < |s| - 1 ==> RankAtLeast(key(s[i]), key(s[i + 1]))
  }

  function InsertDesc<T>(x: T, s: seq<T>, key: T -> Option<real>): (r: seq<T>)
    requires SortedDesc(s, key)
    ensures SortedDesc(r, key)
    ensures multiset(r) == multiset(s) + multiset{x}
    ensures r != [] && (r[0] == x || (s != [] && r[0] == s[0]))
  {
    if s == [] then [x]
    else if RankAtLeast(key(x), key(s[0])) then [x] + s
    else
      var rest := InsertDesc(x, s[1..], key);
      assert s == [s[0]] + s[1..];
      [s[0]] + rest
  }

  /** The documents in descending order of `key`; documents with equal keys
      keep their natural order. */
  function SortDesc<T>(s: seq<T>, key: T -> Option<real>): (r: seq<T>)
    ensures SortedDesc(r, key)
    ensures multiset(r) == multiset(s)
  {
    if s == [] then []
    else
      assert s == [s[0]] + s[1..];
      InsertDesc(s[0], SortDesc(s[1..], key), key)
  }

  /** A contiguous window of a descending sequence is descending. */
  lemma WindowKeepsOrder<T>(s: seq<T>, skip: int, limit: int, key: T -> Option<real>)
    requires SortedDesc(s, key)
    requires Window(s, skip, limit).Success?
    ensures SortedDesc(Window(s, skip, limit).value, key)
  {
    var w := Window(s, skip, limit).value;
    forall i | 0 <= i < |w| - 1
      ensures RankAtLeast(key(w[i]), key(w[i + 1]))
    {
      assert w[i] == s[skip + i] && w[i + 1] == s[skip + i + 1];
    }
  }

  /** A window of the documents a filter lets through holds only stored
      documents the filter accepts. */
  lemma WindowOfFilter<T>(s: seq<T>, p: T -> bool, skip: int, limit: int)
    requires Window(Filter(s, p), skip, limit).Success?
    ensures forall x :: x in Window(Filter(s, p), skip, limit).value ==> x in s && p(x)
  {
    var m := Filter(s, p);
    var w := Window(m, skip, limit).value;
    forall x | x in w
      ensures x in s && p(x)
    {
      var k :| 0 <= k < |w| && w[k] == x;
      assert w[k] == m[skip + k];
    }
  }

  /** A slice of a descending sequence is descending. */
  lemma SliceKeepsOrder<T>(s: seq<T>, lo: int, hi: int, key: T -> Option<real>)
    requires 0 <= lo <= hi <= |s| && SortedDesc(s, key)
    ensures SortedDesc(s[lo..hi], key)
  {
    var w := s[lo..hi];
    forall i | 0 <= i < |w| - 1
      ensures RankAtLeast(key(w[i]), key(w[i + 1]))
    {
      assert w[i] == s[lo + i] && w[i + 1] == s[lo + i + 1];
    }
  }

  /** A slice of the sorted documents is descending and holds only
      documents of the input. */
  lemma SortedSlice<T>(s: seq<T>, lo: int, hi: int, key: T -> Option<real>)
    requires 0 <= lo <= hi <= |SortDesc(s, key)|
    ensures SortedDesc(SortDesc(s, key)[lo..hi], key)
    ensures forall x :: x in SortDesc(s, key)[lo..hi] ==> x in s
  {
    var r := SortDesc(s, key);
    SliceKeepsOrder(r, lo, hi, key);
    forall x | x in r[lo..hi]
      ensures x in s
    {
      assert x in multiset(r);
    }
  }

  // ------------------------------------------------------- utils/paginate.js

  datatype PageQuery = PageQuery(page: int, limit: int, skip: int)

  /** `page = max(parseInt(page) || 1, 1)`, `limit = min(parseInt(limit) || 20, 100)`,
      `skip = (page - 1) * limit`. */
  function PaginateQuery(pageQ: Option<string>, limitQ: Option<string>): (q: PageQuery)
    ensures q.page >= 1 && q.limit <= 100 && q.limit != 0
    ensures q.skip == (q.page - 1) * q.limit
    ensures !ParseIntParam(pageQ).Truthy() ==> q.page == 1
    ensures !ParseIntParam(limitQ).Truthy() ==> q.limit == 20
    ensures ParseIntParam(pageQ).Truthy() && ParseIntParam(pageQ).n >= 1 ==> q.page == ParseIntParam(pageQ).n
    ensures ParseIntParam(limitQ).Truthy() && ParseIntParam(limitQ).n <= 100 ==> q.limit == ParseIntParam(limitQ).n
  {
    var p := OrDefault(ParseIntParam(pageQ), 1);
    var page := if p < 1 then 1 else p;
    var limit := Min(OrDefault(ParseIntParam(limitQ), 20), 100);
    PageQuery(page, limit, (page - 1) * limit)
  }

  datatype Paginated<T> = Paginated(data: seq<T>, page: int, total: nat, totalPages: int)

  /** The `paginate(model, filter, options)` handler on a collection: the
      documents matching `filter`, in the given order or newest first, cut to
      the requested page, with the total count and ceil(total / limit). */
  function Paginate<T>(collection: seq<T>, filter: T -> bool, sort: Option<seq<T> -> seq<T>>,
                       pageQ: Option<string>, limitQ: Option<string>): (r: Result<Paginated<T>, string>)
    ensures var q := PaginateQuery(pageQ, limitQ);
      r.Failure? <==> q.skip < 0
    ensures r.Success? ==>
      var q := PaginateQuery(pageQ, limitQ);
      && r.value.page == q.page
      && r.value.total == Count(collection, filter)
      && r.value.totalPages == CeilDiv(Count(collection, filter), q.limit)
      && |r.value.data| <= (if q.limit > 0 then q.limit else -q.limit)
  {
    PaginateAt(collection, filter, sort, PaginateQuery(pageQ, limitQ))
  }

  /** The same handler once the query has been clamped. */
  function PaginateAt<T>(collection: seq<T>, filter: T -> bool, sort: Option<seq<T> -> seq<T>>, q: PageQuery)
    : (r: Result<Paginated<T>, string>)
    requires q.limit != 0
  {
    var matching := Filter(collection, filter);
    var ordered := if sort.Some? then sort.value(matching) else NewestFirst(matching);
    match Window(ordered, q.skip, q.limit)
    case Failure(e) => Failure(e)
    case Success(docs) => Success(Paginated(docs, q.page, |matching|, CeilDiv(|matching|, q.limit)))
  }

  /** With a positive limit and the default order, paginate never fails:
      it answers page `page` of the matching documents newest first, their
      number and ceil(number / limit); by `PageNonEmptyIff` and
      `PagesCoverAll` that page has data exactly when `page <= totalPages`,
      and pages 1..totalPages list every matching document. */
  lemma PaginateDefaultOrder<T>(collection: seq<T>, filter: T -> bool, q: PageQuery)
    requires q.page >= 1 && q.limit > 0 && q.skip == (q.page - 1) * q.limit
    ensures var ordered := NewestFirst(Filter(collection, filter));
      PaginateAt(collection, filter, None, q)
        == Success(Paginated(PageOf(ordered, q.page, q.limit), q.page, |ordered|, CeilDiv(|ordered|, q.limit)))
  {
    var matching := Filter(collection, filter);
    var ordered := NewestFirst(matching);
    SkipOfPage(q.page, q.limit);
    var w := Window(ordered, q.skip, q.limit);
    assert w.Success?;
    assert PageOf(ordered, q.page, q.limit) == w.value;
    assert PaginateAt(collection, filter, None, q)
        == Success(Paginated(w.value, q.page, |matching|, CeilDiv(|matching|, q.limit)));
  }

  /** The skip of a page numbered from 1 is never negative. */
  lemma SkipOfPage(page: int, limit: int)
    requires page >= 1 && limit > 0
    ensures (page - 1) * limit >= 0
  {
  }

  /** Without query parameters the first twenty matching documents are
      returned, newest first. */
  lemma PaginateWithoutQuery<T>(collection: seq<T>, filter: T -> bool)
    ensures var r := Paginate(collection, filter, None, None, None);
      var ordered := NewestFirst(Filter(collection, filter));
      r.Success? && r.value.page == 1 && r.value.data == ordered[..Min(20, |ordered|)]
  {
  }
}
