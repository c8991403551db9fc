/** `getEntriesFromNotionDatabase`: queries the database page by page,
    passing each page's `next_cursor` to the next query, until a page's
    cursor is falsy. The database is given as the finite sequence of pages it
    answers with, in query order; a query past the end of that sequence is a
    failed request, which aborts the whole loop. */
module Pagination {
  import opened Wrappers

  /** One answer of `notion.databases.query`: `{results, next_cursor}`. */
  datatype Page<T> = Page(results: seq<T>, nextCursor: Option<string>)

  /** `!next_cursor`: absent, `null` or the empty string. */
  predicate Falsy(cursor: Option<string>) {
    cursor.None? || cursor.value == ""
  }

  function Prepend<T>(prefix: seq<T>, r: Option<seq<T>>): Option<seq<T>> {
    match r
    case None => None
    case Some(rest) => Some(prefix + rest)
  }

  lemma PrependAppend<T>(a: seq<T>, b: seq<T>, r: Option<seq<T>>)
    ensures Prepend(a, Prepend(b, r)) == Prepend(a + b, r)
    ensures Prepend([], r) == r
  {
    if r.Some? {
      assert a + (b + r.value) == (a + b) + r.value;
      assert [] + r.value == r.value;
    }
  }

  /** What the loop collects when its next query is answered by `source[i]`:
      `None` when a query fails before a falsy cursor is seen. */
  function CollectFrom<T>(source: seq<Page<T>>, i: nat): Option<seq<T>>
    decreases |source| - i
  {
    if i >= |source| then None
    else if Falsy(source[i].nextCursor) then Some(source[i].results)
    else Prepend(source[i].results, CollectFrom(source, i + 1))
  }

  /** The `results` of the given pages, concatenated in order. */
  function Concat<T>(pages: seq<Page<T>>): seq<T> {
    if pages == [] then [] else pages[0].results + Concat(pages[1..])
  }

  /** The sum of the page sizes. */
  function TotalSize<T>(pages: seq<Page<T>>): nat {
    if pages == [] then 0 else |pages[0].results| + TotalSize(pages[1..])
  }

  /** Page `n` is the first page whose cursor is falsy. */
  ghost predicate StopsAt<T>(source: seq<Page<T>>, n: int) {
    && 0 <= n < |source|
    && Falsy(source[n].nextCursor)
    && forall j :: 0 <= j < n ==> !Falsy(source[j].nextCursor)
  }

  lemma {:induction false} CollectFromStops<T>(source: seq<Page<T>>, i: nat, n: nat)
    requires i <= n < |source| && Falsy(source[n].nextCursor)
    requires forall j :: i <= j < n ==> !Falsy(source[j].nextCursor)
    ensures CollectFrom(source, i) == Some(Concat(source[i..n + 1]))
    decreases n - i
  {
    var pages := source[i..n + 1];
    assert pages[0] == source[i];
    if i < n {
      CollectFromStops(source, i + 1, n);
      assert pages[1..] == source[i + 1..n + 1];
    } else {
      assert pages[1..] == [];
      assert Concat(pages[1..]) == [];
      assert Concat(pages) == source[i].results + [] == source[i].results;
    }
  }

  /** The loop succeeds when some page has a falsy cursor, and its result is
      the concatenation of every page up to and including the first such
      page. */
  lemma CollectStops<T>(source: seq<Page<T>>, n: int)
    requires StopsAt(source, n)
    ensures CollectFrom(source, 0) == Some(Concat(source[..n + 1]))
  {
    CollectFromStops(source, 0, n);
    assert source[0..n + 1] == source[..n + 1];
  }

  /** The loop fails when every page it receives carries a cursor. */
  lemma {:induction false} CollectFails<T>(source: seq<Page<T>>, i: nat)
    requires forall j :: i <= j < |source| ==> !Falsy(source[j].nextCursor)
    ensures CollectFrom(source, i) == None
    decreases |source| - i
  {
    if i < |source| {
      CollectFails(source, i + 1);
    }
  }

  /** The number of entries collected is the sum of the page sizes. */
  lemma {:induction false} ConcatSize<T>(pages: seq<Page<T>>)
    ensures |Concat(pages)| == TotalSize(pages)
  {
    if pages != [] {
      ConcatSize(pages[1..]);
    }
  }

  /** The `while (true)` loop. Besides the entries it returns the cursor each
      query was sent with: `undefined` first, then the previous page's
      `next_cursor`. */
  method GetEntriesFromNotionDatabase<T>(source: seq<Page<T>>) returns (r: Option<seq<T>>, cursors: seq<Option<string>>)
    ensures r == CollectFrom(source, 0)
    ensures 0 < |cursors| <= |source| + 1 && cursors[0] == None
    ensures forall i :: 0 < i < |cursors| ==> cursors[i] == source[i - 1].nextCursor && !Falsy(cursors[i])
    ensures r.Some? ==> StopsAt(source, |cursors| - 1)
    ensures r.None? ==> |cursors| == |source| + 1
  {
    var pages: seq<T> := [];
    var cursor: Option<string> := None;
    var i := 0;
    cursors := [];
    PrependAppend(pages, pages, CollectFrom(source, 0));
    while true
      invariant 0 <= i <= |source|
      invariant |cursors| == i
      invariant forall j :: 0 <= j < i ==> !Falsy(source[j].nextCursor)
      invariant 0 < i ==> cursors[0] == None
      invariant forall j :: 0 < j < i ==> cursors[j] == source[j - 1].nextCursor
      invariant cursor == if i == 0 then None else source[i - 1].nextCursor
      invariant CollectFrom(source, 0) == Prepend(pages, CollectFrom(source, i))
      decreases |source| - i
    {
      cursors := cursors + [cursor];
      if i == |source| {
        r := None;
        return;
      }
      var page := source[i];
      PrependAppend(pages, page.results, CollectFrom(source, i + 1));
      pages := pages + page.results;
      if Falsy(page.nextCursor) {
        r := Some(pages);
        return;
      }
      cursor := page.nextCursor;
      i := i + 1;
    }
  }
}
