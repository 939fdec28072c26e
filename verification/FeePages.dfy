/**
 The dashboard's list of fee settlements: two tables read newest first, merged into pages that share one cursor
 (core/admin/dashboard.ts). Instants are integers.
 */
module FeePages {
  import opened Wrappers

  datatype RampKind = OnrampRow | OfframpRow

  datatype Row = Row(kind: RampKind, id: nat, createdAt: int)

  datatype Page = Page(items: seq<Row>, hasMore: bool)

  datatype Listing = Listing(items: seq<Row>, nextCursor: Option<int>)

  /** Newest first. */
  predicate Descending(rows: seq<Row>) {
    forall i, j :: 0 <= i < j < |rows| ==> rows[i].createdAt >= rows[j].createdAt
  }

  // ---------- the source ----------

  /** A positive limit is capped, any other becomes the default. */
  function PageLimit(limit: Option<int>): (r: nat)
    ensures 1 <= r <= 100
  {
    if limit.Some? && limit.value > 0 then (if limit.value < 100 then limit.value else 100) else 25
  }

  predicate IsOlder(row: Row, before: Option<int>) {
    before.None? || row.createdAt < before.value
  }

  /** The rows of a table strictly before the cursor. */
  function Older(rows: seq<Row>, before: Option<int>): (r: seq<Row>)
    ensures |r| <= |rows|
  {
    if rows == [] then []
    else if IsOlder(rows[0], before) then [rows[0]] + Older(rows[1..], before)
    else Older(rows[1..], before)
  }

  /** The repositories' query: one row more than the page holds tells whether there are more. */
  function FetchPage(table: seq<Row>, limit: nat, before: Option<int>): Page {
    var rows := Older(table, before);
    if |rows| > limit then Page(rows[..limit], true) else Page(rows, false)
  }

  function Insert(row: Row, sorted: seq<Row>): seq<Row> {
    if sorted == [] || row.createdAt >= sorted[0].createdAt then [row] + sorted else [sorted[0]] + Insert(row, sorted[1..])
  }

  /** A stable sort, newest first. */
  function SortDescending(rows: seq<Row>): seq<Row> {
    if rows == [] then [] else Insert(rows[0], SortDescending(rows[1..]))
  }

  function MergePages(on: Page, off: Page, limit: nat): Listing {
    var merged := SortDescending(on.items + off.items);
    var items := if |merged| > limit then merged[..limit] else merged;
    var hasMore := |merged| > limit || on.hasMore || off.hasMore;
    Listing(items, if hasMore && items != [] then Some(items[|items| - 1].createdAt) else None)
  }

  function ListPending(on: seq<Row>, off: seq<Row>, limit: Option<int>, cursor: Option<int>): Listing {
    var n := PageLimit(limit);
    MergePages(FetchPage(on, n, cursor), FetchPage(off, n, cursor), n)
  }

  // ---------- both tables as one ----------

  /** Two sorted tables as one, rows of the first before equally old rows of the second. */
  function Merge(xs: seq<Row>, ys: seq<Row>): (r: seq<Row>)
    ensures |r| == |xs| + |ys|
    decreases |xs| + |ys|
  {
    if xs == [] then ys
    else if ys == [] then xs
    else if xs[0].createdAt >= ys[0].createdAt then [xs[0]] + Merge(xs[1..], ys)
    else [ys[0]] + Merge(xs, ys[1..])
  }

  lemma {:induction false} MergeKeepsRows(xs: seq<Row>, ys: seq<Row>)
    ensures multiset(Merge(xs, ys)) == multiset(xs) + multiset(ys)
    decreases |xs| + |ys|
  {
    if xs != [] && ys != [] {
      assert xs == [xs[0]] + xs[1..] && ys == [ys[0]] + ys[1..];
      if xs[0].createdAt >= ys[0].createdAt { MergeKeepsRows(xs[1..], ys); } else { MergeKeepsRows(xs, ys[1..]); }
    }
  }

  lemma {:induction false} MergeBounded(xs: seq<Row>, ys: seq<Row>, bound: int)
    requires forall i :: 0 <= i < |xs| ==> xs[i].createdAt <= bound
    requires forall i :: 0 <= i < |ys| ==> ys[i].createdAt <= bound
    ensures forall i :: 0 <= i < |Merge(xs, ys)| ==> Merge(xs, ys)[i].createdAt <= bound
    decreases |xs| + |ys|
  {
    if xs != [] && ys != [] {
      if xs[0].createdAt >= ys[0].createdAt { MergeBounded(xs[1..], ys, bound); } else { MergeBounded(xs, ys[1..], bound); }
    }
  }

  lemma {:induction false} MergeIsDescending(xs: seq<Row>, ys: seq<Row>)
    requires Descending(xs) && Descending(ys)
    ensures Descending(Merge(xs, ys))
    decreases |xs| + |ys|
  {
    if xs != [] && ys != [] {
      if xs[0].createdAt >= ys[0].createdAt {
        MergeIsDescending(xs[1..], ys);
        MergeBounded(xs[1..], ys, xs[0].createdAt);
      } else {
        MergeIsDescending(xs, ys[1..]);
        MergeBounded(xs, ys[1..], ys[0].createdAt);
      }
    }
  }

  lemma {:induction false} SortFixesDescending(rows: seq<Row>)
    requires Descending(rows)
    ensures SortDescending(rows) == rows
  {
    if rows != [] { SortFixesDescending(rows[1..]); }
  }

  lemma {:induction false} InsertIntoMerge(row: Row, xs: seq<Row>, ys: seq<Row>)
    requires Descending([row] + xs) && Descending(ys)
    ensures Insert(row, Merge(xs, ys)) == Merge([row] + xs, ys)
    decreases |ys|
  {
    var zs := [row] + xs;
    assert zs[1..] == xs;
    assert forall i :: 0 <= i < |xs| ==> zs[i + 1] == xs[i];
    if ys != [] && row.createdAt < ys[0].createdAt {
      InsertIntoMerge(row, xs, ys[1..]);
      assert Merge(xs, ys) == [ys[0]] + Merge(xs, ys[1..]);
      assert Merge(xs, ys)[1..] == Merge(xs, ys[1..]);
    }
  }

  /** Sorting two pages put one after the other merges them. */
  lemma {:induction false} SortMerges(xs: seq<Row>, ys: seq<Row>)
    requires Descending(xs) && Descending(ys)
    ensures SortDescending(xs + ys) == Merge(xs, ys)
    decreases |xs|
  {
    if xs == [] {
      assert xs + ys == ys;
      SortFixesDescending(ys);
    } else {
      assert (xs + ys)[1..] == xs[1..] + ys;
      SortMerges(xs[1..], ys);
      assert xs == [xs[0]] + xs[1..];
      InsertIntoMerge(xs[0], xs[1..], ys);
    }
  }

  function Take(rows: seq<Row>, n: nat): (r: seq<Row>)
    ensures |r| <= n
  {
    if |rows| > n then rows[..n] else rows
  }

  /** The first m rows of a merge need only the first m rows of each side. */
  lemma {:induction false} MergeOfPrefixes(xs: seq<Row>, ys: seq<Row>, a: nat, b: nat, m: nat)
    requires m <= a && m <= b
    ensures Take(Merge(Take(xs, a), Take(ys, b)), m) == Take(Merge(xs, ys), m)
    decreases |xs| + |ys|
  {
    if m > 0 && xs != [] && ys != [] {
      var px, py := Take(xs, a), Take(ys, b);
      assert px != [] && py != [] && px[0] == xs[0] && py[0] == ys[0];
      if xs[0].createdAt >= ys[0].createdAt {
        MergeOfPrefixes(xs[1..], ys, a - 1, b, m - 1);
        TakeTail(xs, a);
        TakeCons(xs[0], Merge(px[1..], py), m);
        TakeCons(xs[0], Merge(xs[1..], ys), m);
      } else {
        MergeOfPrefixes(xs, ys[1..], a, b - 1, m - 1);
        TakeTail(ys, b);
        TakeCons(ys[0], Merge(px, py[1..]), m);
        TakeCons(ys[0], Merge(xs, ys[1..]), m);
      }
    }
  }

  lemma TakeTail(rows: seq<Row>, n: nat)
    requires n > 0 && rows != []
    ensures Take(rows, n)[1..] == Take(rows[1..], n - 1)
  {
  }

  lemma TakeCons(row: Row, rows: seq<Row>, m: nat)
    requires m > 0
    ensures Take([row] + rows, m) == [row] + Take(rows, m - 1)
  {
  }

  lemma {:induction false} OlderInTwo(xs: seq<Row>, ys: seq<Row>, before: Option<int>)
    ensures Older(xs + ys, before) == Older(xs, before) + Older(ys, before)
  {
    if xs == [] {
      assert xs + ys == ys;
    } else {
      assert (xs + ys)[1..] == xs[1..] + ys;
      OlderInTwo(xs[1..], ys, before);
    }
  }

  /** In a sorted table the rows before a cursor are a tail: none of it, or all once a row is older. */
  lemma {:induction false} OlderThanHead(rows: seq<Row>, before: Option<int>)
    requires Descending(rows) && rows != [] && IsOlder(rows[0], before)
    ensures Older(rows, before) == rows
  {
    if |rows| > 1 { OlderThanHead(rows[1..], before); }
  }

  lemma {:induction false} OlderIsDescending(rows: seq<Row>, before: Option<int>)
    requires Descending(rows)
    ensures Descending(Older(rows, before))
  {
    if rows != [] {
      if IsOlder(rows[0], before) { OlderThanHead(rows, before); } else { OlderIsDescending(rows[1..], before); }
    }
  }

  /** Restricting to a cursor and merging commute. */
  lemma {:induction false} OlderOfMerge(xs: seq<Row>, ys: seq<Row>, before: Option<int>)
    requires Descending(xs) && Descending(ys)
    ensures Older(Merge(xs, ys), before) == Merge(Older(xs, before), Older(ys, before))
    decreases |xs| + |ys|
  {
    if xs != [] && ys != [] {
      if IsOlder(Merge(xs, ys)[0], before) {
        MergeIsDescending(xs, ys);
        OlderThanHead(Merge(xs, ys), before);
        OlderThanHead(xs, before);
        OlderThanHead(ys, before);
      } else if xs[0].createdAt >= ys[0].createdAt {
        OlderOfMerge(xs[1..], ys, before);
      } else {
        OlderOfMerge(xs, ys[1..], before);
      }
    }
  }

  lemma TakeIsDescending(rows: seq<Row>, n: nat)
    requires Descending(rows)
    ensures Descending(Take(rows, n))
  {
  }

  /** Merging two pages takes the first rows of their merge. */
  lemma MergePagesTakes(px: seq<Row>, py: seq<Row>, moreX: bool, moreY: bool, n: nat)
    requires Descending(px) && Descending(py) && n > 0 && (moreX ==> |px| == n) && (moreY ==> |py| == n)
    ensures MergePages(Page(px, moreX), Page(py, moreY), n) == FirstPage(Merge(px, py), n, moreX || moreY)
  {
    SortMerges(px, py);
  }

  /** The first n rows of a list of rows, and where to go on if there are more than those. */
  function FirstPage(rows: seq<Row>, n: nat, more: bool): Listing
    requires n > 0 && (more ==> rows != [])
  {
    var items := Take(rows, n);
    Listing(items, if |rows| > n || more then Some(items[|items| - 1].createdAt) else None)
  }

  lemma FirstPageOfPrefix(some: seq<Row>, all: seq<Row>, n: nat, more: bool)
    requires n > 0 && (more ==> some != []) && Take(some, n) == Take(all, n) && (|some| > n || more <==> |all| > n)
    ensures FirstPage(some, n, more) == FirstPage(all, n, false)
  {
  }

  /** A page of the two tables is a page of the merged table. */
  lemma PageOfMerge(on: seq<Row>, off: seq<Row>, limit: Option<int>, cursor: Option<int>)
    requires Descending(on) && Descending(off)
    ensures ListPending(on, off, limit, cursor) == FirstPage(Older(Merge(on, off), cursor), PageLimit(limit), false)
  {
    var n := PageLimit(limit);
    var xs, ys := Older(on, cursor), Older(off, cursor);
    OlderOfMerge(on, off, cursor);
    OlderIsDescending(on, cursor);
    OlderIsDescending(off, cursor);
    PageOfOlder(xs, ys, n);
    assert FetchPage(on, n, cursor) == Page(Take(xs, n), |xs| > n) && FetchPage(off, n, cursor) == Page(Take(ys, n), |ys| > n);
  }

  lemma PageOfOlder(xs: seq<Row>, ys: seq<Row>, n: nat)
    requires Descending(xs) && Descending(ys) && n > 0
    ensures MergePages(Page(Take(xs, n), |xs| > n), Page(Take(ys, n), |ys| > n), n) == FirstPage(Merge(xs, ys), n, false)
  {
    var px, py := Take(xs, n), Take(ys, n);
    TakeIsDescending(xs, n);
    TakeIsDescending(ys, n);
    MergePagesTakes(px, py, |xs| > n, |ys| > n, n);
    MergeOfPrefixes(xs, ys, n, n, n);
    FirstPageOfPrefix(Merge(px, py), Merge(xs, ys), n, |xs| > n || |ys| > n);
  }

  // ---------- following the cursor ----------

  /** All rows a reader sees who follows `nextCursor` until there is none. */
  function Follow(on: seq<Row>, off: seq<Row>, limit: Option<int>, cursor: Option<int>): seq<Row>
    requires Descending(on) && Descending(off)
    decreases |Older(Merge(on, off), cursor)|
  {
    PageOfMerge(on, off, limit, cursor);
    var page := ListPending(on, off, limit, cursor);
    if page.nextCursor.None? then page.items
    else
      NextPageIsSmaller(Merge(on, off), PageLimit(limit), cursor);
      page.items + Follow(on, off, limit, page.nextCursor)
  }

  /** The rows after the cursor's page, from the merged table's rows before the cursor. */
  lemma NextPageIsSmaller(rows: seq<Row>, n: nat, cursor: Option<int>)
    requires n > 0 && |Older(rows, cursor)| > n
    ensures var here := Older(rows, cursor);
            Older(rows, Some(here[n - 1].createdAt)) == Older(here, Some(here[n - 1].createdAt)) &&
            |Older(rows, Some(here[n - 1].createdAt))| < |here|
  {
    var here := Older(rows, cursor);
    var next := Some(here[n - 1].createdAt);
    OlderMembers(rows, cursor);
    assert IsOlder(here[n - 1], cursor);
    OlderTwice(rows, cursor, next);
    assert here == here[..n - 1] + [here[n - 1]] + here[n..];
    OlderInTwo(here[..n - 1] + [here[n - 1]], here[n..], next);
    OlderInTwo(here[..n - 1], [here[n - 1]], next);
  }

  lemma {:induction false} OlderMembers(rows: seq<Row>, before: Option<int>)
    ensures forall i :: 0 <= i < |Older(rows, before)| ==> IsOlder(Older(rows, before)[i], before)
  {
    if rows != [] { OlderMembers(rows[1..], before); }
  }

  lemma {:induction false} OlderTwice(rows: seq<Row>, before: Option<int>, next: Option<int>)
    requires next.Some? && (before.Some? ==> next.value <= before.value)
    ensures Older(Older(rows, before), next) == Older(rows, next)
  {
    if rows != [] {
      OlderTwice(rows[1..], before, next);
      assert ([rows[0]] + Older(rows[1..], before))[1..] == Older(rows[1..], before);
    }
  }

  lemma {:induction false} OlderThanNothing(rows: seq<Row>)
    ensures Older(rows, None) == rows
  {
    if rows != [] { OlderThanNothing(rows[1..]); }
  }

  /** No page of n rows ends between two rows of the same instant. */
  predicate BoundariesAreClean(rows: seq<Row>, n: nat)
    requires n > 0
    decreases |rows|
  {
    |rows| > n ==> rows[n - 1].createdAt != rows[n].createdAt && BoundariesAreClean(rows[n..], n)
  }

  /** What a reader sees of the merged rows that are still to come. */
  function Seen(rows: seq<Row>, n: nat): seq<Row>
    requires n > 0 && Descending(rows)
    decreases |rows|
  {
    if |rows| <= n then rows
    else
      OlderThanNothing(rows);
      NextPageIsSmaller(rows, n, None);
      OlderIsDescending(rows, Some(rows[n - 1].createdAt));
      rows[..n] + Seen(Older(rows, Some(rows[n - 1].createdAt)), n)
  }

  lemma {:induction false} FollowSees(on: seq<Row>, off: seq<Row>, limit: Option<int>, cursor: Option<int>)
    requires Descending(on) && Descending(off)
    ensures Descending(Older(Merge(on, off), cursor))
    ensures Follow(on, off, limit, cursor) == Seen(Older(Merge(on, off), cursor), PageLimit(limit))
    decreases |Older(Merge(on, off), cursor)|
  {
    var n := PageLimit(limit);
    var rows := Older(Merge(on, off), cursor);
    MergeIsDescending(on, off);
    OlderIsDescending(Merge(on, off), cursor);
    PageOfMerge(on, off, limit, cursor);
    if |rows| > n {
      NextPageIsSmaller(Merge(on, off), n, cursor);
      FollowSees(on, off, limit, Some(rows[n - 1].createdAt));
    }
  }

  /** Rows strictly older than the end of a prefix: the rest, less those of the same instant. */
  lemma {:induction false} RestAfter(rows: seq<Row>, n: nat)
    requires 0 < n < |rows| && Descending(rows)
    ensures var rest := Older(rows, Some(rows[n - 1].createdAt));
            if rows[n - 1].createdAt != rows[n].createdAt then rest == rows[n..] else |rest| < |rows| - n
  {
    var at := Some(rows[n - 1].createdAt);
    assert rows == rows[..n] + rows[n..];
    OlderInTwo(rows[..n], rows[n..], at);
    NoneOlder(rows[..n], at.value);
    if rows[n - 1].createdAt != rows[n].createdAt { OlderThanHead(rows[n..], at); }
  }

  lemma {:induction false} NoneOlder(rows: seq<Row>, at: int)
    requires forall i :: 0 <= i < |rows| ==> rows[i].createdAt >= at
    ensures Older(rows, Some(at)) == []
  {
    if rows != [] { NoneOlder(rows[1..], at); }
  }

  lemma {:induction false} SeenExactly(rows: seq<Row>, n: nat)
    requires n > 0 && Descending(rows)
    ensures |Seen(rows, n)| <= |rows|
    ensures BoundariesAreClean(rows, n) ==> Seen(rows, n) == rows
    ensures !BoundariesAreClean(rows, n) ==> |Seen(rows, n)| < |rows|
    decreases |rows|
  {
    if |rows| > n {
      var rest := Older(rows, Some(rows[n - 1].createdAt));
      RestAfter(rows, n);
      OlderThanNothing(rows);
      NextPageIsSmaller(rows, n, None);
      OlderIsDescending(rows, Some(rows[n - 1].createdAt));
      SeenExactly(rest, n);
      hide Older, Descending;
      assert rows == rows[..n] + rows[n..];
      assert Seen(rows, n)[n..] == Seen(rest, n);
    }
  }

  /**
   Following the cursor from the start visits every row of both tables exactly once, newest first, if and only if no
   page boundary falls between two rows of the same instant. (That it ends is `Follow`'s own termination.)
   */
  lemma FollowVisitsAllExactly(on: seq<Row>, off: seq<Row>, limit: Option<int>)
    requires Descending(on) && Descending(off)
    ensures multiset(Follow(on, off, limit, None)) == multiset(on) + multiset(off) <==>
              BoundariesAreClean(Merge(on, off), PageLimit(limit))
    ensures BoundariesAreClean(Merge(on, off), PageLimit(limit)) ==> Descending(Follow(on, off, limit, None))
  {
    var rows := Merge(on, off);
    var all := Follow(on, off, limit, None);
    OlderThanNothing(rows);
    FollowSees(on, off, limit, None);
    MergeIsDescending(on, off);
    MergeKeepsRows(on, off);
    SeenExactly(rows, PageLimit(limit));
    assert |multiset(all)| == |all| && |multiset(rows)| == |rows|;
  }

  predicate DistinctInstants(rows: seq<Row>) {
    forall i, j :: 0 <= i < j < |rows| ==> rows[i].createdAt != rows[j].createdAt
  }

  /** In particular when all instants differ. */
  lemma DistinctInstantsAreAllVisited(on: seq<Row>, off: seq<Row>, limit: Option<int>)
    requires Descending(on) && Descending(off) && DistinctInstants(on + off)
    ensures multiset(Follow(on, off, limit, None)) == multiset(on) + multiset(off)
    ensures Descending(Follow(on, off, limit, None))
  {
    assert forall i :: 0 <= i < |on| ==> (on + off)[i] == on[i];
    assert forall i :: 0 <= i < |off| ==> (on + off)[|on| + i] == off[i];
    MergeIsDistinct(on, off);
    StrictIsClean(Merge(on, off), PageLimit(limit));
    FollowVisitsAllExactly(on, off, limit);
  }

  lemma {:induction false} MergeIsDistinct(xs: seq<Row>, ys: seq<Row>)
    requires DistinctInstants(xs) && DistinctInstants(ys)
    requires forall i, j :: 0 <= i < |xs| && 0 <= j < |ys| ==> xs[i].createdAt != ys[j].createdAt
    ensures DistinctInstants(Merge(xs, ys))
    decreases |xs| + |ys|
  {
    if xs != [] && ys != [] {
      var x := xs[0].createdAt >= ys[0].createdAt;
      var head, rx, ry := if x then xs[0] else ys[0], if x then xs[1..] else xs, if x then ys else ys[1..];
      MergeIsDistinct(rx, ry);
      MergeKeepsRows(rx, ry);
      var rest := Merge(rx, ry);
      forall i | 0 <= i < |rest| ensures rest[i].createdAt != head.createdAt {
        assert rest[i] in multiset(rest);
        assert rest[i] in rx || rest[i] in ry;
      }
    }
  }

  lemma {:induction false} StrictIsClean(rows: seq<Row>, n: nat)
    requires n > 0 && DistinctInstants(rows)
    ensures BoundariesAreClean(rows, n)
    decreases |rows|
  {
    if |rows| > n { StrictIsClean(rows[n..], n); }
  }
}
