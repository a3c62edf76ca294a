/** The paging check: every page of a report, its total, and each row once. */
module PagingCheck {
  import opened Ordering
  import opened Text
  import opened PageWalk
  import opened CheckReport

  function TotalField(offset: nat): string { "totalCount@offset=" + Decimal(offset) }

  function TotalDiffs(n: nat, offset: nat, p: Response<string>): seq<Diff>
  {
    if p.Failed? || p.total == n then [] else [Diff(TotalField(offset), "", Number(n), Number(p.total), FailLevel)]
  }

  function TwiceDiff(id: string): Diff { Diff("row", id, Once, Twice, FailLevel) }

  /** The rows already seen when their turn comes. */
  function RepeatDiffs(seen: set<string>, rows: seq<string>): seq<Diff>
  {
    if rows == [] then []
    else
      RepeatDiffs(seen, rows[..|rows| - 1])
      + (if rows[|rows| - 1] in seen + Elements(rows[..|rows| - 1]) then [TwiceDiff(rows[|rows| - 1])] else [])
  }

  /** What the walk over answered pages records, in order. */
  function PagingDiffs(n: nat, pages: seq<Response<string>>): seq<Diff>
  {
    if pages == [] then []
    else
      var (init, p) := (pages[..|pages| - 1], pages[|pages| - 1]);
      PagingDiffs(n, init)
      + (TotalDiffs(n, |RowsOf(init)|, p) + (if p.Page? then RepeatDiffs(Elements(RowsOf(init)), p.rows) else []))
  }

  function SizeDiffs(n: nat, seen: nat): seq<Diff>
  {
    if n == seen then [] else [Diff("rowsAcrossPages", "", Number(n), Number(seen), FailLevel)]
  }

  lemma {:induction false} RepeatStep(start: Record, seen: set<string>, rows: seq<string>, i: nat)
    requires i < |rows|
    ensures Elements(rows[..i + 1]) == Elements(rows[..i]) + {rows[i]}
    ensures RecordedAll(start, RepeatDiffs(seen, rows[..i + 1]))
            == var r := RecordedAll(start, RepeatDiffs(seen, rows[..i]));
               if rows[i] in seen + Elements(rows[..i]) then Recorded(r, TwiceDiff(rows[i])) else r
  {
    var (was, one) := (RepeatDiffs(seen, rows[..i]), [TwiceDiff(rows[i])]);
    assert rows[..i + 1] == rows[..i] + [rows[i]] && rows[..i + 1][..i] == rows[..i];
    RecordedConcat(start, was, one);
    assert one[..0] == [] && was + [] == was;
  }

  method NoteRepeats(c: Check, seen: set<string>, rows: seq<string>) returns (now: set<string>)
    modifies c
    ensures now == seen + Elements(rows)
    ensures c.Value() == RecordedAll(old(c.Value()), RepeatDiffs(seen, rows))
  {
    now := seen;
    ghost var start := c.Value();
    for i := 0 to |rows|
      invariant now == seen + Elements(rows[..i]) && c.Value() == RecordedAll(start, RepeatDiffs(seen, rows[..i]))
    {
      RepeatStep(start, seen, rows, i);
      if rows[i] in now {
        c.Differ("row", rows[i], Once, Twice);
      }
      now := now + {rows[i]};
    }
    assert rows[..|rows|] == rows;
  }

  /** One page's totals and rows. */
  method NotePage(c: Check, n: nat, offset: nat, seen: set<string>, p: Response<string>) returns (now: set<string>)
    requires p.Page?
    modifies c
    ensures now == seen + Elements(p.rows)
    ensures c.Value() == RecordedAll(old(c.Value()), TotalDiffs(n, offset, p) + RepeatDiffs(seen, p.rows))
  {
    ghost var start := c.Value();
    var _ := c.Equal(TotalField(offset), "", Number(n), Number(p.total));
    RecordedConcat(start, TotalDiffs(n, offset, p), RepeatDiffs(seen, p.rows));
    now := NoteRepeats(c, seen, p.rows);
  }

  lemma {:induction false} FailedAddsNothing(n: nat, pages: seq<Response<string>>, p: Response<string>)
    requires p.Failed?
    ensures PagingDiffs(n, pages + [p]) == PagingDiffs(n, pages) && RowsOf(pages + [p]) == RowsOf(pages)
  {
    assert (pages + [p])[..|pages|] == pages;
  }

  /** The check after the pages read so far. */
  ghost predicate Noted(r: Record, start: Record, n: nat, pages: seq<Response<string>>, seen: set<string>)
  {
    r == RecordedAll(start, PagingDiffs(n, pages)) && seen == Elements(RowsOf(pages))
  }

  lemma {:induction false} PagingStep(n: nat, pages: seq<Response<string>>, p: Response<string>)
    requires p.Page?
    ensures PagingDiffs(n, pages + [p])
            == PagingDiffs(n, pages)
               + (TotalDiffs(n, |RowsOf(pages)|, p) + RepeatDiffs(Elements(RowsOf(pages)), p.rows))
    ensures Elements(RowsOf(pages + [p])) == Elements(RowsOf(pages)) + Elements(p.rows)
  {
    assert (pages + [p])[..|pages|] == pages;
  }

  lemma {:induction false} NotedStep(n: nat, offset: nat, pages: seq<Response<string>>, p: Response<string>, r: Record,
                                     start: Record, seen: set<string>)
    requires p.Page? && Noted(r, start, n, pages, seen) && offset == |RowsOf(pages)|
    ensures Noted(RecordedAll(r, TotalDiffs(n, offset, p) + RepeatDiffs(seen, p.rows)), start, n, pages + [p],
                  seen + Elements(p.rows))
  {
    PagingStep(n, pages, p);
    RecordedConcat(start, PagingDiffs(n, pages), TotalDiffs(n, offset, p) + RepeatDiffs(seen, p.rows));
  }

  method NoteNext(c: Check, n: nat, offset: nat, seen: set<string>, p: Response<string>, ghost start: Record,
                  ghost pages: seq<Response<string>>)
    returns (now: set<string>)
    requires p.Page? && Noted(c.Value(), start, n, pages, seen) && offset == |RowsOf(pages)|
    modifies c
    ensures Noted(c.Value(), start, n, pages + [p], now)
  {
    NotedStep(n, offset, pages, p, c.Value(), start, seen);
    now := NotePage(c, n, offset, seen, p);
  }

  /** The walk: every page noted as it comes, until the last or a failure. */
  method NotePages(c: Check, n: nat, serve: nat -> Response<string>, ghost bound: nat)
    returns (failed: bool, seen: set<string>, ghost pages: seq<Response<string>>)
    requires Bounded(serve, bound) && AlwaysPresent(serve)
    modifies c
    ensures IsWalk(serve, pages) && (failed <==> ListingOf(pages).RequestFailed?)
    ensures Noted(c.Value(), old(c.Value()), n, pages, seen)
  {
    seen, pages := {}, [];
    var offset: nat := 0;
    ghost var start := c.Value();
    while true
      invariant Walking(serve, pages) && offset == |RowsOf(pages)| && Noted(c.Value(), start, n, pages, seen)
      decreases bound - offset
    {
      var page := serve(offset);
      if page.Failed? {
        FailedAddsNothing(n, pages, page);
        pages := pages + [page];
        return true, seen, pages;
      }
      seen := NoteNext(c, n, offset, seen, page, start, pages);
      pages := pages + [page];
      offset := offset + |page.rows|;
      if |page.rows| == 0 || offset >= page.total {
        return false, seen, pages;
      }
    }
  }

  /** Walks the pages; every difference found on the way is recorded; a failed request
      then makes the check an error, the last page adds the number of rows. */
  method CheckCompliancePaging(c: Check, n: nat, serve: nat -> Response<string>, ghost bound: nat)
    returns (ghost pages: seq<Response<string>>)
    requires Bounded(serve, bound) && AlwaysPresent(serve)
    modifies c
    ensures n == 0 ==> c.Value() == old(c.Value()).(outcome := if old(c.outcome).Pass? then Skip else old(c.outcome))
    ensures n > 0 ==> IsWalk(serve, pages)
    ensures n > 0 && ListingOf(pages).RequestFailed? ==>
              c.Value() == RecordedAll(old(c.Value()), PagingDiffs(n, pages)).(outcome := Error)
    ensures n > 0 && ListingOf(pages).Listed? ==> c.Value() == RecordedAll(old(c.Value()), AllPagingDiffs(n, pages))
  {
    pages := [];
    if n == 0 {
      c.Skipped();
      return;
    }
    ghost var start := c.Value();
    var failed, seen;
    failed, seen, pages := NotePages(c, n, serve, bound);
    if failed {
      c.Erred();
      return;
    }
    RecordedConcat(start, PagingDiffs(n, pages), SizeDiffs(n, |seen|));
    var _ := c.Equal("rowsAcrossPages", "", Number(n), Number(|seen|));
  }

  function AllPagingDiffs(n: nat, pages: seq<Response<string>>): seq<Diff>
  {
    PagingDiffs(n, pages) + SizeDiffs(n, |Elements(RowsOf(pages))|)
  }

  // ----- what a difference tells ------------------------------------------

  /** The page whose total differs, where it begins, and both numbers. */
  ghost predicate TellsTotal(d: Diff, n: nat, pages: seq<Response<string>>)
  {
    exists i :: 0 <= i < |pages| && TellsTotalOf(d, n, pages, i)
  }

  ghost predicate TellsTotalOf(d: Diff, n: nat, pages: seq<Response<string>>, i: nat)
    requires i < |pages|
  {
    && pages[i].Page? && pages[i].total != n
    && d == Diff("totalCount@offset=" + Decimal(|RowsOf(pages[..i])|), "", Number(n), Number(pages[i].total), FailLevel)
  }

  /** A row that is in the pages more than once. */
  ghost predicate TellsRepeat(d: Diff, pages: seq<Response<string>>)
  {
    d == Diff("row", d.key, Once, Twice, FailLevel) && multiset(RowsOf(pages))[d.key] > 1
  }

  lemma {:induction false} RepeatTells(seen: set<string>, rows: seq<string>, d: Diff)
    requires d in RepeatDiffs(seen, rows)
    ensures d == TwiceDiff(d.key) && (d.key in seen || multiset(rows)[d.key] > 1) && d.key in rows
  {
    var (init, last) := (rows[..|rows| - 1], rows[|rows| - 1]);
    assert rows == init + [last];
    if d in RepeatDiffs(seen, init) {
      RepeatTells(seen, init, d);
    } else if last in init {
      assert multiset(init)[last] > 0;
    }
  }

  /** Every difference noted on the way tells a page's total or a repeated row. */
  lemma {:induction false} PagingDifferencesTell(n: nat, pages: seq<Response<string>>, d: Diff)
    requires d in PagingDiffs(n, pages)
    ensures TellsTotal(d, n, pages) || TellsRepeat(d, pages)
  {
    var (init, p) := (pages[..|pages| - 1], pages[|pages| - 1]);
    if d in PagingDiffs(n, init) {
      PagingDifferencesTell(n, init, d);
      EarlierTells(n, pages, d);
    } else if d in TotalDiffs(n, |RowsOf(init)|, p) {
      assert TellsTotalOf(d, n, pages, |init|);
    } else {
      RepeatTells(Elements(RowsOf(init)), p.rows, d);
      TwiceInBoth(RowsOf(init), p.rows, d.key);
    }
  }

  lemma TwiceInBoth(a: seq<string>, b: seq<string>, k: string)
    requires k in b && (k in Elements(a) || multiset(b)[k] > 1)
    ensures multiset(a + b)[k] > 1
  {
    assert multiset(b)[k] > 0 && (k in a ==> multiset(a)[k] > 0);
  }

  lemma EarlierTells(n: nat, pages: seq<Response<string>>, d: Diff)
    requires pages != []
    requires TellsTotal(d, n, pages[..|pages| - 1]) || TellsRepeat(d, pages[..|pages| - 1])
    ensures TellsTotal(d, n, pages) || TellsRepeat(d, pages)
  {
    var init := pages[..|pages| - 1];
    if TellsTotal(d, n, init) {
      var i :| 0 <= i < |init| && TellsTotalOf(d, n, init, i);
      assert init[..i] == pages[..i] && TellsTotalOf(d, n, pages, i);
    } else {
      assert multiset(RowsOf(pages))[d.key] >= multiset(RowsOf(init))[d.key];
    }
  }

  lemma {:induction false} NoRepeatsIff(seen: set<string>, rows: seq<string>)
    ensures RepeatDiffs(seen, rows) == [] <==> Distinct(rows) && forall k :: k in rows ==> k !in seen
  {
    if rows != [] {
      var (init, last) := (rows[..|rows| - 1], rows[|rows| - 1]);
      NoRepeatsIff(seen, init);
      assert rows == init + [last];
      if Distinct(init) && last !in init {
        assert Distinct(rows);
      }
      if Distinct(rows) {
        assert Distinct(init);
        assert forall i :: 0 <= i < |init| ==> init[i] == rows[i] && rows[i] != last;
      }
    }
  }

  lemma {:induction false} NoMoreDiffsIff(n: nat, pages: seq<Response<string>>, p: Response<string>)
    requires p.Page?
    ensures PagingDiffs(n, pages + [p]) == []
            <==> PagingDiffs(n, pages) == [] && p.total == n
                 && Distinct(p.rows) && forall k :: k in p.rows ==> k !in Elements(RowsOf(pages))
  {
    NoRepeatsIff(Elements(RowsOf(pages)), p.rows);
  }

  lemma {:induction false} NoPagingDiffsIff(n: nat, pages: seq<Response<string>>)
    requires AllAnswered(pages)
    ensures PagingDiffs(n, pages) == []
            <==> Distinct(RowsOf(pages)) && forall i :: 0 <= i < |pages| ==> pages[i].total == n
  {
    if pages != [] {
      var (init, p) := (pages[..|pages| - 1], pages[|pages| - 1]);
      NoPagingDiffsIff(n, init);
      assert pages == init + [p];
      NoMoreDiffsIff(n, init, p);
      DistinctConcat(RowsOf(init), p.rows);
      assert forall i :: 0 <= i < |init| ==> init[i] == pages[i];
    }
  }

  lemma DistinctConcat(a: seq<string>, b: seq<string>)
    ensures Distinct(a + b) <==> Distinct(a) && Distinct(b) && forall k :: k in b ==> k !in Elements(a)
  {
    if Distinct(a + b) {
      PartsAreDistinct(a, b);
    }
    if Distinct(a) && Distinct(b) && forall k :: k in b ==> k !in Elements(a) {
      WholeIsDistinct(a, b);
    }
  }

  lemma WholeIsDistinct(a: seq<string>, b: seq<string>)
    requires Distinct(a) && Distinct(b) && forall k :: k in b ==> k !in Elements(a)
    ensures Distinct(a + b)
  {
    var c := a + b;
    forall i, j | 0 <= i < j < |c| ensures c[i] != c[j] {
      if j < |a| {
        assert c[i] == a[i] && c[j] == a[j];
      } else if i >= |a| {
        assert c[i] == b[i - |a|] && c[j] == b[j - |a|];
      } else {
        assert a[i] in Elements(a) && b[j - |a|] in b;
      }
    }
  }

  lemma PartsAreDistinct(a: seq<string>, b: seq<string>)
    requires Distinct(a + b)
    ensures Distinct(a) && Distinct(b) && forall k :: k in b ==> k !in Elements(a)
  {
    var c := a + b;
    forall i, j | 0 <= i < j < |a| ensures a[i] != a[j] {
      assert c[i] == a[i] && c[j] == a[j];
    }
    forall i, j | 0 <= i < j < |b| ensures b[i] != b[j] {
      assert c[|a| + i] == b[i] && c[|a| + j] == b[j];
    }
    forall i, j | 0 <= i < |a| && 0 <= j < |b| ensures a[i] != b[j] {
      assert c[i] == a[i] && c[|a| + j] == b[j];
    }
  }

  lemma {:induction false} NothingRecordedIff(ds: seq<Diff>)
    ensures RecordedAll(CLEAN, ds) == CLEAN <==> ds == []
  {
    CapLosesNothing(ds);
  }

  /** A clean check that walks all pages stays clean exactly when every page
      tells the expected total and the pages together hold that many rows, each
      once. */
  lemma {:induction false} PagingPassesIff(n: nat, pages: seq<Response<string>>)
    requires AllAnswered(pages)
    ensures RecordedAll(CLEAN, AllPagingDiffs(n, pages)) == CLEAN
            <==> (forall i :: 0 <= i < |pages| ==> pages[i].total == n) && Distinct(RowsOf(pages))
                 && |RowsOf(pages)| == n
  {
    NothingRecordedIff(AllPagingDiffs(n, pages));
    NoPagingDiffsIff(n, pages);
    if Distinct(RowsOf(pages)) {
      DistinctSize(RowsOf(pages));
    }
  }

  /** Against an honest server the check passes exactly when the server's list
      has the expected length and no row twice. */
  lemma HonestPagingPassesIff(n: nat, serve: nat -> Response<string>, list: seq<string>, pages: seq<Response<string>>)
    requires Honest(serve, list) && IsWalk(serve, pages)
    ensures RecordedAll(CLEAN, AllPagingDiffs(n, pages)) == CLEAN <==> |list| == n && Distinct(list)
  {
    HonestWalkReadsList(serve, list, pages);
    WalkedPagesAnswered(serve, pages);
    PagingPassesIff(n, pages);
    HonestTotals(serve, list, pages);
  }

  lemma {:induction false} HonestTotals(serve: nat -> Response<string>, list: seq<string>, pages: seq<Response<string>>)
    requires Honest(serve, list) && (Walking(serve, pages) || IsWalk(serve, pages)) && AllAnswered(pages)
    ensures forall i :: 0 <= i < |pages| ==> pages[i].total == |list|
  {
    if pages != [] {
      var (init, p) := (pages[..|pages| - 1], pages[|pages| - 1]);
      assert forall i :: 0 <= i < |init| ==> init[i] == pages[i];
      HonestTotals(serve, list, init);
      assert HonestAt(serve(|RowsOf(init)|), list, |RowsOf(init)|);
    }
  }
}
