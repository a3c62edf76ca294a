/** Reading a paged list to its end, over any server. */
module PageWalk {

  /** One answer: a failed request, or rows with the total the server reports. */
  datatype Response<+T> = Failed | Page(rows: seq<T>, total: int, present: bool)

  datatype Listing<+T> = RequestFailed | Listed(rows: seq<T>)

  /** Reported totals stay below some bound; without that a walk need not end. */
  ghost predicate Bounded<T>(serve: nat -> Response<T>, bound: nat)
  {
    forall o: nat :: serve(o).Page? ==> serve(o).total <= bound
  }

  /** The walk stops on an empty page, on an answer without pagination, and when
      the offset has reached the reported total. */
  predicate IsLast<T>(p: Response<T>, offset: nat)
    requires p.Page?
  {
    |p.rows| == 0 || !p.present || offset + |p.rows| >= p.total
  }

  function RowsOf<T>(pages: seq<Response<T>>): seq<T>
  {
    if pages == [] then []
    else RowsOf(pages[..|pages| - 1]) + (if pages[|pages| - 1].Page? then pages[|pages| - 1].rows else [])
  }

  /** Each page was asked for at the number of rows read before it, and another
      page follows. */
  ghost predicate Walking<T>(serve: nat -> Response<T>, pages: seq<Response<T>>)
  {
    pages == []
    || var (init, p) := (pages[..|pages| - 1], pages[|pages| - 1]);
       Walking(serve, init) && p == serve(|RowsOf(init)|) && p.Page? && !IsLast(p, |RowsOf(init)|)
  }

  /** A whole walk: its last page is a failure or the last one. */
  ghost predicate IsWalk<T>(serve: nat -> Response<T>, pages: seq<Response<T>>)
  {
    pages != []
    && var (init, p) := (pages[..|pages| - 1], pages[|pages| - 1]);
       Walking(serve, init) && p == serve(|RowsOf(init)|) && (p.Failed? || IsLast(p, |RowsOf(init)|))
  }

  /** What a walk returns: all rows in the order read, or the failure. */
  function ListingOf<T>(pages: seq<Response<T>>): Listing<T>
    requires pages != []
  {
    if pages[|pages| - 1].Failed? then RequestFailed else Listed(RowsOf(pages))
  }

  lemma {:induction false} PrefixWalks<T>(serve: nat -> Response<T>, pages: seq<Response<T>>, k: nat)
    requires Walking(serve, pages) && k <= |pages|
    ensures Walking(serve, pages[..k])
  {
    if k < |pages| {
      PrefixWalks(serve, pages[..|pages| - 1], k);
      assert pages[..|pages| - 1][..k] == pages[..k];
    } else {
      assert pages[..k] == pages;
    }
  }

  lemma {:induction false} WalkingPrefix<T>(serve: nat -> Response<T>, a: seq<Response<T>>, b: seq<Response<T>>)
    requires Walking(serve, a) && Walking(serve, b) && |a| <= |b|
    ensures a == b[..|a|]
  {
    if a != [] {
      var k := |a| - 1;
      WalkingPrefix(serve, a[..k], b);
      PrefixWalks(serve, b, |a|);
      assert b[..|a|][..k] == b[..k] && b[..|a|][k] == b[k];
      assert a == a[..k] + [a[k]] && b[..|a|] == b[..k] + [b[k]];
    }
  }

  /** A walk that goes on has not come to where a whole walk ends. */
  lemma {:induction false} WalkIsLonger<T>(serve: nat -> Response<T>, a: seq<Response<T>>, w: seq<Response<T>>)
    requires IsWalk(serve, a) && Walking(serve, w)
    ensures |w| < |a|
  {
    var k := |a| - 1;
    var m := if |w| < |a| then |w| else |a|;
    PrefixWalks(serve, w, m);
    if m > k {
      WalkingPrefix(serve, a[..k], w[..m]);
      assert false;
    }
  }

  /** Whatever the server, there is one walk to read. */
  lemma WalkIsUnique<T>(serve: nat -> Response<T>, a: seq<Response<T>>, b: seq<Response<T>>)
    requires IsWalk(serve, a) && IsWalk(serve, b)
    ensures a == b
  {
    var k := |a| - 1;
    WalkIsLonger(serve, a, b[..|b| - 1]);
    WalkIsLonger(serve, b, a[..k]);
    WalkingPrefix(serve, a[..k], b[..k]);
    assert b[..k][..k] == b[..k] && a == a[..k] + [a[k]] && b == b[..k] + [b[k]];
  }

  /** Page `i` was asked for where the pages before it ended, and is the last one
      exactly when it failed, is empty, tells no total or completes the total it tells. */
  ghost predicate AskedAt<T>(serve: nat -> Response<T>, pages: seq<Response<T>>, i: nat)
    requires i < |pages|
  {
    var (p, o) := (pages[i], |RowsOf(pages[..i])|);
    && p == serve(o)
    && (i == |pages| - 1 <==> p.Failed? || p.rows == [] || !p.present || o + |p.rows| >= p.total)
  }

  /** A walk is whole if and only if each of its pages was asked for in turn and
      only the last one ends it. */
  lemma WalkIff<T>(serve: nat -> Response<T>, pages: seq<Response<T>>)
    requires pages != []
    ensures IsWalk(serve, pages) <==> forall i :: 0 <= i < |pages| ==> AskedAt(serve, pages, i)
  {
    var k := |pages| - 1;
    WalkingIff(serve, pages, k);
    forall i | 0 <= i < k ensures GoesOn(serve, pages, i) <==> AskedAt(serve, pages, i) {
    }
    assert IsWalk(serve, pages) <==> Walking(serve, pages[..k]) && AskedAt(serve, pages, k);
    if forall i :: 0 <= i < |pages| ==> AskedAt(serve, pages, i) {
      assert AskedAt(serve, pages, k) && forall i :: 0 <= i < k ==> GoesOn(serve, pages, i);
    }
  }

  ghost predicate GoesOn<T>(serve: nat -> Response<T>, pages: seq<Response<T>>, i: nat)
    requires i < |pages|
  {
    var (p, o) := (pages[i], |RowsOf(pages[..i])|);
    p == serve(o) && p.Page? && !IsLast(p, o)
  }

  lemma {:induction false} WalkingIff<T>(serve: nat -> Response<T>, pages: seq<Response<T>>, n: nat)
    requires n <= |pages|
    ensures Walking(serve, pages[..n]) <==> forall i :: 0 <= i < n ==> GoesOn(serve, pages, i)
  {
    if n > 0 {
      WalkingIff(serve, pages, n - 1);
      assert pages[..n][..n - 1] == pages[..n - 1];
      assert Walking(serve, pages[..n]) <==> Walking(serve, pages[..n - 1]) && GoesOn(serve, pages, n - 1);
    }
  }

  /** Everything the answers of a server make a walk return. */
  ghost predicate IsListing<T(!new)>(serve: nat -> Response<T>, r: Listing<T>)
  {
    && (exists pages :: IsWalk(serve, pages))
    && forall pages :: IsWalk(serve, pages) ==> r == ListingOf(pages)
  }

  lemma WalkGivesListing<T(!new)>(serve: nat -> Response<T>, pages: seq<Response<T>>)
    requires IsWalk(serve, pages)
    ensures IsListing(serve, ListingOf(pages))
  {
    forall other | IsWalk(serve, other) ensures other == pages {
      WalkIsUnique(serve, other, pages);
    }
  }

  /** `verifyListAll` and, with its narration left out, `verifyInstances`. */
  method ListAll<T(!new)>(serve: nat -> Response<T>, ghost bound: nat) returns (r: Listing<T>)
    requires Bounded(serve, bound)
    ensures IsListing(serve, r)
  {
    var out: seq<T> := [];
    var offset: nat := 0;
    ghost var pages: seq<Response<T>> := [];
    while true
      invariant Walking(serve, pages) && out == RowsOf(pages) && offset == |out|
      decreases bound - offset
    {
      var page := serve(offset);
      pages := pages + [page];
      if page.Failed? {
        WalkGivesListing(serve, pages);
        return RequestFailed;
      }
      out := out + page.rows;
      offset := offset + |page.rows|;
      if |page.rows| == 0 || !page.present || offset >= page.total {
        WalkGivesListing(serve, pages);
        return Listed(out);
      }
    }
  }

  /** `listTaskInstances` compares the rows it holds with the total instead. */
  method ListTaskInstances<T(!new)>(serve: nat -> Response<T>, ghost bound: nat)
    returns (r: Listing<T>)
    requires Bounded(serve, bound)
    ensures IsListing(serve, r)
  {
    var all: seq<T> := [];
    var offset: nat := 0;
    ghost var pages: seq<Response<T>> := [];
    while true
      invariant Walking(serve, pages) && all == RowsOf(pages) && offset == |all|
      decreases bound - offset
    {
      var page := serve(offset);
      pages := pages + [page];
      if page.Failed? {
        WalkGivesListing(serve, pages);
        return RequestFailed;
      }
      all := all + page.rows;
      if |page.rows| == 0 || !page.present || |all| >= page.total {
        WalkGivesListing(serve, pages);
        return Listed(all);
      }
      offset := offset + |page.rows|;
    }
  }

  /** Report payloads always carry their total. */
  ghost predicate AlwaysPresent<T>(serve: nat -> Response<T>) { forall o: nat :: serve(o).Page? ==> serve(o).present }

  /** `verifyReportPages`: the pages themselves, in order. */
  method ReportPages<T>(serve: nat -> Response<T>, ghost bound: nat) returns (failed: bool, pages: seq<Response<T>>)
    requires Bounded(serve, bound) && AlwaysPresent(serve)
    ensures IsWalk(serve, pages) && (failed <==> ListingOf(pages).RequestFailed?)
  {
    pages := [];
    var offset: nat := 0;
    while true
      invariant Walking(serve, pages) && offset == |RowsOf(pages)|
      decreases bound - offset
    {
      var page := serve(offset);
      pages := pages + [page];
      if page.Failed? {
        return true, pages;
      }
      offset := offset + |page.rows|;
      if |page.rows| == 0 || offset >= page.total {
        return false, pages;
      }
    }
  }

  ghost predicate AllAnswered<T>(pages: seq<Response<T>>) { forall i :: 0 <= i < |pages| ==> pages[i].Page? }

  lemma {:induction false} WalkedPagesAnswered<T>(serve: nat -> Response<T>, pages: seq<Response<T>>)
    ensures Walking(serve, pages) ==> AllAnswered(pages)
    ensures IsWalk(serve, pages) && ListingOf(pages).Listed? ==> AllAnswered(pages)
  {
    if pages != [] {
      WalkedPagesAnswered(serve, pages[..|pages| - 1]);
      assert forall i :: 0 <= i < |pages| - 1 ==> pages[..|pages| - 1][i] == pages[i];
    }
  }

  // ----- honest servers ---------------------------------------------------

  /** Where there is something at an offset the server answers with some of it,
      from that offset on and however short, and it always tells the true total. */
  ghost predicate Honest<T>(serve: nat -> Response<T>, list: seq<T>)
  {
    forall o: nat :: HonestAt(serve(o), list, o)
  }

  ghost predicate HonestAt<T>(p: Response<T>, list: seq<T>, o: nat)
  {
    && p.Page? && p.present && p.total == |list|
    && if o < |list| then 0 < |p.rows| <= |list| - o && p.rows == list[o..o + |p.rows|] else p.rows == []
  }

  lemma {:induction false} HonestRows<T>(serve: nat -> Response<T>, list: seq<T>, pages: seq<Response<T>>)
    requires Honest(serve, list) && Walking(serve, pages)
    ensures |RowsOf(pages)| <= |list| && RowsOf(pages) == list[..|RowsOf(pages)|]
  {
    if pages != [] {
      var (init, p) := (pages[..|pages| - 1], pages[|pages| - 1]);
      HonestRows(serve, list, init);
      var o := |RowsOf(init)|;
      assert HonestAt(serve(o), list, o);
    }
  }

  /** Every walk over an honest server returns its list: each row once, in order. */
  lemma HonestWalkReadsList<T>(serve: nat -> Response<T>, list: seq<T>, pages: seq<Response<T>>)
    requires Honest(serve, list) && IsWalk(serve, pages)
    ensures ListingOf(pages) == Listed(list)
  {
    var (init, p) := (pages[..|pages| - 1], pages[|pages| - 1]);
    HonestRows(serve, list, init);
    var o := |RowsOf(init)|;
    assert HonestAt(serve(o), list, o);
    assert list[..|list|] == list;
  }

  /** So whatever a walk over an honest server returns is the server's list. */
  lemma HonestListingIsList<T(!new)>(serve: nat -> Response<T>, list: seq<T>, r: Listing<T>)
    requires Honest(serve, list) && IsListing(serve, r)
    ensures r == Listed(list)
  {
    var pages :| IsWalk(serve, pages);
    HonestWalkReadsList(serve, list, pages);
  }

  lemma HonestIsBounded<T>(serve: nat -> Response<T>, list: seq<T>)
    requires Honest(serve, list)
    ensures Bounded(serve, |list|)
  {
    forall o: nat ensures serve(o).Page? && serve(o).total <= |list| {
      assert HonestAt(serve(o), list, o);
    }
  }
}
