/** What the tax-financial report tells about its returns: which are counted,
    what each bucket holds and is called, and the orders of chart and groups. */
module FinancialMeaning {
  import opened Outcomes
  import opened Ordering
  import opened Aggregation
  import opened StableSort
  import opened OracleWorld
  import opened Heatmap
  import opened HeatmapMeaning
  import opened Financial
  import Compliance

  // ----- which returns are counted ----------------------------------------

  lemma {:induction false} WithDataHolds(s: seq<Instance>, x: Instance)
    ensures multiset(WithData(s))[x] == if x.taxData == map[] then 0 else multiset(s)[x]
  {
    if s != [] {
      WithDataHolds(s[..|s| - 1], x);
      assert s == s[..|s| - 1] + [s[|s| - 1]];
    }
  }

  /** The report counts an instance as often as it occurs when it is participating,
      matches the filters and carries tax data, and not at all otherwise. */
  lemma {:induction false} CountedInstances(instances: seq<Instance>, f: Filters, x: Instance)
    ensures multiset(WithData(Participating(instances, f)))[x]
            == if Reported(f, x) && x.taxData != map[] then multiset(instances)[x] else 0
  {
    ParticipatingHolds(instances, f, x);
    WithDataHolds(Participating(instances, f), x);
  }

  // ----- what a bucket holds ----------------------------------------------

  /** The returns of a bucket, in order. */
  function OfKey(s: seq<Instance>, g: GroupBy, k: string): seq<Instance>
  {
    if s == [] then []
    else OfKey(s[..|s| - 1], g, k) + (if GroupKey(g, s[|s| - 1]) == k then [s[|s| - 1]] else [])
  }

  /** The return is of the country, tax type, period, obligation or entity `k`, or has none. */
  predicate InGroup(g: GroupBy, x: Instance, k: string)
  {
    var (entity, obligation) := (x.workflow.entity, x.workflow.obligation);
    match g
    case ByCountry =>
      || (k != "" && entity.Some? && entity.value.country == k)
      || (k == "unknown" && (entity.None? || entity.value.country == ""))
    case ByTaxType =>
      || (k != "" && obligation.Some? && obligation.value.template == k)
      || (k == "unknown" && (obligation.None? || obligation.value.template == ""))
    case ByPeriod => x.periodCode == k
    case ByObligation => if obligation.Some? then obligation.value.key == k else k == "unknown"
    case ByEntity =>
      || (k != "" && entity.Some? && entity.value.key == k)
      || (k == "unknown" && (entity.None? || entity.value.key == ""))
  }

  /** The bucket that the return opens is called that. */
  predicate OpensAs(g: GroupBy, x: Instance, title: string)
  {
    var (entity, obligation) := (x.workflow.entity, x.workflow.obligation);
    match g
    case ByCountry =>
      title == if entity.Some? && entity.value.country != "" then entity.value.country else "Unknown"
    case ByTaxType =>
      title == if obligation.Some? && obligation.value.template != "" then obligation.value.template else "Unknown"
    case ByPeriod => title == x.periodCode
    case ByObligation => if obligation.Some? then title == obligation.value.name else title == "Unknown"
    case ByEntity => if entity.Some? then title == entity.value.name else title == "Unknown Entity"
  }

  lemma {:induction false} OfKeyHolds(s: seq<Instance>, g: GroupBy, k: string)
    ensures forall x :: x in OfKey(s, g, k) <==> x in s && InGroup(g, x, k)
  {
    if s != [] {
      OfKeyHolds(s[..|s| - 1], g, k);
      assert forall x :: x in s <==> x in s[..|s| - 1] || x == s[|s| - 1];
    }
  }

  /** The earliest period end among some instances. */
  ghost predicate EarliestOf(s: seq<Instance>, d: Date)
  {
    (exists x :: x in s && x.periodEnd == d) && forall x :: x in s ==> !Before(x.periodEnd, d)
  }

  /** A bucket holds the returns of its key: the exact sums of their figures, their
      number, their earliest period end, and the name of the first of them. */
  ghost predicate BucketTells(f: Instance -> Fig, g: GroupBy, own: seq<Instance>, b: Ledger)
  {
    own != [] && b.count == |own| && b.fig == Total(own, f, FIGS) && OpensAs(g, own[0], b.title)
    && EarliestOf(own, b.firstEnd)
  }

  lemma {:induction false} KeysTell(f: Instance -> Fig, g: GroupBy, s: seq<Instance>, k: string)
    ensures k in BucketsOf(f, g, s) <==> OfKey(s, g, k) != []
  {
    if s != [] {
      KeysTell(f, g, s[..|s| - 1], k);
    }
  }

  lemma {:induction false} LedgersTell(f: Instance -> Fig, g: GroupBy, s: seq<Instance>, k: string)
    requires k in BucketsOf(f, g, s)
    ensures BucketTells(f, g, OfKey(s, g, k), BucketsOf(f, g, s)[k])
  {
    var (init, x) := (s[..|s| - 1], s[|s| - 1]);
    KeysTell(f, g, init, k);
    if k in BucketsOf(f, g, init) {
      LedgersTell(f, g, init, k);
    }
    if GroupKey(g, x) == k {
      OneMoreReturn(f, g, OfKey(init, g, k), x, BucketsOf(f, g, init), k);
    } else {
      assert OfKey(s, g, k) == OfKey(init, g, k);
    }
  }

  /** There is a bucket for a key exactly when some return is of it, and it holds those returns. */
  lemma {:induction false} BucketsTell(f: Instance -> Fig, g: GroupBy, s: seq<Instance>, k: string)
    ensures k in BucketsOf(f, g, s) <==> exists x :: x in s && InGroup(g, x, k)
    ensures k in BucketsOf(f, g, s) ==> BucketTells(f, g, OfKey(s, g, k), BucketsOf(f, g, s)[k])
  {
    OfKeyHolds(s, g, k);
    KeysTell(f, g, s, k);
    if k in BucketsOf(f, g, s) {
      LedgersTell(f, g, s, k);
      assert OfKey(s, g, k)[0] in OfKey(s, g, k);
    }
  }

  lemma OneMoreReturn(f: Instance -> Fig, g: GroupBy, own: seq<Instance>, x: Instance, b: map<string, Ledger>,
                      k: string)
    requires if k in b then BucketTells(f, g, own, b[k]) else own == []
    requires GroupKey(g, x) == k
    ensures BucketTells(f, g, own + [x], WithRow(b, k, GroupTitle(g, x), f(x), x.periodEnd)[k])
  {
    var more := own + [x];
    assert more[..|own|] == own;
    assert forall y :: y in more <==> y in own || y == x;
    DatesAreOrdered();
    AddToNothing(f(x));
  }

  // ----- orders -----------------------------------------------------------

  /** Rows come by entity name, then by obligation name, then by period. */
  lemma RowsInOrder(rows: seq<Instance>, used: seq<Instance>, m: nat, n: nat)
    requires StableSortOf(rows, used, InstanceKey, Compliance.KeyLess) && m < n < |rows|
    ensures var (x, y) := (rows[m], rows[n]);
            var (p, q) := (FinancialObligationName(x), FinancialObligationName(y));
            || StringLess(EntityName(x), EntityName(y))
            || (EntityName(x) == EntityName(y) && StringLess(p, q))
            || (EntityName(x) == EntityName(y) && p == q
                && (x.periodCode == y.periodCode || StringLess(x.periodCode, y.periodCode)))
  {
    StringLessIsStrictTotal();
    assert !Compliance.KeyLess(InstanceKey(rows[n]), InstanceKey(rows[m]));
  }

  /** The chart lists its periods by the calendar, those that end together by code. */
  lemma ChartByCalendar(b: map<string, Ledger>, chart: seq<string>, m: nat, n: nat)
    requires IsOrder(chart, b, ChartLess(Ends(b))) && m < n < |chart|
    ensures Elements(chart) == b.Keys && chart[m] in b && chart[n] in b
    ensures var (p, q) := (b[chart[m]].firstEnd, b[chart[n]].firstEnd);
            Before(p, q) || (p == q && StringLess(chart[m], chart[n]))
  {
    assert chart[m] in Elements(chart) && chart[n] in Elements(chart);
    assert ChartLess(Ends(b))(chart[m], chart[n]);
  }

  /** Groups stand in the order of their titles, periods first by the calendar. */
  lemma GroupsByTitle(g: GroupBy, b: map<string, Ledger>, order: seq<string>, m: nat, n: nat)
    requires IsOrder(order, b, GroupLess(g, Ends(b), Titles(b))) && m < n < |order|
    ensures Elements(order) == b.Keys && order[m] in b && order[n] in b
    ensures var (p, q) := (b[order[m]], b[order[n]]);
            || (g == ByPeriod && Before(p.firstEnd, q.firstEnd))
            || ((g == ByPeriod ==> p.firstEnd == q.firstEnd) && Precedes(p.title, order[m], q.title, order[n]))
  {
    assert order[m] in Elements(order) && order[n] in Elements(order);
    assert GroupLess(g, Ends(b), Titles(b))(order[m], order[n]);
    if g == ByPeriod {
      ColLessTells(Ends(b), Titles(b), order[m], order[n]);
    } else {
      RowLessTells(Titles(b), order[m], order[n]);
    }
  }
}
