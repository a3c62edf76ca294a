/** What holds of every tax-financial report: conservation under each grouping,
    where a total may leave the net VAT, and independence of the input order. */
module FinancialTheorems {
  import opened Outcomes
  import opened Ordering
  import opened Aggregation
  import opened StableSort
  import opened OracleWorld
  import opened Financial

  lemma FigsCommute()
    ensures Commutative(FIGS)
  {
    forall a, b, c ensures Laws(FIGS, a, b, c) {
      assert AddFig(AddFig(a, b), c) == AddFig(a, AddFig(b, c));
    }
  }

  lemma {:induction false} TotalMoney(f: Instance -> Fig, s: seq<Instance>)
    ensures Total(s, MoneyOf(f), MONEY).fig == Total(s, f, FIGS) && Total(s, MoneyOf(f), MONEY).count == |s|
  {
    if s != [] {
      TotalMoney(f, s[..|s| - 1]);
    }
  }

  ghost function WholeOf(b: map<string, Ledger>): Money { SumOver(Monies(b), Monies(b).Keys, MONEY) }

  lemma {:induction false} BucketsConserve(f: Instance -> Fig, g: GroupBy, s: seq<Instance>)
    ensures WholeOf(BucketsOf(f, g, s)).fig == Total(s, f, FIGS) && WholeOf(BucketsOf(f, g, s)).count == |s|
  {
    BucketsHoldGroups(f, g, s);
    MoneyCommutes();
    GroupsConserveTotal(s, KeyBy(g), MoneyOf(f), MONEY);
    TotalMoney(f, s);
  }

  /** Under every grouping the eight exact figures of the groups add up to the
      summary, and so do those of the chart periods and those of the rows; the
      group counts and the period counts add up to the record count. */
  lemma FiguresAreConserved(f: Instance -> Fig, g: GroupBy, used: seq<Instance>, b: Books, chart: seq<string>,
                            order: seq<string>)
    requires IsFinancialOf(f, g, used, b, chart, order)
    ensures WholeOf(b.groups).fig == b.summary == WholeOf(b.periods).fig == Total(b.instances, f, FIGS)
    ensures WholeOf(b.groups).count == b.recordCount == WholeOf(b.periods).count == |b.instances|
  {
    BucketsConserve(f, g, used);
    BucketsConserve(f, ByPeriod, used);
    SameBucketsIsPermutation(b.instances, used, InstanceKey);
    SamePermutationElements(b.instances, used);
    FigsCommute();
    TotalOfPermutation(b.instances, used, f, FIGS);
  }

  // ----- totals and net VAT -----------------------------------------------

  /** The amounts of the rows of bucket `k` that are not VAT returns. */
  function OutsideVat(a: Aliases, g: GroupBy, k: string, s: seq<Instance>): real
  {
    if s == [] then 0.0
    else
      var x := s[|s| - 1];
      OutsideVat(a, g, k, s[..|s| - 1])
      + (if GroupKey(g, x) == k && TaxType(x) != "VAT" then FigBy(a)(x).totalAmount else 0.0)
  }

  lemma {:induction false} RestrictedTotals(a: Aliases, g: GroupBy, k: string, s: seq<Instance>)
    ensures var t := Total(s, Restricted(KeyBy(g), MoneyOf(FigBy(a)), k, MONEY), MONEY);
            t.fig.totalAmount == t.fig.netVat + OutsideVat(a, g, k, s)
  {
    if s != [] {
      RestrictedTotals(a, g, k, s[..|s| - 1]);
      var x := s[|s| - 1];
      var share := Restricted(KeyBy(g), MoneyOf(FigBy(a)), k, MONEY)(x);
      assert share == if GroupKey(g, x) == k then Money(FigBy(a)(x), 1, Some(x.periodEnd)) else NO_MONEY;
    }
  }

  /** A bucket's total is its net VAT plus the amounts of its other returns. */
  lemma {:induction false} TotalIsNetVatAndTheRest(a: Aliases, g: GroupBy, s: seq<Instance>, k: string)
    requires k in BucketsOf(FigBy(a), g, s)
    ensures var fig := BucketsOf(FigBy(a), g, s)[k].fig;
            fig.totalAmount == fig.netVat + OutsideVat(a, g, k, s)
  {
    var f := FigBy(a);
    BucketsHoldGroups(f, g, s);
    assert k in Monies(BucketsOf(f, g, s)) && Monies(BucketsOf(f, g, s))[k].fig == BucketsOf(f, g, s)[k].fig;
    MoneyCommutes();
    GroupIsRestrictedTotal(s, KeyBy(g), MoneyOf(f), k, MONEY);
    RestrictedTotals(a, g, k, s);
  }

  /** With VAT returns only, total amount and net VAT agree in every bucket. */
  lemma {:induction false} VatOnlyTotalsAreNetVat(a: Aliases, g: GroupBy, s: seq<Instance>, k: string)
    requires k in BucketsOf(FigBy(a), g, s)
    requires forall x :: x in s && GroupKey(g, x) == k ==> TaxType(x) == "VAT"
    ensures BucketsOf(FigBy(a), g, s)[k].fig.totalAmount == BucketsOf(FigBy(a), g, s)[k].fig.netVat
  {
    TotalIsNetVatAndTheRest(a, g, s, k);
    NothingOutsideVat(a, g, k, s);
  }

  lemma {:induction false} NothingOutsideVat(a: Aliases, g: GroupBy, k: string, s: seq<Instance>)
    requires forall x :: x in s && GroupKey(g, x) == k ==> TaxType(x) == "VAT"
    ensures OutsideVat(a, g, k, s) == 0.0
  {
    if s != [] {
      assert forall x :: x in s[..|s| - 1] ==> x in s;
      NothingOutsideVat(a, g, k, s[..|s| - 1]);
    }
  }

  // ----- order independence -----------------------------------------------

  /** Titles are a function of the group key. */
  ghost predicate WellTitled(g: GroupBy, s: seq<Instance>)
  {
    forall x, y :: x in s && y in s && GroupKey(g, x) == GroupKey(g, y) ==> GroupTitle(g, x) == GroupTitle(g, y)
  }

  /** The row a title comes from. */
  lemma {:induction false} TitleComesFromRow(g: GroupBy, s: seq<Instance>, k: string) returns (x: Instance)
    requires k in FirstTitles(s, g)
    ensures x in s && GroupKey(g, x) == k && FirstTitles(s, g)[k] == GroupTitle(g, x)
  {
    var init := s[..|s| - 1];
    x := s[|s| - 1];
    if k in FirstTitles(init, g) {
      x := TitleComesFromRow(g, init, k);
    }
  }

  lemma {:induction false} RowHasTitle(g: GroupBy, s: seq<Instance>, x: Instance)
    requires x in s
    ensures GroupKey(g, x) in FirstTitles(s, g)
  {
    var init := s[..|s| - 1];
    if x in init {
      RowHasTitle(g, init, x);
    } else {
      assert s == init + [s[|s| - 1]];
    }
  }

  lemma {:induction false} TitleIgnoresOrder(g: GroupBy, s: seq<Instance>, t: seq<Instance>, k: string)
    requires multiset(s) == multiset(t) && WellTitled(g, s) && k in FirstTitles(s, g)
    ensures k in FirstTitles(t, g) && FirstTitles(s, g)[k] == FirstTitles(t, g)[k]
  {
    SamePermutationElements(s, t);
    var x := TitleComesFromRow(g, s, k);
    RowHasTitle(g, t, x);
    var y := TitleComesFromRow(g, t, k);
    assert y in s;
  }

  lemma {:induction false} TitlesIgnoreOrder(g: GroupBy, s: seq<Instance>, t: seq<Instance>)
    requires multiset(s) == multiset(t) && WellTitled(g, s)
    ensures FirstTitles(s, g) == FirstTitles(t, g)
  {
    SamePermutationElements(s, t);
    forall k | k in FirstTitles(s, g) ensures k in FirstTitles(t, g) && FirstTitles(s, g)[k] == FirstTitles(t, g)[k] {
      TitleIgnoresOrder(g, s, t, k);
    }
    forall k | k in FirstTitles(t, g) ensures k in FirstTitles(s, g) {
      TitleIgnoresOrder(g, t, s, k);
    }
  }

  lemma SameMoneyAndTitles(b: map<string, Ledger>, c: map<string, Ledger>)
    requires Monies(b) == Monies(c) && Titles(b) == Titles(c)
    ensures b == c
  {
    forall k ensures k in b <==> k in c {
      assert k in b <==> k in Titles(b);
      assert k in c <==> k in Titles(c);
    }
    forall k | k in b ensures b[k] == c[k] {
      assert Monies(b)[k] == LedgerMoney(b[k]) && Monies(c)[k] == LedgerMoney(c[k]);
      assert Titles(b)[k] == b[k].title && Titles(c)[k] == c[k].title;
    }
  }

  lemma {:induction false} BucketsIgnoreOrder(f: Instance -> Fig, g: GroupBy, s: seq<Instance>, t: seq<Instance>)
    requires multiset(s) == multiset(t) && WellTitled(g, s)
    ensures BucketsOf(f, g, s) == BucketsOf(f, g, t)
  {
    MoneyCommutes();
    GroupsOfPermutation(s, t, KeyBy(g), MoneyOf(f), MONEY);
    BucketsHoldGroups(f, g, s);
    BucketsHoldGroups(f, g, t);
    TitlesIgnoreOrder(g, s, t);
    SameMoneyAndTitles(BucketsOf(f, g, s), BucketsOf(f, g, t));
  }

  lemma OneOrder(o1: seq<string>, o2: seq<string>, b: map<string, Ledger>, less: (string, string) -> bool)
    requires StrictTotal(less) && IsOrder(o1, b, less) && IsOrder(o2, b, less)
    ensures o1 == o2
  {
    IncreasingIsUnique(o1, o2, less);
  }

  /** Two reports of the same instances in different orders agree on the summary,
      every bucket, and both orders; their rows are a permutation. */
  lemma FinancialIgnoresOrder(f: Instance -> Fig, g: GroupBy, s: seq<Instance>, t: seq<Instance>, b: Books, c: Books,
                              chartB: seq<string>, chartC: seq<string>, orderB: seq<string>, orderC: seq<string>)
    requires multiset(s) == multiset(t) && WellTitled(g, s)
    requires IsFinancialOf(f, g, s, b, chartB, orderB) && IsFinancialOf(f, g, t, c, chartC, orderC)
    ensures b.summary == c.summary && b.recordCount == c.recordCount && b.groups == c.groups && b.periods == c.periods
    ensures chartB == chartC && orderB == orderC && multiset(b.instances) == multiset(c.instances)
  {
    SamePermutationElements(s, t);
    FigsCommute();
    TotalOfPermutation(s, t, f, FIGS);
    BucketsIgnoreOrder(f, g, s, t);
    BucketsIgnoreOrder(f, ByPeriod, s, t);
    SameBucketsIsPermutation(b.instances, s, InstanceKey);
    SameBucketsIsPermutation(c.instances, t, InstanceKey);
    OrdersOfBuckets(g, Ends(b.periods), Titles(b.periods));
    OneOrder(chartB, chartC, b.periods, ChartLess(Ends(b.periods)));
    OrdersOfBuckets(g, Ends(b.groups), Titles(b.groups));
    OneOrder(orderB, orderC, b.groups, GroupLess(g, Ends(b.groups), Titles(b.groups)));
  }
}
