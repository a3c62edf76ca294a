/** The legacy heatmap, keyed by bare period codes, as the fold of the grid
    keyed by financial year: which cells merge and what the merged cell counts,
    for every row key and every code a fiscal calendar yields. */
module HeatmapFold {
  import opened Text
  import opened Aggregation
  import opened OracleWorld
  import opened Heatmap
  import opened HeatmapTheorems
  import opened FiscalCodes

  // ----- what a sum of tallies says ---------------------------------------

  ghost predicate SumsUp(g: map<string, Tally>, ks: set<string>, sum: Tally)
    requires ks <= g.Keys
  {
    && (sum.overdue > 0 <==> exists k :: k in ks && g[k].overdue > 0)
    && (sum.late > 0 <==> exists k :: k in ks && g[k].late > 0)
    && (sum.completed == sum.total <==> forall k :: k in ks ==> g[k].completed == g[k].total)
    && sum.completed <= sum.total && (sum.total > 0 <==> ks != {})
    && (forall w :: w in sum.workflows <==> exists k :: k in ks && w in g[k].workflows)
    && (ks != {} ==> sum.firstEnd.Some? && (exists k :: k in ks && g[k].firstEnd == sum.firstEnd)
                     && forall k :: k in ks ==> g[k].firstEnd.Some? && !Before(g[k].firstEnd.value, sum.firstEnd.value))
  }

  /** A cell of a grid: someone is in it. */
  predicate Inhabited(t: Tally) { t.total > 0 && t.firstEnd.Some? && t.completed <= t.total }

  lemma {:induction false} SumOfTallies(g: map<string, Tally>, ks: set<string>)
    requires ks <= g.Keys && forall k :: k in ks ==> Inhabited(g[k])
    ensures SumsUp(g, ks, SumOver(g, ks, TALLIES))
  {
    TalliesCommute();
    if ks != {} {
      var k :| k in ks;
      SumPick(g, ks, k, TALLIES);
      SumOfTallies(g, ks - {k});
      AddOneTally(g, ks, k, SumOver(g, ks - {k}, TALLIES));
    }
  }

  lemma AddOneTally(g: map<string, Tally>, ks: set<string>, k: string, rest: Tally)
    requires ks <= g.Keys && k in ks && Inhabited(g[k]) && forall j :: j in ks ==> Inhabited(g[j])
    requires SumsUp(g, ks - {k}, rest) && (ks == {k} ==> rest == EMPTY)
    ensures SumsUp(g, ks, Merge(g[k], rest))
  {
    DatesAreOrdered();
    var sum, less := Merge(g[k], rest), ks - {k};
    assert forall j :: j in ks <==> j in less || j == k;
    assert less == {} <==> ks == {k};
    if less != {} {
      var j :| j in less && g[j].firstEnd == rest.firstEnd;
      assert j in ks && k in ks;
      assert g[j].firstEnd == sum.firstEnd || g[k].firstEnd == sum.firstEnd;
    }
  }

  // ----- the fold ---------------------------------------------------------

  /** The separators of a qualified cell key, "<row>|<year>:<code>", stand out:
      years hold neither, codes no bar. Nothing is asked of the row keys. */
  ghost predicate PlainColumns(s: seq<Instance>)
  {
    forall x :: x in s ==>
                  && Free(x.workflow.financialYear, '|') && Free(x.workflow.financialYear, ':')
                  && Free(x.periodCode, '|')
  }

  /** Numeric years and codes of a fiscal calendar: what the planner lets through. */
  ghost predicate FromCalendar(s: seq<Instance>)
  {
    forall x :: x in s ==> Atoi(x.workflow.financialYear).Some? && IsPeriodCode(x.periodCode)
  }

  lemma CalendarColumnsArePlain(s: seq<Instance>)
    requires FromCalendar(s)
    ensures PlainColumns(s)
  {
    forall x | x in s
      ensures Free(x.workflow.financialYear, '|') && Free(x.workflow.financialYear, ':') && Free(x.periodCode, '|')
    {
      PeriodCodesArePlain(x.periodCode, '|');
    }
  }

  lemma PlainJoin(year: string, code: string, c: char)
    requires Free(year, c) && Free(code, c) && c != ':'
    ensures Free(year + [':'] + code, c)
  {
  }

  /** A qualified cell key determines row, year and code. */
  lemma QualifiedKeyDetermines(x: Instance, y: Instance)
    requires PlainColumns([x, y]) && CellKey(PeriodView, true, x) == CellKey(PeriodView, true, y)
    ensures RowKey(x) == RowKey(y) && x.periodCode == y.periodCode
    ensures x.workflow.financialYear == y.workflow.financialYear
  {
    assert x in [x, y] && y in [x, y];
    PlainJoin(x.workflow.financialYear, x.periodCode, '|');
    PlainJoin(y.workflow.financialYear, y.periodCode, '|');
    LastCutInjective(RowKey(x), QualifiedKey(x), RowKey(y), QualifiedKey(y), '|');
    CutInjective(x.workflow.financialYear, x.periodCode, y.workflow.financialYear, y.periodCode, ':');
  }

  /** So in the period view instances that share a cell share its row, and
      columns with one key have one label, whatever the entities are called. */
  lemma PeriodViewIsUnambiguous(s: seq<Instance>, qualify: bool)
    requires PlainColumns(s)
    ensures Unambiguous(s, PeriodView, qualify)
    ensures forall x, y :: x in s && y in s && ColKey(PeriodView, qualify, x) == ColKey(PeriodView, qualify, y)
                           ==> ColLabel(PeriodView, qualify, x) == ColLabel(PeriodView, qualify, y)
  {
    forall x | x in s ensures Free(ColKey(PeriodView, qualify, x), '|') {
      PlainJoin(x.workflow.financialYear, x.periodCode, '|');
    }
    BarFreeKeysAreUnambiguous(s, PeriodView, qualify);
    forall x, y | x in s && y in s && ColKey(PeriodView, qualify, x) == ColKey(PeriodView, qualify, y)
      ensures ColLabel(PeriodView, qualify, x) == ColLabel(PeriodView, qualify, y)
    {
      if qualify {
        CutInjective(x.workflow.financialYear, x.periodCode, y.workflow.financialYear, y.periodCode, ':');
      }
    }
  }

  /** Instances of one qualified cell share their legacy cell. */
  lemma LegacyIsCoarser(s: seq<Instance>)
    requires PlainColumns(s)
    ensures Coarser(s, KeyOf(PeriodView, true), KeyOf(PeriodView, false))
  {
    forall x, y | x in s && y in s && CellKey(PeriodView, true, x) == CellKey(PeriodView, true, y)
      ensures CellKey(PeriodView, false, x) == CellKey(PeriodView, false, y)
    {
      assert PlainColumns([x, y]);
      QualifiedKeyDetermines(x, y);
    }
  }

  ghost function Merged(s: seq<Instance>, legacy: string): set<string>
  {
    Constituents(s, KeyOf(PeriodView, true), KeyOf(PeriodView, false), legacy)
  }

  /** A legacy cell is the sum of the qualified cells it merges: its counts add
      up, its first period is the earliest of theirs, its workflows are the union,
      it is red when one of them is, green when all are, and amber otherwise. */
  ghost predicate IsFold(s: seq<Instance>, today: Date, k: string)
    requires k in Grid(s, PeriodView, false, today)
  {
    var (fine, legacy, from) := (Grid(s, PeriodView, true, today), Grid(s, PeriodView, false, today)[k], Merged(s, k));
    && from <= fine.Keys && from != {}
    && legacy == SumOver(fine, from, TALLIES) && SumsUp(fine, from, legacy)
    && (ColourOf(legacy) == Red <==> exists q :: q in from && ColourOf(fine[q]) == Red)
    && (ColourOf(legacy) == Green <==> forall q :: q in from ==> ColourOf(fine[q]) == Green)
    && ColourOf(legacy) != Grey
  }

  lemma LegacyCellIsFold(s: seq<Instance>, today: Date, k: string)
    requires PlainColumns(s) && k in Grid(s, PeriodView, false, today)
    ensures IsFold(s, today, k)
  {
    var (fineKey, coarseKey) := (KeyOf(PeriodView, true), KeyOf(PeriodView, false));
    var fine, from := Grid(s, PeriodView, true, today), Merged(s, k);
    TalliesCommute();
    LegacyIsCoarser(s);
    Regroup(s, fineKey, coarseKey, k, ShareOn(today), TALLIES);
    forall q | q in from ensures Inhabited(fine[q]) {
      TalliesAreInhabited(s, fineKey, today, q);
    }
    SumOfTallies(fine, from);
    TalliesAreInhabited(s, coarseKey, today, k);
    FoldedColour(fine, from, Grid(s, PeriodView, false, today)[k]);
  }

  lemma FoldedColour(g: map<string, Tally>, ks: set<string>, sum: Tally)
    requires ks <= g.Keys && ks != {} && SumsUp(g, ks, sum) && forall k :: k in ks ==> Inhabited(g[k])
    ensures ColourOf(sum) == Red <==> exists k :: k in ks && ColourOf(g[k]) == Red
    ensures ColourOf(sum) == Green <==> forall k :: k in ks ==> ColourOf(g[k]) == Green
  {
    if ColourOf(sum) == Red {
      if sum.overdue > 0 { var k :| k in ks && g[k].overdue > 0; assert ColourOf(g[k]) == Red; }
      else { var k :| k in ks && g[k].late > 0; assert ColourOf(g[k]) == Red; }
    }
  }

  /** Folding never adds a cell. */
  lemma LegacyGridIsNoLarger(s: seq<Instance>, today: Date)
    requires PlainColumns(s)
    ensures |Grid(s, PeriodView, false, today)| <= |Grid(s, PeriodView, true, today)|
  {
    LegacyIsCoarser(s);
    CoarserHasNoMoreGroups(s, KeyOf(PeriodView, true), KeyOf(PeriodView, false), ShareOn(today), TALLIES);
  }
}
