/** What a heatmap tells about its instances: the names of a cell, its first
    period and its workflows, and the order of rows and columns. */
module HeatmapMeaning {
  import opened Outcomes
  import opened Ordering
  import opened Text
  import opened Aggregation
  import opened OracleWorld
  import opened Heatmap
  import opened HeatmapTheorems
  import opened HeatmapFold

  // ----- names ------------------------------------------------------------

  /** The cell is in the row of the instance's entity. */
  predicate InRowOf(c: Cell, x: Instance)
  {
    match x.workflow.entity
    case None => (c.rowKey, c.rowLabel) == ("unknown", "Unknown Entity")
    case Some(e) => (c.rowKey, c.rowLabel) == (e.key, e.name)
  }

  /** The cell is in the column of the instance's period, of its period within its
      year, or of its obligation. */
  predicate InColumnOf(c: Cell, x: Instance, view: View, qualify: bool)
  {
    var w := x.workflow;
    && (view.PeriodView? && !qualify ==> c.colKey == c.colLabel == x.periodCode)
    && (view.PeriodView? && qualify ==> c.colKey == w.financialYear + ":" + x.periodCode
                                        && c.colLabel == x.periodCode + " (FY" + w.financialYear + ")")
    && (view.TaxTypeView? && w.obligation.None? ==> (c.colKey, c.colLabel) == ("unknown", "Unknown"))
    && (view.TaxTypeView? && w.obligation.Some?
        ==> c.colKey == w.obligation.value.key
            && c.colLabel == w.obligation.value.name + " (" + w.obligation.value.code + ")")
  }

  /** A cell is stored under its own row and column, and one of its instances names both. */
  lemma CellIsNamed(r: Report, s: seq<Instance>, view: View, qualify: bool, today: Date, order: seq<string>, k: string)
    returns (x: Instance)
    requires IsHeatmapOf(r, s, view, qualify, today, order) && k in r.cells
    ensures k == r.cells[k].rowKey + "|" + r.cells[k].colKey
    ensures x in s && CellKey(view, qualify, x) == k
    ensures InRowOf(r.cells[k], x) && InColumnOf(r.cells[k], x, view, qualify)
  {
    x := CellHasOpener(r.cells, s, view, qualify, today, k);
  }

  /** Every participating instance is in a cell, that of its own row and column. */
  lemma EveryInstanceHasACell(r: Report, s: seq<Instance>, view: View, qualify: bool, today: Date, order: seq<string>,
                              x: Instance)
    requires IsHeatmapOf(r, s, view, qualify, today, order) && x in s
    ensures CellKey(view, qualify, x) in r.cells
    ensures InRowOf(NewCell(view, qualify, x, EMPTY), x)
    ensures InColumnOf(NewCell(view, qualify, x, EMPTY), x, view, qualify)
    ensures var c := NewCell(view, qualify, x, EMPTY); CellKey(view, qualify, x) == c.rowKey + "|" + c.colKey
  {
    KeyIsInGrid(s, KeyOf(view, qualify), today, x);
  }

  lemma {:induction false} KeyIsInGrid(s: seq<Instance>, key: Instance -> string, today: Date, x: Instance)
    requires x in s
    ensures key(x) in Groups(s, key, ShareOn(today), TALLIES)
  {
    var (init, last) := (s[..|s| - 1], s[|s| - 1]);
    if x != last {
      KeyIsInGrid(init, key, today, x);
    }
  }

  // ----- which keying -----------------------------------------------------

  /** Periods are keyed within their years where the view is by period and no year is selected. */
  predicate QualifiesYears(f: Filters, view: View) { view.PeriodView? && !FilterSet(f.year) }

  method HeatmapOf(instances: seq<Instance>, f: Filters, view: View, today: Date) returns (r: Report)
    ensures exists order :: IsHeatmapOf(r, Participating(instances, f), view, QualifiesYears(f, view), today, order)
  {
    r := HeatmapKeyed(instances, f, view, QualifiesYears(f, view), today);
  }

  /** A period column never mixes two years: what shares one has one year and one
      code, qualified or not. */
  lemma {:induction false} ColumnsKeepYearsApart(instances: seq<Instance>, f: Filters, x: Instance, y: Instance)
    requires x in Participating(instances, f) && y in Participating(instances, f) && PlainColumns([x, y])
    requires var q := QualifiesYears(f, PeriodView); ColKey(PeriodView, q, x) == ColKey(PeriodView, q, y)
    ensures x.workflow.financialYear == y.workflow.financialYear && x.periodCode == y.periodCode
  {
    assert x in [x, y] && y in [x, y];
    if FilterSet(f.year) {
      ParticipatingMatch(instances, f, x);
      ParticipatingMatch(instances, f, y);
    } else {
      CutInjective(x.workflow.financialYear, x.periodCode, y.workflow.financialYear, y.periodCode, ':');
    }
  }

  lemma {:induction false} ParticipatingMatch(s: seq<Instance>, f: Filters, x: Instance)
    requires x in Participating(s, f)
    ensures x in s && Reported(f, x)
  {
    if x in Participating(s[..|s| - 1], f) {
      ParticipatingMatch(s[..|s| - 1], f, x);
    }
  }

  // ----- what a cell gathers ----------------------------------------------

  ghost predicate EarliestEnd(s: seq<Instance>, key: Instance -> string, k: string, d: Date)
  {
    && (exists x :: x in s && key(x) == k && x.periodEnd == d)
    && (forall x :: x in s && key(x) == k ==> !Before(x.periodEnd, d))
  }

  /** A tally's first end is the earliest period end among its key's instances, and
      its workflows are theirs. */
  lemma {:induction false} TallyGathers(s: seq<Instance>, key: Instance -> string, today: Date, k: string)
    requires k in Groups(s, key, ShareOn(today), TALLIES)
    ensures var t := Groups(s, key, ShareOn(today), TALLIES)[k];
            && t.firstEnd.Some? && EarliestEnd(s, key, k, t.firstEnd.value)
            && forall w :: w in t.workflows <==> exists x :: x in s && key(x) == k && x.workflow.key == w
  {
    var (init, last) := (s[..|s| - 1], s[|s| - 1]);
    var g := Groups(init, key, ShareOn(today), TALLIES);
    assert forall x :: x in s <==> x in init || x == last;
    DatesAreOrdered();
    if k in g {
      TallyGathers(init, key, today, k);
    } else {
      NotInGrid(init, key, today, k);
    }
  }

  lemma {:induction false} NotInGrid(s: seq<Instance>, key: Instance -> string, today: Date, k: string)
    requires k !in Groups(s, key, ShareOn(today), TALLIES)
    ensures forall x :: x in s ==> key(x) != k
  {
    forall x | x in s ensures key(x) != k {
      KeyIsInGrid(s, key, today, x);
    }
  }

  lemma CellGathers(r: Report, s: seq<Instance>, view: View, qualify: bool, today: Date, order: seq<string>, k: string)
    requires IsHeatmapOf(r, s, view, qualify, today, order) && k in r.cells
    ensures var t := r.cells[k].tally;
            && t.firstEnd.Some? && EarliestEnd(s, KeyOf(view, qualify), k, t.firstEnd.value)
            && forall w :: w in t.workflows
                           <==> exists x :: x in s && CellKey(view, qualify, x) == k && x.workflow.key == w
  {
    TallyGathers(s, KeyOf(view, qualify), today, k);
    assert CellOk(r.cells, s, view, qualify, Grid(s, view, qualify, today), k);
    assert forall x :: KeyOf(view, qualify)(x) == CellKey(view, qualify, x);
  }

  // ----- orders -----------------------------------------------------------

  /** First by the one key, then by the other. */
  predicate Precedes(label0: string, key0: string, label1: string, key1: string)
  {
    StringLess(label0, label1) || (label0 == label1 && StringLess(key0, key1))
  }

  lemma LabelledCell(cells: map<string, Cell>, order: seq<string>, name: Cell -> (string, string), key: string)
    returns (k: string)
    requires Elements(order) == cells.Keys && key in LabelsAlong(cells, order, name)
    ensures k in cells && name(cells[k]) == (key, LabelsAlong(cells, order, name)[key])
  {
    LabelsComeFromCells(cells, order, name);
    k :| k in Elements(order) && name(cells[k]) == (key, LabelsAlong(cells, order, name)[key]);
  }

  lemma {:induction false} KeysOfLabels(cells: map<string, Cell>, order: seq<string>)
    requires Elements(order) == cells.Keys
    ensures Walk(cells, order).rowLabels == LabelsAlong(cells, order, RowName)
    ensures Walk(cells, order).colLabels == LabelsAlong(cells, order, ColName)
    ensures Walk(cells, order).rowLabels.Keys == set c | c in cells :: cells[c].rowKey
    ensures Walk(cells, order).colLabels.Keys == set c | c in cells :: cells[c].colKey
  {
    WalkGathersLabels(cells, order);
    LabelsComeFromCells(cells, order, RowName);
    LabelsComeFromCells(cells, order, ColName);
  }

  lemma RowLessTells(labels: map<string, string>, a: string, b: string)
    requires RowLess(labels)(a, b) && a in labels && b in labels
    ensures Precedes(labels[a], a, labels[b], b)
  {
  }

  lemma ColLessTells(first: map<string, Date>, labels: map<string, string>, a: string, b: string)
    requires ColLess(first, labels)(a, b) && a in labels && b in labels && a in first && b in first
    ensures Before(first[a], first[b]) || (first[a] == first[b] && Precedes(labels[a], a, labels[b], b))
  {
  }

  /** The rows are the cells' rows. */
  lemma RowsAreTheCells(r: Report, s: seq<Instance>, view: View, qualify: bool, today: Date, order: seq<string>)
    requires IsHeatmapOf(r, s, view, qualify, today, order)
    ensures Elements(r.rowOrder) == set c | c in r.cells :: r.cells[c].rowKey
    ensures Elements(r.colOrder) == set c | c in r.cells :: r.cells[c].colKey
  {
    KeysOfLabels(r.cells, order);
  }

  /** Rows stand in the order of their labels: any two of them have cells, `j` and
      `k`, that show it. */
  lemma RowsByLabel(r: Report, s: seq<Instance>, view: View, qualify: bool, today: Date, order: seq<string>,
                    m: nat, n: nat) returns (j: string, k: string)
    requires IsHeatmapOf(r, s, view, qualify, today, order) && m < n < |r.rowOrder|
    ensures j in r.cells && r.cells[j].rowKey == r.rowOrder[m] && k in r.cells && r.cells[k].rowKey == r.rowOrder[n]
    ensures Precedes(r.cells[j].rowLabel, r.rowOrder[m], r.cells[k].rowLabel, r.rowOrder[n])
  {
    KeysOfLabels(r.cells, order);
    var (a, b) := (r.rowOrder[m], r.rowOrder[n]);
    assert a in Elements(r.rowOrder) && b in Elements(r.rowOrder);
    RowLessTells(Walk(r.cells, order).rowLabels, a, b);
    j := LabelledCell(r.cells, order, RowName, a);
    k := LabelledCell(r.cells, order, RowName, b);
  }

  /** The earliest period of a column. */
  ghost predicate ColumnStarts(r: Report, column: string, d: Date)
  {
    && (exists k :: k in r.cells && r.cells[k].colKey == column && r.cells[k].tally.firstEnd == Some(d))
    && (forall k :: k in r.cells && r.cells[k].colKey == column && r.cells[k].tally.firstEnd.Some?
                    ==> !Before(r.cells[k].tally.firstEnd.value, d))
  }

  lemma {:induction false} ColumnStart(r: Report, s: seq<Instance>, view: View, qualify: bool, today: Date,
                                       order: seq<string>, c: string)
    requires IsHeatmapOf(r, s, view, qualify, today, order) && c in Walk(r.cells, order).colLabels
    ensures c in Walk(r.cells, order).first && ColumnStarts(r, c, Walk(r.cells, order).first[c])
  {
    EveryCellHasAnEnd(r, s, view, qualify, today, order);
    WalkFirst(r.cells, order);
    KeysOfLabels(r.cells, order);
    FirstStarts(r, Walk(r.cells, order).first, c);
  }

  lemma FirstStarts(r: Report, first: map<string, Date>, c: string)
    requires forall k :: k in r.cells ==> r.cells[k].tally.firstEnd.Some?
    requires IsFirstOf(r.cells, r.cells.Keys, first) && exists k :: k in r.cells && r.cells[k].colKey == c
    ensures c in first && ColumnStarts(r, c, first[c])
  {
  }

  /** Columns stand in the order of the calendar, those that start together in the
      order of their labels. */
  lemma ColumnsByCalendar(r: Report, s: seq<Instance>, view: View, qualify: bool, today: Date, order: seq<string>,
                          m: nat, n: nat) returns (j: string, k: string, dm: Date, dn: Date)
    requires IsHeatmapOf(r, s, view, qualify, today, order) && m < n < |r.colOrder|
    ensures ColumnStarts(r, r.colOrder[m], dm) && ColumnStarts(r, r.colOrder[n], dn)
    ensures j in r.cells && r.cells[j].colKey == r.colOrder[m] && k in r.cells && r.cells[k].colKey == r.colOrder[n]
    ensures Before(dm, dn)
            || (dm == dn && Precedes(r.cells[j].colLabel, r.colOrder[m], r.cells[k].colLabel, r.colOrder[n]))
  {
    var w := Walk(r.cells, order);
    KeysOfLabels(r.cells, order);
    var (a, b) := (r.colOrder[m], r.colOrder[n]);
    assert a in Elements(r.colOrder) && b in Elements(r.colOrder);
    ColumnStart(r, s, view, qualify, today, order, a);
    ColumnStart(r, s, view, qualify, today, order, b);
    dm, dn := w.first[a], w.first[b];
    ColLessTells(w.first, w.colLabels, a, b);
    j := LabelledCell(r.cells, order, ColName, a);
    k := LabelledCell(r.cells, order, ColName, b);
  }

  lemma EveryCellHasAnEnd(r: Report, s: seq<Instance>, view: View, qualify: bool, today: Date, order: seq<string>)
    requires IsHeatmapOf(r, s, view, qualify, today, order)
    ensures forall k :: k in r.cells ==> r.cells[k].tally.firstEnd.Some?
  {
    forall k | k in r.cells ensures r.cells[k].tally.firstEnd.Some? {
      CellGathers(r, s, view, qualify, today, order, k);
    }
  }
}
