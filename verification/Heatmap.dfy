/** The compliance heatmap: cells per entity and column, their traffic light,
    and the two column keyings the API and the dataset's static tables use. */
module Heatmap {
  import opened Outcomes
  import opened Ordering
  import opened Aggregation
  import opened OracleWorld

  datatype View = PeriodView | TaxTypeView

  datatype Colour = Green | Amber | Red | Grey

  // ----- keys -------------------------------------------------------------

  function RowKey(i: Instance): string { if i.workflow.entity.None? then UNKNOWN_KEY else i.workflow.entity.value.key }

  function RowLabel(i: Instance): string { EntityName(i) }

  /** "<financialYear>:<periodCode>". */
  function QualifiedKey(i: Instance): string { i.workflow.financialYear + [':'] + i.periodCode }

  function ColKey(view: View, qualify: bool, i: Instance): string
  {
    if view.TaxTypeView? then
      if i.workflow.obligation.None? then UNKNOWN_KEY else i.workflow.obligation.value.key
    else if qualify then QualifiedKey(i)
    else i.periodCode
  }

  function ColLabel(view: View, qualify: bool, i: Instance): string
  {
    if view.TaxTypeView? then
      if i.workflow.obligation.None? then "Unknown"
      else i.workflow.obligation.value.name + " (" + i.workflow.obligation.value.code + ")"
    else if qualify then i.periodCode + " (FY" + i.workflow.financialYear + ")"
    else i.periodCode
  }

  /** "<rowKey>|<colKey>", the string a cell is stored and named under. */
  function CellKey(view: View, qualify: bool, i: Instance): string { RowKey(i) + ['|'] + ColKey(view, qualify, i) }

  // ----- what a cell counts -----------------------------------------------

  datatype Tally = Tally(total: nat, completed: nat, overdue: nat, late: nat, inProgress: nat,
                         firstEnd: Option<Date>, workflows: set<string>)

  function Earlier(a: Option<Date>, b: Option<Date>): Option<Date>
  {
    if a.None? then b else if b.None? then a
    else if Before(b.value, a.value) then b else a
  }

  function Merge(a: Tally, b: Tally): Tally
  {
    Tally(a.total + b.total, a.completed + b.completed, a.overdue + b.overdue, a.late + b.late,
          a.inProgress + b.inProgress, Earlier(a.firstEnd, b.firstEnd), a.workflows + b.workflows)
  }

  const EMPTY := Tally(0, 0, 0, 0, 0, None, {})
  const TALLIES: Monoid<Tally> := Monoid(EMPTY, (a, b) => Merge(a, b))

  lemma TalliesCommute()
    ensures Commutative(TALLIES)
  {
    DatesAreOrdered();
    forall a, b, c ensures Laws(TALLIES, a, b, c) {
      assert a.workflows + {} == a.workflows && a.workflows + b.workflows == b.workflows + a.workflows;
      assert a.workflows + b.workflows + c.workflows == a.workflows + (b.workflows + c.workflows);
    }
  }

  /** One instance's share of its cell. */
  function Share(i: Instance, today: Date): Tally
  {
    var grade := Classify(i, i.dueDate, today);
    Tally(1, if i.status.Completed? then 1 else 0, if grade.Missed? then 1 else 0, if grade.Late? then 1 else 0,
          if i.status.InProgress? || i.status.InReview? || i.status.PendingApproval? then 1 else 0,
          Some(i.periodEnd), {i.workflow.key})
  }

  function ColourOf(t: Tally): Colour
  {
    if t.total == 0 then Grey
    else if t.overdue > 0 || t.late > 0 then Red
    else if t.completed == t.total then Green
    else Amber
  }

  function KeyOf(view: View, qualify: bool): Instance -> string { i => CellKey(view, qualify, i) }

  function ShareOn(today: Date): Instance -> Tally { i => Share(i, today) }

  /** The grid of a list of instances: every cell's tally under its key. */
  function Grid(s: seq<Instance>, view: View, qualify: bool, today: Date): map<string, Tally>
  {
    Groups(s, KeyOf(view, qualify), ShareOn(today), TALLIES)
  }

  // ----- the report -------------------------------------------------------

  datatype Cell = Cell(rowKey: string, rowLabel: string, colKey: string, colLabel: string, tally: Tally)

  datatype Summary = Summary(totalCells: nat, green: nat, amber: nat, red: nat)

  datatype Report = Report(cells: map<string, Cell>, rowOrder: seq<string>, colOrder: seq<string>, summary: Summary)

  /** The first instance under a key: it names the cell's row and column. */
  function Opener(s: seq<Instance>, key: Instance -> string, k: string): Option<Instance>
  {
    if s == [] then None
    else
      var earlier := Opener(s[..|s| - 1], key, k);
      if earlier.Some? then earlier else if key(s[|s| - 1]) == k then Some(s[|s| - 1]) else None
  }

  function NewCell(view: View, qualify: bool, i: Instance, tally: Tally): Cell
  {
    Cell(RowKey(i), RowLabel(i), ColKey(view, qualify, i), ColLabel(view, qualify, i), tally)
  }

  ghost predicate CellOk(cells: map<string, Cell>, s: seq<Instance>, view: View, qualify: bool,
                         grid: map<string, Tally>, k: string)
    requires k in cells && k in grid
  {
    var opener := Opener(s, KeyOf(view, qualify), k);
    opener.Some? && cells[k] == NewCell(view, qualify, opener.value, grid[k])
  }

  ghost predicate CellsOk(cells: map<string, Cell>, s: seq<Instance>, view: View, qualify: bool, today: Date)
  {
    var grid := Grid(s, view, qualify, today);
    && cells.Keys == grid.Keys
    && forall k :: k in cells ==> CellOk(cells, s, view, qualify, grid, k)
  }

  function WithInstance(cells: map<string, Cell>, i: Instance, view: View, qualify: bool,
                        today: Date): map<string, Cell>
  {
    var key := CellKey(view, qualify, i);
    var base := if key in cells then cells else cells[key := NewCell(view, qualify, i, EMPTY)];
    base[key := base[key].(tally := Merge(base[key].tally, Share(i, today)))]
  }

  /** One instance counted in its cell, which it opens when it is new. */
  method CountIn(cells: map<string, Cell>, i: Instance, view: View, qualify: bool, today: Date)
    returns (r: map<string, Cell>)
    ensures r == WithInstance(cells, i, view, qualify, today)
  {
    var key := CellKey(view, qualify, i);
    r := cells;
    if key !in r {
      r := r[key := NewCell(view, qualify, i, EMPTY)];
    }
    r := r[key := r[key].(tally := Merge(r[key].tally, Share(i, today)))];
  }

  /** The first loop: one pass over the participating instances. */
  method FillCells(s: seq<Instance>, view: View, qualify: bool, today: Date) returns (cells: map<string, Cell>)
    ensures CellsOk(cells, s, view, qualify, today)
  {
    cells := map[];
    for n := 0 to |s|
      invariant CellsOk(cells, s[..n], view, qualify, today)
    {
      NextKeepsCells(cells, s, n, view, qualify, today);
      cells := CountIn(cells, s[n], view, qualify, today);
    }
    assert s[..|s|] == s;
  }

  lemma GridStep(s: seq<Instance>, i: Instance, view: View, qualify: bool, today: Date)
    ensures var (g, key) := (Grid(s, view, qualify, today), CellKey(view, qualify, i));
            Grid(s + [i], view, qualify, today) == g[key := Merge(At(g, key, TALLIES), Share(i, today))]
  {
    assert (s + [i])[..|s|] == s;
    assert KeyOf(view, qualify)(i) == CellKey(view, qualify, i) && ShareOn(today)(i) == Share(i, today);
  }

  lemma {:induction false} OpenerStep(s: seq<Instance>, i: Instance, key: Instance -> string, k: string)
    ensures Opener(s + [i], key, k) ==
            if Opener(s, key, k).None? && k == key(i) then Some(i) else Opener(s, key, k)
  {
    assert (s + [i])[..|s|] == s;
  }

  lemma CellStep(cells: map<string, Cell>, s: seq<Instance>, i: Instance, view: View, qualify: bool, today: Date,
                 k: string)
    requires CellsOk(cells, s, view, qualify, today) && k in cells.Keys + {CellKey(view, qualify, i)}
    ensures k in WithInstance(cells, i, view, qualify, today) && k in Grid(s + [i], view, qualify, today)
    ensures CellOk(WithInstance(cells, i, view, qualify, today), s + [i], view, qualify,
                   Grid(s + [i], view, qualify, today), k)
  {
    GridStep(s, i, view, qualify, today);
    OpenerStep(s, i, KeyOf(view, qualify), k);
    OpenerHasKey(s, KeyOf(view, qualify), ShareOn(today), k);
    assert k in cells ==> CellOk(cells, s, view, qualify, Grid(s, view, qualify, today), k);
  }

  lemma AddingKeepsCells(cells: map<string, Cell>, s: seq<Instance>, i: Instance, view: View, qualify: bool,
                         today: Date)
    requires CellsOk(cells, s, view, qualify, today)
    ensures CellsOk(WithInstance(cells, i, view, qualify, today), s + [i], view, qualify, today)
  {
    GridStep(s, i, view, qualify, today);
    forall k | k in WithInstance(cells, i, view, qualify, today)
      ensures k in Grid(s + [i], view, qualify, today)
      ensures CellOk(WithInstance(cells, i, view, qualify, today), s + [i], view, qualify,
                     Grid(s + [i], view, qualify, today), k)
    {
      CellStep(cells, s, i, view, qualify, today, k);
    }
  }

  lemma NextKeepsCells(cells: map<string, Cell>, s: seq<Instance>, n: nat, view: View, qualify: bool, today: Date)
    requires n < |s| && CellsOk(cells, s[..n], view, qualify, today)
    ensures CellsOk(WithInstance(cells, s[n], view, qualify, today), s[..n + 1], view, qualify, today)
  {
    AddingKeepsCells(cells, s[..n], s[n], view, qualify, today);
    assert s[..n + 1] == s[..n] + [s[n]];
  }

  lemma {:induction false} OpenerHasKey(s: seq<Instance>, key: Instance -> string, f: Instance -> Tally, k: string)
    ensures Opener(s, key, k).Some? <==> k in Groups(s, key, f, TALLIES)
    ensures var o := Opener(s, key, k); o.Some? ==> o.value in s && key(o.value) == k
  {
    if s != [] {
      OpenerHasKey(s[..|s| - 1], key, f, k);
    }
  }

  // ----- the second loop: summary, labels, orders -------------------------

  function LabelOf(labels: map<string, string>, k: string): string { if k in labels then labels[k] else "" }

  function LabelBy(labels: map<string, string>): string -> string { k => LabelOf(labels, k) }

  /** Rows come in label order. */
  function RowLess(labels: map<string, string>): (string, string) -> bool
  {
    ByThen(LabelBy(labels), StringLess, StringLess)
  }

  function FirstOf(first: map<string, Date>): string -> Date { k => if k in first then first[k] else NO_DATE }

  /** Columns come by the earliest period they contain, then by label. */
  function ColLess(first: map<string, Date>, labels: map<string, string>): (string, string) -> bool
  {
    ByThen(FirstOf(first), Before, RowLess(labels))
  }

  lemma OrdersAreStrictTotal(first: map<string, Date>, labels: map<string, string>)
    ensures StrictTotal(RowLess(labels)) && StrictTotal(ColLess(first, labels))
  {
    StringLessIsStrictTotal();
    ByThenIsStrictTotal(LabelBy(labels), StringLess, StringLess);
    DatesAreOrdered();
    ByThenIsStrictTotal(FirstOf(first), Before, RowLess(labels));
  }

  /** What the second loop has gathered. */
  datatype Walked = Walked(summary: Summary, rowLabels: map<string, string>, colLabels: map<string, string>,
                           first: map<string, Date>)

  function Counted(s: Summary, c: Colour): Summary
  {
    match c
    case Green => s.(green := s.green + 1)
    case Amber => s.(amber := s.amber + 1)
    case Red => s.(red := s.red + 1)
    case Grey => s
  }

  function WithFirst(first: map<string, Date>, c: string, d: Option<Date>): map<string, Date>
  {
    if d.Some? && (c !in first || Before(d.value, first[c])) then first[c := d.value] else first
  }

  /** The second loop over the cells, in whatever order the map yields them. */
  function Walk(cells: map<string, Cell>, order: seq<string>): Walked
    requires Elements(order) <= cells.Keys
  {
    if order == [] then Walked(Summary(|cells|, 0, 0, 0), map[], map[], map[])
    else
      var k := order[|order| - 1];
      assert k in Elements(order) && Elements(order[..|order| - 1]) <= Elements(order);
      var (w, cell) := (Walk(cells, order[..|order| - 1]), cells[k]);
      Walked(Counted(w.summary, ColourOf(cell.tally)), w.rowLabels[cell.rowKey := cell.rowLabel],
             w.colLabels[cell.colKey := cell.colLabel], WithFirst(w.first, cell.colKey, cell.tally.firstEnd))
  }

  method Summarize(cells: map<string, Cell>) returns (w: Walked, ghost order: seq<string>)
    ensures Distinct(order) && Elements(order) == cells.Keys && w == Walk(cells, order)
  {
    var s, rowLabels, colLabels, first := Summary(|cells|, 0, 0, 0), map[], map[], map[];
    order := [];
    var todo := cells.Keys;
    while todo != {}
      invariant todo <= cells.Keys && Elements(order) == cells.Keys - todo && Distinct(order)
      invariant Walked(s, rowLabels, colLabels, first) == Walk(cells, order)
      decreases todo
    {
      var k :| k in todo;
      var cell := cells[k];
      s := Counted(s, ColourOf(cell.tally));
      rowLabels := rowLabels[cell.rowKey := cell.rowLabel];
      colLabels := colLabels[cell.colKey := cell.colLabel];
      first := WithFirst(first, cell.colKey, cell.tally.firstEnd);
      assert k !in Elements(order);
      assert Elements(order + [k]) == Elements(order) + {k} && (order + [k])[..|order|] == order;
      order := order + [k];
      todo := todo - {k};
    }
    w := Walked(s, rowLabels, colLabels, first);
  }

  /** The orders the payload must list rows and columns in. */
  ghost predicate InOrder(r: Report, w: Walked)
  {
    && Increasing(r.rowOrder, RowLess(w.rowLabels)) && Elements(r.rowOrder) == w.rowLabels.Keys
    && Increasing(r.colOrder, ColLess(w.first, w.colLabels)) && Elements(r.colOrder) == w.colLabels.Keys
  }

  /** What the report of a list of instances is, for some iteration order of its map of cells. */
  ghost predicate IsHeatmapOf(r: Report, s: seq<Instance>, view: View, qualify: bool, today: Date, order: seq<string>)
  {
    && CellsOk(r.cells, s, view, qualify, today)
    && Distinct(order) && Elements(order) == r.cells.Keys
    && r.summary == Walk(r.cells, order).summary && InOrder(r, Walk(r.cells, order))
  }

  method HeatmapKeyed(instances: seq<Instance>, f: Filters, view: View, qualify: bool, today: Date)
    returns (r: Report)
    ensures exists order :: IsHeatmapOf(r, Participating(instances, f), view, qualify, today, order)
  {
    var s := CollectParticipating(instances, f);
    var cells := FillCells(s, view, qualify, today);
    var w;
    ghost var order;
    w, order := Summarize(cells);
    OrdersAreStrictTotal(w.first, w.rowLabels);
    var rowOrder := SortedKeys(w.rowLabels.Keys, RowLess(w.rowLabels));
    OrdersAreStrictTotal(w.first, w.colLabels);
    var colOrder := SortedKeys(w.colLabels.Keys, ColLess(w.first, w.colLabels));
    r := Report(cells, rowOrder, colOrder, w.summary);
    assert IsHeatmapOf(r, s, view, qualify, today, order);
  }

  /** Every cell has an instance in it, so none is grey and each has a first period. */
  lemma {:induction false} TalliesAreInhabited(s: seq<Instance>, key: Instance -> string, today: Date, k: string)
    requires k in Groups(s, key, ShareOn(today), TALLIES)
    ensures var t := Groups(s, key, ShareOn(today), TALLIES)[k];
            t.total > 0 && t.firstEnd.Some? && ColourOf(t) != Grey && t.completed <= t.total
  {
    var init, x := s[..|s| - 1], s[|s| - 1];
    if k in Groups(init, key, ShareOn(today), TALLIES) {
      TalliesAreInhabited(init, key, today, k);
    }
  }
}
