/** What the heatmap guarantees whatever the order of its input and of its map
    of cells, and exactly when its cells do not depend on that order. */
module HeatmapTheorems {
  import opened Outcomes
  import opened Ordering
  import opened Text
  import opened Aggregation
  import opened OracleWorld
  import opened Heatmap

  // ----- conservation -----------------------------------------------------

  lemma {:induction false} TotalOfShares(s: seq<Instance>, today: Date)
    ensures var t := Total(s, ShareOn(today), TALLIES);
            && t.total == |s| && t.overdue == Count(s, Graded(today, Missed)) && t.late == Count(s, Graded(today, Late))
            && t.completed <= t.total
  {
    if s != [] {
      TotalOfShares(s[..|s| - 1], today);
    }
  }

  /** The cells together count every participating instance once, its overdue
      ones as the missed and its late ones as the completed-late. */
  lemma {:induction false} CellsConserveInstances(s: seq<Instance>, view: View, qualify: bool, today: Date)
    ensures var g := Grid(s, view, qualify, today);
            var all := SumOver(g, g.Keys, TALLIES);
            all.total == |s| && all.overdue == Count(s, Graded(today, Missed))
              && all.late == Count(s, Graded(today, Late))
  {
    TalliesCommute();
    GroupsConserveTotal(s, KeyOf(view, qualify), ShareOn(today), TALLIES);
    TotalOfShares(s, today);
  }

  // ----- what a cell's counters mean ---------------------------------------

  function InCell(key: Instance -> string, k: string, p: Instance -> bool): Instance -> bool
  {
    (i: Instance) => key(i) == k && p(i)
  }

  function CountOf(s: seq<Instance>, key: Instance -> string, k: string, p: Instance -> bool): nat
  {
    Count(s, InCell(key, k, p))
  }

  function Anyone(): Instance -> bool { (i: Instance) => true }

  function Underway(): Instance -> bool
  {
    (i: Instance) => i.status in {InProgress, InReview, PendingApproval}
  }

  function Graded(today: Date, c: Class): Instance -> bool { (i: Instance) => Classify(i, i.dueDate, today) == c }

  /** Every counter of a cell is the number of the key's instances it is named for. */
  lemma {:induction false} CountersCountInstances(s: seq<Instance>, key: Instance -> string, k: string, today: Date)
    ensures var t := At(Groups(s, key, ShareOn(today), TALLIES), k, TALLIES);
            && t.total == CountOf(s, key, k, Anyone()) && t.completed == CountOf(s, key, k, Done())
            && t.overdue == CountOf(s, key, k, Graded(today, Missed))
            && t.late == CountOf(s, key, k, Graded(today, Late))
            && t.inProgress == CountOf(s, key, k, Underway())
  {
    if s != [] {
      CountersCountInstances(s[..|s| - 1], key, k, today);
    }
  }

  lemma {:induction false} CountMeaning(s: seq<Instance>, key: Instance -> string, k: string, p: Instance -> bool)
    ensures CountOf(s, key, k, p) > 0 <==> exists x :: x in s && key(x) == k && p(x)
    ensures CountOf(s, key, k, p) <= CountOf(s, key, k, Anyone())
    ensures CountOf(s, key, k, p) == CountOf(s, key, k, Anyone()) <==> forall x :: x in s && key(x) == k ==> p(x)
  {
    if s != [] {
      var (init, last) := (s[..|s| - 1], s[|s| - 1]);
      CountMeaning(init, key, k, p);
      assert forall x :: x in s <==> x in init || x == last;
    }
  }

  /** A cell is red if and only if one of its instances is missed or was
      completed late, and green if and only if none is and all are completed. */
  lemma {:induction false} ColourMeaning(s: seq<Instance>, key: Instance -> string, k: string, today: Date)
    requires k in Groups(s, key, ShareOn(today), TALLIES)
    ensures var c := ColourOf(Groups(s, key, ShareOn(today), TALLIES)[k]);
            && (c == Red <==> (exists x :: x in s && key(x) == k && Graded(today, Missed)(x))
                              || exists x :: x in s && key(x) == k && Graded(today, Late)(x))
            && (c == Green <==> c != Red && forall x :: x in s && key(x) == k ==> Done()(x))
  {
    CountersCountInstances(s, key, k, today);
    CountMeaning(s, key, k, Graded(today, Missed));
    CountMeaning(s, key, k, Graded(today, Late));
    CountMeaning(s, key, k, Done());
    TalliesAreInhabited(s, key, today, k);
  }

  function CellsOf(cells: map<string, Cell>, keys: set<string>, c: Colour): set<string>
  {
    set k | k in keys && k in cells && ColourOf(cells[k].tally) == c
  }

  lemma {:induction false} WalkCountsColours(cells: map<string, Cell>, order: seq<string>)
    requires Distinct(order) && Elements(order) <= cells.Keys
    ensures var (s, keys) := (Walk(cells, order).summary, Elements(order));
            && s.totalCells == |cells|
            && s.green == |CellsOf(cells, keys, Green)| && s.amber == |CellsOf(cells, keys, Amber)|
            && s.red == |CellsOf(cells, keys, Red)|
            && s.green + s.amber + s.red + |CellsOf(cells, keys, Grey)| == |order|
  {
    if order != [] {
      var n := |order| - 1;
      var keys, k := Elements(order[..n]), order[n];
      assert Elements(order) == keys + {k} by {
        assert order == order[..n] + [k];
      }
      assert k !in keys;
      WalkCountsColours(cells, order[..n]);
      OneMoreCell(cells, keys, k, Green);
      OneMoreCell(cells, keys, k, Amber);
      OneMoreCell(cells, keys, k, Red);
      OneMoreCell(cells, keys, k, Grey);
    }
  }

  lemma OneMoreCell(cells: map<string, Cell>, keys: set<string>, k: string, c: Colour)
    requires k in cells && k !in keys
    ensures |CellsOf(cells, keys + {k}, c)|
            == |CellsOf(cells, keys, c)| + (if ColourOf(cells[k].tally) == c then 1 else 0)
  {
    assert CellsOf(cells, keys + {k}, c)
           == if ColourOf(cells[k].tally) == c then CellsOf(cells, keys, c) + {k} else CellsOf(cells, keys, c);
  }

  /** Every cell is green, amber or red, and the summary counts each once. */
  lemma SummaryCountsEveryCell(r: Report, s: seq<Instance>, view: View, qualify: bool, today: Date, order: seq<string>)
    requires IsHeatmapOf(r, s, view, qualify, today, order)
    ensures r.summary.totalCells == |r.cells| == r.summary.green + r.summary.amber + r.summary.red
    ensures r.summary.green == |CellsOf(r.cells, r.cells.Keys, Green)|
    ensures r.summary.amber == |CellsOf(r.cells, r.cells.Keys, Amber)|
    ensures r.summary.red == |CellsOf(r.cells, r.cells.Keys, Red)|
    ensures CellsOf(r.cells, r.cells.Keys, Grey) == {}
  {
    WalkCountsColours(r.cells, order);
    DistinctSize(order);
    assert |r.cells| == |r.cells.Keys|;
    forall k | k in r.cells ensures ColourOf(r.cells[k].tally) != Grey {
      TalliesAreInhabited(s, KeyOf(view, qualify), today, k);
    }
  }

  // ----- independence of every order --------------------------------------

  /** Labels are functions of keys. */
  ghost predicate LabelsByKey(s: seq<Instance>, view: View, qualify: bool)
  {
    && (forall x, y :: x in s && y in s && RowKey(x) == RowKey(y) ==> RowLabel(x) == RowLabel(y))
    && (forall x, y :: x in s && y in s && ColKey(view, qualify, x) == ColKey(view, qualify, y)
                       ==> ColLabel(view, qualify, x) == ColLabel(view, qualify, y))
  }

  /** Instances that share a cell share its row. */
  ghost predicate Unambiguous(s: seq<Instance>, view: View, qualify: bool)
  {
    forall x, y :: x in s && y in s && CellKey(view, qualify, x) == CellKey(view, qualify, y) ==> RowKey(x) == RowKey(y)
  }

  /** Keys without a bar on either side are unambiguous. */
  lemma BarFreeKeysAreUnambiguous(s: seq<Instance>, view: View, qualify: bool)
    requires (forall x :: x in s ==> Free(RowKey(x), '|'))
             || (forall x :: x in s ==> Free(ColKey(view, qualify, x), '|'))
    ensures Unambiguous(s, view, qualify)
  {
    forall x, y | x in s && y in s && CellKey(view, qualify, x) == CellKey(view, qualify, y)
      ensures RowKey(x) == RowKey(y)
    {
      if Free(RowKey(x), '|') && Free(RowKey(y), '|') {
        CutInjective(RowKey(x), ColKey(view, qualify, x), RowKey(y), ColKey(view, qualify, y), '|');
      } else {
        LastCutInjective(RowKey(x), ColKey(view, qualify, x), RowKey(y), ColKey(view, qualify, y), '|');
      }
    }
  }

  lemma SameRowSameColumn(x: Instance, y: Instance, view: View, qualify: bool)
    requires CellKey(view, qualify, x) == CellKey(view, qualify, y) && RowKey(x) == RowKey(y)
    ensures ColKey(view, qualify, x) == ColKey(view, qualify, y)
  {
    var n := |RowKey(x)| + 1;
    assert CellKey(view, qualify, x)[n..] == ColKey(view, qualify, x)
      && CellKey(view, qualify, y)[n..] == ColKey(view, qualify, y);
  }

  /** Some instance of `s` is named like the cell. */
  lemma CellHasOpener(cells: map<string, Cell>, s: seq<Instance>, view: View, qualify: bool, today: Date, k: string)
    returns (x: Instance)
    requires CellsOk(cells, s, view, qualify, today) && k in cells
    ensures x in s && CellKey(view, qualify, x) == k && cells[k] == NewCell(view, qualify, x, cells[k].tally)
  {
    OpenerHasKey(s, KeyOf(view, qualify), ShareOn(today), k);
    x := Opener(s, KeyOf(view, qualify), k).value;
  }

  lemma CellsOfPermutation(c1: map<string, Cell>, c2: map<string, Cell>, s: seq<Instance>, t: seq<Instance>,
                           view: View, qualify: bool, today: Date)
    requires multiset(s) == multiset(t) && LabelsByKey(s, view, qualify) && Unambiguous(s, view, qualify)
    requires CellsOk(c1, s, view, qualify, today) && CellsOk(c2, t, view, qualify, today)
    ensures c1 == c2
  {
    TalliesCommute();
    GroupsOfPermutation(s, t, KeyOf(view, qualify), ShareOn(today), TALLIES);
    SamePermutationElements(s, t);
    forall k | k in c1 ensures c1[k] == c2[k] {
      CellOfPermutation(c1, c2, s, t, view, qualify, today, k);
    }
  }

  lemma CellOfPermutation(c1: map<string, Cell>, c2: map<string, Cell>, s: seq<Instance>, t: seq<Instance>,
                          view: View, qualify: bool, today: Date, k: string)
    requires LabelsByKey(s, view, qualify) && Unambiguous(s, view, qualify) && (forall x :: x in t ==> x in s)
    requires CellsOk(c1, s, view, qualify, today) && CellsOk(c2, t, view, qualify, today)
    requires Grid(s, view, qualify, today) == Grid(t, view, qualify, today) && k in c1 && k in c2
    ensures c1[k] == c2[k]
  {
    var x := CellHasOpener(c1, s, view, qualify, today, k);
    var y := CellHasOpener(c2, t, view, qualify, today, k);
    assert y in s;
    SameRowSameColumn(x, y, view, qualify);
    assert CellOk(c1, s, view, qualify, Grid(s, view, qualify, today), k)
      && CellOk(c2, t, view, qualify, Grid(t, view, qualify, today), k);
  }

  function RowName(c: Cell): (string, string) { (c.rowKey, c.rowLabel) }

  function ColName(c: Cell): (string, string) { (c.colKey, c.colLabel) }

  /** The labels a walk leaves in a map: the last one written under each key. */
  function LabelsAlong(cells: map<string, Cell>, order: seq<string>,
                       name: Cell -> (string, string)): map<string, string>
    requires Elements(order) <= cells.Keys
  {
    if order == [] then map[]
    else
      var k := order[|order| - 1];
      assert k in Elements(order) && Elements(order[..|order| - 1]) <= Elements(order);
      LabelsAlong(cells, order[..|order| - 1], name)[name(cells[k]).0 := name(cells[k]).1]
  }

  lemma {:induction false} WalkGathersLabels(cells: map<string, Cell>, order: seq<string>)
    requires Elements(order) <= cells.Keys
    ensures Walk(cells, order).rowLabels == LabelsAlong(cells, order, RowName)
    ensures Walk(cells, order).colLabels == LabelsAlong(cells, order, ColName)
  {
    if order != [] {
      assert Elements(order[..|order| - 1]) <= Elements(order);
      WalkGathersLabels(cells, order[..|order| - 1]);
    }
  }

  lemma {:induction false} LabelsComeFromCells(cells: map<string, Cell>, order: seq<string>,
                                               name: Cell -> (string, string))
    requires Elements(order) <= cells.Keys
    ensures LabelsAlong(cells, order, name).Keys == set k | k in Elements(order) :: name(cells[k]).0
    ensures forall r :: r in LabelsAlong(cells, order, name) ==>
                          exists k :: k in Elements(order) && name(cells[k]) == (r, LabelsAlong(cells, order, name)[r])
  {
    if order != [] {
      var n := |order| - 1;
      assert Elements(order) == Elements(order[..n]) + {order[n]} by {
        assert order == order[..n] + [order[n]];
      }
      LabelsComeFromCells(cells, order[..n], name);
    }
  }

  /** For every column among `keys`, the earliest first period of its cells. */
  ghost predicate IsFirstOf(cells: map<string, Cell>, keys: set<string>, first: map<string, Date>)
    requires keys <= cells.Keys && forall k :: k in keys ==> cells[k].tally.firstEnd.Some?
  {
    && (forall k :: k in keys ==>
                      && cells[k].colKey in first
                      && !Before(cells[k].tally.firstEnd.value, first[cells[k].colKey]))
    && (forall c :: c in first ==>
                      exists k :: k in keys && (cells[k].colKey, cells[k].tally.firstEnd.value) == (c, first[c]))
  }

  lemma {:induction false} WalkFirst(cells: map<string, Cell>, order: seq<string>)
    requires Elements(order) <= cells.Keys && forall k :: k in cells ==> cells[k].tally.firstEnd.Some?
    ensures IsFirstOf(cells, Elements(order), Walk(cells, order).first)
  {
    DatesAreOrdered();
    if order != [] {
      var n := |order| - 1;
      assert Elements(order) == Elements(order[..n]) + {order[n]} by {
        assert order == order[..n] + [order[n]];
      }
      WalkFirst(cells, order[..n]);
    }
  }

  /** The labels of the cells are functions of their keys. */
  ghost predicate OneLabelPerKey(cells: map<string, Cell>, name: Cell -> (string, string))
  {
    forall j, k :: j in cells && k in cells && name(cells[j]).0 == name(cells[k]).0 ==> name(cells[j]) == name(cells[k])
  }

  lemma LabelledCells(cells: map<string, Cell>, s: seq<Instance>, view: View, qualify: bool, today: Date)
    requires CellsOk(cells, s, view, qualify, today) && LabelsByKey(s, view, qualify)
    ensures OneLabelPerKey(cells, RowName) && OneLabelPerKey(cells, ColName)
  {
    forall j, k | j in cells && k in cells
      ensures cells[j].rowKey == cells[k].rowKey ==> cells[j].rowLabel == cells[k].rowLabel
      ensures cells[j].colKey == cells[k].colKey ==> cells[j].colLabel == cells[k].colLabel
    {
      var x := CellHasOpener(cells, s, view, qualify, today, j);
      var y := CellHasOpener(cells, s, view, qualify, today, k);
    }
  }

  lemma {:induction false} LabelsIgnoreOrder(cells: map<string, Cell>, o1: seq<string>, o2: seq<string>,
                                             name: Cell -> (string, string))
    requires OneLabelPerKey(cells, name) && Elements(o1) == cells.Keys == Elements(o2)
    ensures LabelsAlong(cells, o1, name) == LabelsAlong(cells, o2, name)
  {
    var l1, l2 := LabelsAlong(cells, o1, name), LabelsAlong(cells, o2, name);
    LabelsComeFromCells(cells, o1, name);
    LabelsComeFromCells(cells, o2, name);
    forall r | r in l1 ensures l1[r] == l2[r] {
      var j :| j in Elements(o1) && name(cells[j]) == (r, l1[r]);
      var k :| k in Elements(o2) && name(cells[k]) == (r, l2[r]);
    }
  }

  lemma FirstIsUnique(cells: map<string, Cell>, keys: set<string>, f1: map<string, Date>, f2: map<string, Date>)
    requires keys <= cells.Keys && forall k :: k in keys ==> cells[k].tally.firstEnd.Some?
    requires IsFirstOf(cells, keys, f1) && IsFirstOf(cells, keys, f2)
    ensures f1 == f2
  {
    forall c | c in f1 ensures c in f2 && f1[c] == f2[c] {
      DatesAreOrdered();
    }
    forall c | c in f2 ensures c in f1 {
    }
  }

  lemma {:induction false} FirstIgnoresOrder(cells: map<string, Cell>, o1: seq<string>, o2: seq<string>)
    requires Elements(o1) == cells.Keys == Elements(o2)
    requires forall k :: k in cells ==> cells[k].tally.firstEnd.Some?
    ensures Walk(cells, o1).first == Walk(cells, o2).first
  {
    WalkFirst(cells, o1);
    WalkFirst(cells, o2);
    FirstIsUnique(cells, cells.Keys, Walk(cells, o1).first, Walk(cells, o2).first);
  }

  lemma {:induction false} WalksAgree(cells: map<string, Cell>, o1: seq<string>, o2: seq<string>)
    requires Elements(o1) == cells.Keys == Elements(o2)
    requires OneLabelPerKey(cells, RowName) && OneLabelPerKey(cells, ColName)
    requires forall k :: k in cells ==> cells[k].tally.firstEnd.Some?
    ensures Walk(cells, o1) == Walk(cells, o2).(summary := Walk(cells, o1).summary)
  {
    WalkGathersLabels(cells, o1);
    WalkGathersLabels(cells, o2);
    LabelsIgnoreOrder(cells, o1, o2, RowName);
    LabelsIgnoreOrder(cells, o1, o2, ColName);
    FirstIgnoresOrder(cells, o1, o2);
  }

  lemma OneOrderPerWalk(r1: Report, r2: Report, w: Walked)
    requires InOrder(r1, w) && InOrder(r2, w)
    ensures r1.rowOrder == r2.rowOrder && r1.colOrder == r2.colOrder
  {
    OrdersAreStrictTotal(w.first, w.rowLabels);
    IncreasingIsUnique(r1.rowOrder, r2.rowOrder, RowLess(w.rowLabels));
    OrdersAreStrictTotal(w.first, w.colLabels);
    IncreasingIsUnique(r1.colOrder, r2.colOrder, ColLess(w.first, w.colLabels));
  }

  /** The keys of the cells, what they count and the summary need no condition on
      any name to be the same for every order. */
  lemma TalliesIgnoreOrder(r1: Report, r2: Report, s: seq<Instance>, t: seq<Instance>, view: View, qualify: bool,
                           today: Date, o1: seq<string>, o2: seq<string>)
    requires multiset(s) == multiset(t)
    requires IsHeatmapOf(r1, s, view, qualify, today, o1) && IsHeatmapOf(r2, t, view, qualify, today, o2)
    ensures r1.cells.Keys == r2.cells.Keys && forall k :: k in r1.cells ==> r1.cells[k].tally == r2.cells[k].tally
    ensures r1.summary == r2.summary
  {
    TalliesOfPermutation(r1.cells, r2.cells, s, t, view, qualify, today);
    SummaryCountsEveryCell(r1, s, view, qualify, today, o1);
    SummaryCountsEveryCell(r2, t, view, qualify, today, o2);
    ColoursAgree(r1.cells, r2.cells, Green);
    ColoursAgree(r1.cells, r2.cells, Amber);
    ColoursAgree(r1.cells, r2.cells, Red);
  }

  lemma TalliesOfPermutation(c1: map<string, Cell>, c2: map<string, Cell>, s: seq<Instance>, t: seq<Instance>,
                             view: View, qualify: bool, today: Date)
    requires multiset(s) == multiset(t) && CellsOk(c1, s, view, qualify, today) && CellsOk(c2, t, view, qualify, today)
    ensures c1.Keys == c2.Keys && forall k :: k in c1 ==> c1[k].tally == c2[k].tally
  {
    TalliesCommute();
    GroupsOfPermutation(s, t, KeyOf(view, qualify), ShareOn(today), TALLIES);
    var grid := Grid(s, view, qualify, today);
    forall k | k in c1 ensures k in c2 && c1[k].tally == c2[k].tally {
      assert CellOk(c1, s, view, qualify, grid, k) && CellOk(c2, t, view, qualify, grid, k);
    }
  }

  lemma ColoursAgree(c1: map<string, Cell>, c2: map<string, Cell>, c: Colour)
    requires c1.Keys == c2.Keys && forall k :: k in c1 ==> c1[k].tally == c2[k].tally
    ensures CellsOf(c1, c1.Keys, c) == CellsOf(c2, c2.Keys, c)
  {
  }

  /** The whole report is the same for every order of the instances and every
      order the map of cells is walked in. */
  lemma HeatmapIgnoresOrder(r1: Report, r2: Report, s: seq<Instance>, t: seq<Instance>, view: View, qualify: bool,
                            today: Date, o1: seq<string>, o2: seq<string>)
    requires multiset(s) == multiset(t) && LabelsByKey(s, view, qualify) && Unambiguous(s, view, qualify)
    requires IsHeatmapOf(r1, s, view, qualify, today, o1) && IsHeatmapOf(r2, t, view, qualify, today, o2)
    ensures r1 == r2
  {
    CellsOfPermutation(r1.cells, r2.cells, s, t, view, qualify, today);
    TalliesIgnoreOrder(r1, r2, s, t, view, qualify, today, o1, o2);
    LabelledCells(r1.cells, s, view, qualify, today);
    forall k | k in r1.cells ensures r1.cells[k].tally.firstEnd.Some? {
      TalliesAreInhabited(s, KeyOf(view, qualify), today, k);
    }
    WalksAgree(r1.cells, o1, o2);
    OneOrderPerWalk(r1, r2, Walk(r1.cells, o1));
  }

  // ----- exactly when -----------------------------------------------------

  /** The instances have one report, however they and the cells are ordered. */
  ghost predicate OneReport(s: seq<Instance>, view: View, qualify: bool, today: Date)
  {
    forall t, r1, r2, o1, o2 ::
      multiset(t) == multiset(s) && IsHeatmapOf(r1, s, view, qualify, today, o1)
        && IsHeatmapOf(r2, t, view, qualify, today, o2)
      ==> r1 == r2
  }

  lemma {:induction false} CellsExist(s: seq<Instance>, view: View, qualify: bool, today: Date)
    returns (cells: map<string, Cell>)
    ensures CellsOk(cells, s, view, qualify, today)
  {
    cells := map[];
    if s != [] {
      var (init, last) := (s[..|s| - 1], s[|s| - 1]);
      var earlier := CellsExist(init, view, qualify, today);
      AddingKeepsCells(earlier, init, last, view, qualify, today);
      assert init + [last] == s;
      cells := WithInstance(earlier, last, view, qualify, today);
    }
  }

  /** Every list of instances has a report. */
  lemma ReportExists(s: seq<Instance>, view: View, qualify: bool, today: Date) returns (r: Report, order: seq<string>)
    ensures IsHeatmapOf(r, s, view, qualify, today, order)
  {
    var cells := CellsExist(s, view, qualify, today);
    StringLessIsStrictTotal();
    order := SortedList(cells.Keys, StringLess);
    var w := Walk(cells, order);
    OrdersAreStrictTotal(w.first, w.rowLabels);
    var rows := SortedList(w.rowLabels.Keys, RowLess(w.rowLabels));
    OrdersAreStrictTotal(w.first, w.colLabels);
    var columns := SortedList(w.colLabels.Keys, ColLess(w.first, w.colLabels));
    r := Report(cells, rows, columns, w.summary);
  }

  lemma {:induction false} FirstOpens(x: Instance, rest: seq<Instance>, key: Instance -> string)
    ensures Opener([x] + rest, key, key(x)) == Some(x)
  {
    if rest == [] {
      assert [x] + rest == [x] && [x][..0] == [];
    } else {
      FirstOpens(x, rest[..|rest| - 1], key);
      assert ([x] + rest)[..|rest|] == [x] + rest[..|rest| - 1];
    }
  }

  /** With `x` in front, some report names `x`'s row in its cell. */
  lemma ReportInFavourOf(s: seq<Instance>, x: Instance, view: View, qualify: bool, today: Date)
    returns (t: seq<Instance>, r: Report, order: seq<string>)
    requires x in s
    ensures multiset(t) == multiset(s) && IsHeatmapOf(r, t, view, qualify, today, order)
    ensures CellKey(view, qualify, x) in r.cells && r.cells[CellKey(view, qualify, x)].rowKey == RowKey(x)
  {
    var j :| 0 <= j < |s| && s[j] == x;
    var rest := s[..j] + s[j + 1..];
    t := [x] + rest;
    RemoveAt(s, j);
    r, order := ReportExists(t, view, qualify, today);
    FirstOpens(x, rest, KeyOf(view, qualify));
    OpenerHasKey(t, KeyOf(view, qualify), ShareOn(today), CellKey(view, qualify, x));
    assert CellOk(r.cells, t, view, qualify, Grid(t, view, qualify, today), CellKey(view, qualify, x));
  }

  /** Where labels are functions of keys, the report is a function of the bag of
      instances if and only if instances that share a cell share its row. */
  lemma OneReportIff(s: seq<Instance>, view: View, qualify: bool, today: Date)
    requires LabelsByKey(s, view, qualify)
    ensures OneReport(s, view, qualify, today) <==> Unambiguous(s, view, qualify)
  {
    if Unambiguous(s, view, qualify) {
      forall t, r1, r2, o1, o2 | multiset(t) == multiset(s) && IsHeatmapOf(r1, s, view, qualify, today, o1)
                                 && IsHeatmapOf(r2, t, view, qualify, today, o2)
        ensures r1 == r2
      {
        HeatmapIgnoresOrder(r1, r2, s, t, view, qualify, today, o1, o2);
      }
    }
    if OneReport(s, view, qualify, today) {
      var r, order := ReportExists(s, view, qualify, today);
      forall x, y | x in s && y in s && CellKey(view, qualify, x) == CellKey(view, qualify, y)
        ensures RowKey(x) == RowKey(y)
      {
        var t, r1, o1 := ReportInFavourOf(s, x, view, qualify, today);
        var u, r2, o2 := ReportInFavourOf(s, y, view, qualify, today);
        assert r == r1 && r == r2;
      }
    }
  }

  /** The condition can fail: entities "a|b" and "a" with obligations "c" and "b|c"
      share a cell of the tax-type view, and which of them names it is decided by
      the order they come in. */
  lemma BarsInKeysMakeOrderMatter(end: Date, today: Date) returns (x: Instance, y: Instance)
    ensures LabelsByKey([x, y], TaxTypeView, false) && !Unambiguous([x, y], TaxTypeView, false)
    ensures !OneReport([x, y], TaxTypeView, false, today)
  {
    var w := Workflow("w", "active", true, "2026", Some(Entity("a|b", "A", "")), Some(Obligation("c", "C", "c", "")));
    var v := Workflow("v", "active", true, "2026", Some(Entity("a", "B", "")), Some(Obligation("b|c", "D", "d", "")));
    x := Instance(w, "t", "M1", end, end, end, NotStarted, None, map[]);
    y := Instance(v, "t", "M1", end, end, end, NotStarted, None, map[]);
    assert RowKey(x)[1] == '|' && |RowKey(y)| == 1;
    assert CellKey(TaxTypeView, false, x) == "a|b|c" == CellKey(TaxTypeView, false, y);
    assert x in [x, y] && y in [x, y];
    OneReportIff([x, y], TaxTypeView, false, today);
  }
}
