/** The compliance-status report: one classified row per participating
    instance, a summary over all of them, and status-filtered page sets. */
module Compliance {
  import opened Outcomes
  import opened Ordering
  import opened Aggregation
  import opened StableSort
  import opened OracleWorld

  datatype Row = Row(instance: Instance, entityName: string, entityKey: string, taxType: string, obligationName: string,
                     obligationCode: string, period: string, filingDeadline: Date, completedOn: Date, grade: Class)

  datatype Summary = Summary(total: nat, onTime: nat, late: nat, missed: nat, notDue: nat)

  function RowOf(i: Instance, today: Date): Row
  {
    Row(i, EntityName(i), EntityKey(i), TaxType(i), ObligationName(i), ObligationCode(i), i.periodCode,
        i.filingDeadline, if i.completedOn.None? then NO_DATE else i.completedOn.value,
        Classify(i, i.filingDeadline, today))
  }

  function RowsOf(s: seq<Instance>, today: Date): seq<Row>
  {
    seq(|s|, n requires 0 <= n < |s| => RowOf(s[n], today))
  }

  // ----- the report's order -----------------------------------------------

  function SortKey(r: Row): (string, string, string) { (r.entityName, r.obligationName, r.period) }

  predicate KeyLess(a: (string, string, string), b: (string, string, string))
  {
    if a.0 != b.0 then StringLess(a.0, b.0)
    else if a.1 != b.1 then StringLess(a.1, b.1)
    else StringLess(a.2, b.2)
  }

  lemma KeyLessIsStrictTotal()
    ensures StrictTotal(KeyLess)
  {
    StringLessIsStrictTotal();
    forall a, b, c | KeyLess(a, b) && KeyLess(b, c) ensures KeyLess(a, c) {
      KeyLessIsTransitive(a, b, c);
    }
    forall a, b ensures !KeyLess(a, a) && (a != b ==> KeyLess(a, b) || KeyLess(b, a)) {
    }
  }

  lemma KeyLessIsTransitive(a: (string, string, string), b: (string, string, string), c: (string, string, string))
    requires KeyLess(a, b) && KeyLess(b, c)
    ensures KeyLess(a, c)
  {
    StringLessIsStrictTotal();
    if a.0 == b.0 == c.0 {
      assert a.1 != b.1 && b.1 != c.1 ==> StringLess(a.1, c.1);
    } else {
      assert a.0 != b.0 && b.0 != c.0 ==> StringLess(a.0, c.0);
    }
  }

  // ----- counting ---------------------------------------------------------

  function WithClass(rows: seq<Row>, c: Class): seq<Row>
  {
    if rows == [] then []
    else WithClass(rows[..|rows| - 1], c) + (if rows[|rows| - 1].grade == c then [rows[|rows| - 1]] else [])
  }

  function SummaryOf(rows: seq<Row>): Summary
  {
    Summary(|rows|, |WithClass(rows, OnTime)|, |WithClass(rows, Late)|, |WithClass(rows, Missed)|,
            |WithClass(rows, NotDue)|)
  }

  lemma {:induction false} ClassCountIsTotal(rows: seq<Row>, c: Class)
    ensures |WithClass(rows, c)| == Total(rows, (r: Row) => if r.grade == c then 1 else 0, INT_SUM)
  {
    if rows != [] {
      ClassCountIsTotal(rows[..|rows| - 1], c);
    }
  }

  lemma SummaryOfPermutation(s: seq<Row>, t: seq<Row>)
    requires multiset(s) == multiset(t)
    ensures SummaryOf(s) == SummaryOf(t)
  {
    SamePermutationElements(s, t);
    assert Commutative(INT_SUM);
    forall c ensures |WithClass(s, c)| == |WithClass(t, c)| {
      ClassCountIsTotal(s, c);
      ClassCountIsTotal(t, c);
      TotalOfPermutation(s, t, (r: Row) => if r.grade == c then 1 else 0, INT_SUM);
    }
  }

  // ----- the report -------------------------------------------------------

  method ComplianceReport(instances: seq<Instance>, f: Filters, today: Date) returns (rows: seq<Row>, summary: Summary)
    ensures StableSortOf(rows, RowsOf(Participating(instances, f), today), SortKey, KeyLess)
    ensures summary == SummaryOf(rows)
  {
    var parts := CollectParticipating(instances, f);
    rows := [];
    var onTime: nat, late: nat, missed: nat, notDue: nat := 0, 0, 0, 0;
    for n := 0 to |parts|
      invariant rows == RowsOf(parts[..n], today)
      invariant SummaryOf(rows) == Summary(n, onTime, late, missed, notDue)
    {
      var row := RowOf(parts[n], today);
      assert (rows + [row])[..n] == rows;
      rows := rows + [row];
      match row.grade {
        case OnTime => onTime := onTime + 1;
        case Late => late := late + 1;
        case Missed => missed := missed + 1;
        case NotDue => notDue := notDue + 1;
      }
    }
    summary := Summary(|parts|, onTime, late, missed, notDue);
    assert parts[..|parts|] == parts;
    ghost var unsorted := rows;
    KeyLessIsStrictTotal();
    rows := InsertionSort(rows, SortKey, KeyLess);
    SameBucketsIsPermutation(rows, unsorted, SortKey);
    SummaryOfPermutation(rows, unsorted);
  }

  method RowsWithClass(rows: seq<Row>, grade: Option<Class>) returns (out: seq<Row>)
    ensures out == if grade.None? then rows else WithClass(rows, grade.value)
  {
    if grade.None? {
      return rows;
    }
    out := [];
    for n := 0 to |rows|
      invariant out == WithClass(rows[..n], grade.value)
    {
      assert rows[..n + 1][..n] == rows[..n];
      if rows[n].grade == grade.value {
        out := out + [rows[n]];
      }
    }
    assert rows[..|rows|] == rows;
  }

  lemma {:induction false} ClassHoldsItsRows(rows: seq<Row>, c: Class, r: Row)
    ensures multiset(WithClass(rows, c))[r] == if r.grade == c then multiset(rows)[r] else 0
  {
    if rows != [] {
      ClassHoldsItsRows(rows[..|rows| - 1], c, r);
      assert rows == rows[..|rows| - 1] + [rows[|rows| - 1]];
    }
  }

  lemma {:induction false} ClassMembers(rows: seq<Row>, c: Class, r: Row)
    ensures r in WithClass(rows, c) <==> r in rows && r.grade == c
  {
    ClassHoldsItsRows(rows, c, r);
    assert r in WithClass(rows, c) <==> r in multiset(WithClass(rows, c));
    assert r in rows <==> r in multiset(rows);
  }

  lemma {:induction false} ClassSizes(rows: seq<Row>)
    ensures |rows|
            == |WithClass(rows, OnTime)| + |WithClass(rows, Late)| + |WithClass(rows, Missed)|
               + |WithClass(rows, NotDue)|
  {
    if rows != [] {
      ClassSizes(rows[..|rows| - 1]);
    }
  }

  /** The four status filters cut the rows into four page sets that together
      hold every row as often as the report does; the sets are disjoint
      (ClassMembers) and their sizes are the summary's figures. */
  lemma {:induction false} ClassesPartitionRows(rows: seq<Row>)
    ensures multiset(rows) == multiset(WithClass(rows, OnTime)) + multiset(WithClass(rows, Late))
                              + multiset(WithClass(rows, Missed)) + multiset(WithClass(rows, NotDue))
    ensures |rows| == SummaryOf(rows).onTime + SummaryOf(rows).late + SummaryOf(rows).missed + SummaryOf(rows).notDue
  {
    var (a, b, c, d) := (multiset(WithClass(rows, OnTime)), multiset(WithClass(rows, Late)),
                         multiset(WithClass(rows, Missed)), multiset(WithClass(rows, NotDue)));
    forall r ensures multiset(rows)[r] == a[r] + b[r] + c[r] + d[r] {
      EachRowIsInOneClass(rows, r);
    }
    ClassSizes(rows);
  }

  lemma {:induction false} EachRowIsInOneClass(rows: seq<Row>, r: Row)
    ensures multiset(rows)[r] == multiset(WithClass(rows, OnTime))[r] + multiset(WithClass(rows, Late))[r]
                                 + multiset(WithClass(rows, Missed))[r] + multiset(WithClass(rows, NotDue))[r]
  {
    ClassHoldsItsRows(rows, OnTime, r);
    ClassHoldsItsRows(rows, Late, r);
    ClassHoldsItsRows(rows, Missed, r);
    ClassHoldsItsRows(rows, NotDue, r);
  }

  // ----- the report as the civil date advances ----------------------------

  /** The rows that fall overdue between two dates: open, and due in `[today, later)`. */
  predicate FallsOverdue(i: Instance, today: Date, later: Date)
  {
    && !(i.status.Completed? && i.completedOn.Some?)
    && !Before(i.filingDeadline, today) && Before(i.filingDeadline, later)
  }

  function Falling(s: seq<Instance>, today: Date, later: Date): seq<Instance>
  {
    if s == [] then []
    else Falling(s[..|s| - 1], today, later) + (if FallsOverdue(s[|s| - 1], today, later) then [s[|s| - 1]] else [])
  }

  function OfClass(r: Row, c: Class): seq<Row> { if r.grade == c then [r] else [] }

  lemma {:induction false} RowsGrow(s: seq<Instance>, today: Date, c: Class)
    requires s != []
    ensures WithClass(RowsOf(s, today), c)
            == WithClass(RowsOf(s[..|s| - 1], today), c) + OfClass(RowOf(s[|s| - 1], today), c)
  {
    assert RowsOf(s, today)[..|s| - 1] == RowsOf(s[..|s| - 1], today);
  }

  lemma {:induction false} SettledStay(s: seq<Instance>, today: Date, later: Date)
    requires CompareDates(today, later) <= 0
    ensures WithClass(RowsOf(s, later), OnTime) == WithClass(RowsOf(s, today), OnTime)
    ensures WithClass(RowsOf(s, later), Late) == WithClass(RowsOf(s, today), Late)
  {
    if s != [] {
      var init, x := s[..|s| - 1], s[|s| - 1];
      SettledStay(init, today, later);
      ClassificationAdvances(x, x.filingDeadline, today, later);
      RowsGrow(s, today, OnTime);
      RowsGrow(s, later, OnTime);
      RowsGrow(s, today, Late);
      RowsGrow(s, later, Late);
    }
  }

  lemma {:induction false} MissedGrow(s: seq<Instance>, today: Date, later: Date)
    requires CompareDates(today, later) <= 0
    ensures multiset(WithClass(RowsOf(s, later), Missed))
            == multiset(WithClass(RowsOf(s, today), Missed)) + multiset(RowsOf(Falling(s, today, later), later))
  {
    if s != [] {
      var init, x := s[..|s| - 1], s[|s| - 1];
      MissedGrow(init, today, later);
      RowsGrow(s, today, Missed);
      RowsGrow(s, later, Missed);
      FallingGrows(s, today, later, later);
      OneRowAdvances(x, today, later);
      BagsGrow(WithClass(RowsOf(init, later), Missed), WithClass(RowsOf(init, today), Missed),
               RowsOf(Falling(init, today, later), later), OfClass(RowOf(x, today), Missed),
               FallenRow(x, today, later, later));
    }
  }

  lemma {:induction false} NotDueShrink(s: seq<Instance>, today: Date, later: Date)
    requires CompareDates(today, later) <= 0
    ensures multiset(WithClass(RowsOf(s, today), NotDue))
            == multiset(WithClass(RowsOf(s, later), NotDue)) + multiset(RowsOf(Falling(s, today, later), today))
  {
    if s != [] {
      var init, x := s[..|s| - 1], s[|s| - 1];
      NotDueShrink(init, today, later);
      RowsGrow(s, today, NotDue);
      RowsGrow(s, later, NotDue);
      FallingGrows(s, today, later, today);
      OneRowAdvances(x, today, later);
      BagsGrow(WithClass(RowsOf(init, today), NotDue), WithClass(RowsOf(init, later), NotDue),
               RowsOf(Falling(init, today, later), today), OfClass(RowOf(x, later), NotDue),
               FallenRow(x, today, later, today));
    }
  }

  /** Two parts of a bag grow by what the bag grows by. */
  lemma BagsGrow(whole: seq<Row>, a: seq<Row>, b: seq<Row>, x: seq<Row>, y: seq<Row>)
    requires multiset(whole) == multiset(a) + multiset(b)
    ensures multiset(whole + (x + y)) == multiset(a + x) + multiset(b + y)
  {
  }

  function FallenRow(x: Instance, today: Date, later: Date, on: Date): seq<Row>
  {
    if FallsOverdue(x, today, later) then [RowOf(x, on)] else []
  }

  lemma {:induction false} FallingGrows(s: seq<Instance>, today: Date, later: Date, on: Date)
    requires s != []
    ensures RowsOf(Falling(s, today, later), on)
            == RowsOf(Falling(s[..|s| - 1], today, later), on) + FallenRow(s[|s| - 1], today, later, on)
  {
  }

  lemma OneRowAdvances(x: Instance, today: Date, later: Date)
    requires CompareDates(today, later) <= 0
    ensures OfClass(RowOf(x, later), Missed) == OfClass(RowOf(x, today), Missed) + FallenRow(x, today, later, later)
    ensures OfClass(RowOf(x, today), NotDue) == OfClass(RowOf(x, later), NotDue) + FallenRow(x, today, later, today)
  {
    ClassificationAdvances(x, x.filingDeadline, today, later);
  }

  /** The report's rows at a date, before any paging. */
  ghost predicate ReportRows(rows: seq<Row>, s: seq<Instance>, today: Date)
  {
    StableSortOf(rows, RowsOf(s, today), SortKey, KeyLess)
  }

  /** What a row says about its instance. */
  ghost predicate Describes(r: Row, today: Date)
  {
    var (i, w) := (r.instance, r.instance.workflow);
    && r.grade == Classify(i, i.filingDeadline, today)
    && r.period == i.periodCode && r.filingDeadline == i.filingDeadline
    && (i.completedOn == None ==> r.completedOn == Date(0, 0, 0))
    && (i.completedOn != None ==> i.completedOn == Some(r.completedOn))
    && (w.entity == None ==> r.entityKey == "" && r.entityName == "Unknown Entity")
    && (w.entity != None ==> (r.entityKey, r.entityName) == (w.entity.value.key, w.entity.value.name))
    && (w.obligation == None
        ==> r.taxType == r.obligationCode == "" && r.obligationName == "Unknown Obligation")
    && (w.obligation != None
        ==> (r.taxType, r.obligationCode, r.obligationName)
            == (w.obligation.value.template, w.obligation.value.code, w.obligation.value.name))
  }

  function InClass(c: Class, today: Date): Instance -> bool
  {
    (i: Instance) => Classify(i, i.filingDeadline, today) == c
  }

  lemma {:induction false} ClassCountsInstances(s: seq<Instance>, today: Date, c: Class)
    ensures |WithClass(RowsOf(s, today), c)| == Count(s, InClass(c, today))
  {
    if s != [] {
      ClassCountsInstances(s[..|s| - 1], today, c);
      RowsGrow(s, today, c);
    }
  }

  /** The summary's figures are the numbers of participating instances of each class. */
  lemma {:induction false} SummaryCountsInstances(rows: seq<Row>, s: seq<Instance>, today: Date)
    requires ReportRows(rows, s, today)
    ensures SummaryOf(rows) == Summary(|s|, Count(s, InClass(OnTime, today)), Count(s, InClass(Late, today)),
                                       Count(s, InClass(Missed, today)), Count(s, InClass(NotDue, today)))
  {
    SameBucketsIsPermutation(rows, RowsOf(s, today), SortKey);
    SummaryOfPermutation(rows, RowsOf(s, today));
    forall c ensures |WithClass(RowsOf(s, today), c)| == Count(s, InClass(c, today)) {
      ClassCountsInstances(s, today, c);
    }
  }

  /** The row may stand before the other: by entity name, then by obligation name, then by period. */
  predicate MayPrecede(a: Row, b: Row)
  {
    || StringLess(a.entityName, b.entityName)
    || (a.entityName == b.entityName && StringLess(a.obligationName, b.obligationName))
    || (a.entityName == b.entityName && a.obligationName == b.obligationName
        && (a.period == b.period || StringLess(a.period, b.period)))
  }

  function InstancesOf(rows: seq<Row>): seq<Instance> { seq(|rows|, n requires 0 <= n < |rows| => rows[n].instance) }

  /** The report lists every participating instance as often as it occurs, each row
      tells its own instance, and no row stands before one that belongs before it. */
  lemma RowsTellInstances(rows: seq<Row>, s: seq<Instance>, today: Date)
    requires ReportRows(rows, s, today)
    ensures multiset(InstancesOf(rows)) == multiset(s)
    ensures forall r :: r in rows ==> Describes(r, today)
    ensures forall m, n :: 0 <= m < n < |rows| ==> MayPrecede(rows[m], rows[n])
  {
    var unsorted := RowsOf(s, today);
    SameBucketsIsPermutation(rows, unsorted, SortKey);
    InstancesOfPermutation(rows, unsorted);
    assert InstancesOf(unsorted) == s;
    SamePermutationElements(rows, unsorted);
    StringLessIsStrictTotal();
    forall m, n | 0 <= m < n < |rows| ensures MayPrecede(rows[m], rows[n]) {
      assert !KeyLess(SortKey(rows[n]), SortKey(rows[m]));
    }
  }

  lemma {:induction false} InstancesOfPermutation(a: seq<Row>, b: seq<Row>)
    requires multiset(a) == multiset(b)
    ensures multiset(InstancesOf(a)) == multiset(InstancesOf(b))
    decreases |a|
  {
    SamePermutationElements(a, b);
    if a != [] {
      var j := WithoutLast(a, b);
      var rest := b[..j] + b[j + 1..];
      InstancesOfPermutation(a[..|a| - 1], rest);
      InstancesAround(a[..|a| - 1], a[|a| - 1], []);
      InstancesAround(b[..j], b[j], b[j + 1..]);
      assert a == a[..|a| - 1] + ([a[|a| - 1]] + []) && a[..|a| - 1] + [] == a[..|a| - 1];
      assert b == b[..j] + ([b[j]] + b[j + 1..]);
    }
  }

  lemma InstancesAround(front: seq<Row>, r: Row, back: seq<Row>)
    ensures multiset(InstancesOf(front + ([r] + back))) == multiset(InstancesOf(front + back)) + multiset{r.instance}
  {
    assert InstancesOf(front + ([r] + back)) == InstancesOf(front) + ([r.instance] + InstancesOf(back));
    assert InstancesOf(front + back) == InstancesOf(front) + InstancesOf(back);
  }

  /** What the report lists as on time or late at one date it lists, the same rows
      in the same order, at any later date. */
  lemma {:induction false} SettledRowsStay(s: seq<Instance>, today: Date, later: Date, rows: seq<Row>, after: seq<Row>)
    requires CompareDates(today, later) <= 0 && ReportRows(rows, s, today) && ReportRows(after, s, later)
    ensures WithClass(after, OnTime) == WithClass(rows, OnTime) && WithClass(after, Late) == WithClass(rows, Late)
  {
    SettledStay(s, today, later);
    OneSortedClass(rows, RowsOf(s, today), after, RowsOf(s, later), OnTime);
    OneSortedClass(rows, RowsOf(s, today), after, RowsOf(s, later), Late);
  }

  lemma {:induction false} OneSortedClass(a: seq<Row>, s: seq<Row>, b: seq<Row>, t: seq<Row>, c: Class)
    requires StableSortOf(a, s, SortKey, KeyLess) && StableSortOf(b, t, SortKey, KeyLess)
    requires WithClass(s, c) == WithClass(t, c)
    ensures WithClass(b, c) == WithClass(a, c)
  {
    ClassOfStableSort(a, s, c);
    ClassOfStableSort(b, t, c);
    KeyLessIsStrictTotal();
    StableSortIsUnique(WithClass(b, c), WithClass(a, c), SortKey, KeyLess);
  }

  /** Filtering by class a stable sort is stably sorting what the filter keeps. */
  lemma {:induction false} ClassOfStableSort(out: seq<Row>, s: seq<Row>, c: Class)
    requires StableSortOf(out, s, SortKey, KeyLess)
    ensures StableSortOf(WithClass(out, c), WithClass(s, c), SortKey, KeyLess)
  {
    ClassIsSorted(out, c);
    forall k ensures Bucket(WithClass(out, c), SortKey, k) == Bucket(WithClass(s, c), SortKey, k) {
      ClassOfBucket(out, c, k);
      ClassOfBucket(s, c, k);
    }
  }

  lemma {:induction false} ClassIsSorted(rows: seq<Row>, c: Class)
    requires SortedBy(rows, SortKey, KeyLess)
    ensures SortedBy(WithClass(rows, c), SortKey, KeyLess)
  {
    if rows != [] {
      var (init, last) := (rows[..|rows| - 1], rows[|rows| - 1]);
      ClassIsSorted(init, c);
      var kept := WithClass(init, c);
      forall i | 0 <= i < |kept| ensures !KeyLess(SortKey(last), SortKey(kept[i])) {
        ClassMembers(init, c, kept[i]);
        var j :| 0 <= j < |init| && init[j] == kept[i];
      }
    }
  }

  lemma {:induction false} ClassOfBucket(rows: seq<Row>, c: Class, k: (string, string, string))
    ensures Bucket(WithClass(rows, c), SortKey, k) == WithClass(Bucket(rows, SortKey, k), c)
  {
    if rows != [] {
      var (init, last) := (rows[..|rows| - 1], rows[|rows| - 1]);
      ClassOfBucket(init, c, k);
      BucketConcat(WithClass(init, c), OfClass(last, c), SortKey, k);
      var (kept, b) := (Bucket(OfClass(last, c), SortKey, k), Bucket(init, SortKey, k));
      assert kept == if SortKey(last) == k then OfClass(last, c) else [] by { assert [last][..0] == []; }
      if SortKey(last) == k {
        assert (b + [last])[..|b|] == b;
      } else {
        assert b + [] == b && WithClass(b, c) + [] == WithClass(b, c);
      }
    }
  }

  /** The report's missed rows grow, and its rows not yet due shrink, by exactly
      the instances that fall overdue. */
  lemma {:induction false} MissedRowsGrow(s: seq<Instance>, today: Date, later: Date, rows: seq<Row>, after: seq<Row>)
    requires CompareDates(today, later) <= 0 && ReportRows(rows, s, today) && ReportRows(after, s, later)
    ensures multiset(WithClass(after, Missed))
            == multiset(WithClass(rows, Missed)) + multiset(RowsOf(Falling(s, today, later), later))
    ensures multiset(WithClass(rows, NotDue))
            == multiset(WithClass(after, NotDue)) + multiset(RowsOf(Falling(s, today, later), today))
  {
    MissedGrow(s, today, later);
    NotDueShrink(s, today, later);
    SameClassBag(rows, RowsOf(s, today), Missed);
    SameClassBag(rows, RowsOf(s, today), NotDue);
    SameClassBag(after, RowsOf(s, later), Missed);
    SameClassBag(after, RowsOf(s, later), NotDue);
  }

  lemma {:induction false} SameClassBag(out: seq<Row>, s: seq<Row>, c: Class)
    requires StableSortOf(out, s, SortKey, KeyLess)
    ensures multiset(WithClass(out, c)) == multiset(WithClass(s, c))
  {
    ClassOfStableSort(out, s, c);
    SameBucketsIsPermutation(WithClass(out, c), WithClass(s, c), SortKey);
  }

  /** So one figure of the summary turns into another and nothing else changes. */
  lemma {:induction false} SummaryAdvances(s: seq<Instance>, today: Date, later: Date)
    requires CompareDates(today, later) <= 0
    ensures var (a, b, n) := (SummaryOf(RowsOf(s, today)), SummaryOf(RowsOf(s, later)), |Falling(s, today, later)|);
            && b.total == a.total && b.onTime == a.onTime && b.late == a.late
            && b.missed == a.missed + n && a.notDue == b.notDue + n
  {
    SettledStay(s, today, later);
    MissedGrow(s, today, later);
    NotDueShrink(s, today, later);
    SizesAdd(WithClass(RowsOf(s, later), Missed), WithClass(RowsOf(s, today), Missed),
             RowsOf(Falling(s, today, later), later));
    SizesAdd(WithClass(RowsOf(s, today), NotDue), WithClass(RowsOf(s, later), NotDue),
             RowsOf(Falling(s, today, later), today));
  }

  lemma SizesAdd(a: seq<Row>, b: seq<Row>, c: seq<Row>)
    requires multiset(a) == multiset(b) + multiset(c)
    ensures |a| == |b| + |c|
  {
    assert |multiset(a)| == |multiset(b) + multiset(c)|;
  }
}
