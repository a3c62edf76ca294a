/** Comparing the instances a workflow start created with the plan previewed
    before it. */
module PreviewCheck {
  import opened Ordering
  import opened Text

  datatype Dates = Dates(due: string, periodEnd: string, filing: string, payment: string)

  datatype Row = Row(templateId: string, period: string, dates: Dates)

  function KeyOf(r: Row): string { r.templateId + "|" + r.period }

  /** The instance a key finds: the last one listed under it. */
  function ByKey(rows: seq<Row>): map<string, Row>
  {
    if rows == [] then map[] else ByKey(rows[..|rows| - 1])[KeyOf(rows[|rows| - 1]) := rows[|rows| - 1]]
  }

  predicate TaskAgrees(byKey: map<string, Row>, known: set<string>, task: Row)
  {
    task.templateId in known && KeyOf(task) in byKey && byKey[KeyOf(task)].dates == task.dates
  }

  method CheckAgainstPreview(tasks: seq<Row>, instances: seq<Row>, templateIds: seq<string>) returns (ok: bool)
    ensures ok <==> |instances| == |tasks|
                    && forall i :: 0 <= i < |tasks| ==> TaskAgrees(ByKey(instances), Elements(templateIds), tasks[i])
  {
    if |instances| != |tasks| {
      return false;
    }
    var known: set<string> := {};
    for i := 0 to |templateIds|
      invariant known == Elements(templateIds[..i])
    {
      assert templateIds[..i + 1] == templateIds[..i] + [templateIds[i]];
      known := known + {templateIds[i]};
    }
    assert templateIds[..|templateIds|] == templateIds;
    var byKey: map<string, Row> := map[];
    for i := 0 to |instances|
      invariant byKey == ByKey(instances[..i])
    {
      assert instances[..i + 1][..i] == instances[..i];
      byKey := byKey[KeyOf(instances[i]) := instances[i]];
    }
    assert instances[..|instances|] == instances;
    for i := 0 to |tasks|
      invariant forall j :: 0 <= j < i ==> TaskAgrees(byKey, known, tasks[j])
    {
      var task := tasks[i];
      if task.templateId !in known || KeyOf(task) !in byKey {
        return false;
      }
      var instance := byKey[KeyOf(task)];
      if instance.dates != task.dates {
        return false;
      }
    }
    return true;
  }

  function KeysOf(rows: seq<Row>): seq<string> { seq(|rows|, i requires 0 <= i < |rows| => KeyOf(rows[i])) }

  lemma {:induction false} ByKeyHoldsRows(rows: seq<Row>)
    ensures ByKey(rows).Keys == Elements(KeysOf(rows))
    ensures forall k :: k in ByKey(rows) ==> ByKey(rows)[k] in rows && KeyOf(ByKey(rows)[k]) == k
  {
    if rows == [] {
      assert KeysOf(rows) == [];
    } else {
      var (init, last) := (rows[..|rows| - 1], rows[|rows| - 1]);
      ByKeyHoldsRows(init);
      assert rows == init + [last] && KeysOf(rows) == KeysOf(init) + [KeyOf(last)];
    }
  }

  /** A sequence no longer than the set of its elements has no repeats. */
  lemma {:induction false} FullSizeIsDistinct(s: seq<string>)
    ensures |Elements(s)| <= |s|
    ensures |Elements(s)| == |s| ==> Distinct(s)
  {
    if s == [] {
      assert Elements(s) == {};
    } else {
      var (init, last) := (s[..|s| - 1], s[|s| - 1]);
      FullSizeIsDistinct(init);
      assert s == init + [last] && Elements(s) == Elements(init) + {last};
    }
  }

  lemma {:induction false} SubsetOfSameSize(a: set<string>, b: set<string>)
    requires a <= b && |a| >= |b|
    ensures a == b
  {
    if a != {} {
      var x :| x in a;
      SubsetOfSameSize(a - {x}, b - {x});
      assert a == (a - {x}) + {x} && b == (b - {x}) + {x};
    } else {
      assert |b| == 0;
    }
  }

  /** The check only looks up planned rows, and only one row per key; with as
      many instances as planned rows that is enough: when the plan has no key
      twice, an accepted list of instances has no key twice either, holds
      exactly the planned keys, and every instance has the dates planned for it. */
  lemma {:induction false} AcceptedInstancesAreThePlan(tasks: seq<Row>, instances: seq<Row>, known: set<string>)
    requires |instances| == |tasks| && Distinct(KeysOf(tasks))
    requires forall i :: 0 <= i < |tasks| ==> TaskAgrees(ByKey(instances), known, tasks[i])
    ensures Distinct(KeysOf(instances)) && Elements(KeysOf(instances)) == Elements(KeysOf(tasks))
    ensures forall i, j :: 0 <= i < |tasks| && 0 <= j < |instances| && KeyOf(tasks[i]) == KeyOf(instances[j])
                           ==> instances[j].dates == tasks[i].dates
  {
    var (planned, made) := (KeysOf(tasks), KeysOf(instances));
    ByKeyHoldsRows(instances);
    DistinctSize(planned);
    FullSizeIsDistinct(made);
    forall k | k in Elements(planned) ensures k in Elements(made) {
      var i :| 0 <= i < |planned| && planned[i] == k;
      assert TaskAgrees(ByKey(instances), known, tasks[i]);
    }
    SubsetOfSameSize(Elements(planned), Elements(made));
    forall i, j | 0 <= i < |tasks| && 0 <= j < |instances| && KeyOf(tasks[i]) == KeyOf(instances[j])
      ensures instances[j].dates == tasks[i].dates
    {
      assert TaskAgrees(ByKey(instances), known, tasks[i]);
      RowOfDistinctKey(instances, j);
    }
  }

  /** Template ids that hold no bar. */
  predicate PlainIds(rows: seq<Row>) { forall i :: 0 <= i < |rows| ==> Free(rows[i].templateId, '|') }

  /** No template is planned twice for one period. */
  predicate PlannedOnce(tasks: seq<Row>)
  {
    forall i, j :: 0 <= i < j < |tasks|
                   ==> tasks[i].templateId != tasks[j].templateId || tasks[i].period != tasks[j].period
  }

  predicate SamePlace(a: Row, b: Row) { a.templateId == b.templateId && a.period == b.period }

  lemma KeysTellPlaces(a: Row, b: Row)
    requires Free(a.templateId, '|') && Free(b.templateId, '|')
    ensures KeyOf(a) == KeyOf(b) <==> SamePlace(a, b)
  {
    if KeyOf(a) == KeyOf(b) {
      CutInjective(a.templateId, a.period, b.templateId, b.period, '|');
    }
  }

  /** So, with template ids that hold no bar, an accepted list of instances has for
      each template and period exactly the instance that was planned, and none else. */
  lemma AcceptedRowForRow(tasks: seq<Row>, instances: seq<Row>, known: set<string>, j: nat) returns (i: nat)
    requires |instances| == |tasks| && PlainIds(tasks) && PlainIds(instances) && PlannedOnce(tasks) && j < |instances|
    requires forall n :: 0 <= n < |tasks| ==> TaskAgrees(ByKey(instances), known, tasks[n])
    ensures i < |tasks| && tasks[i] == instances[j]
    ensures forall n :: 0 <= n < |instances| && n != j ==> !SamePlace(instances[n], instances[j])
  {
    var (planned, made) := (KeysOf(tasks), KeysOf(instances));
    forall m, n | 0 <= m < n < |tasks| ensures planned[m] != planned[n] {
      KeysTellPlaces(tasks[m], tasks[n]);
    }
    AcceptedInstancesAreThePlan(tasks, instances, known);
    assert made[j] in Elements(made) && made[j] in Elements(planned);
    i :| 0 <= i < |planned| && planned[i] == made[j];
    KeysTellPlaces(tasks[i], instances[j]);
    forall n | 0 <= n < |instances| && n != j ensures !SamePlace(instances[n], instances[j]) {
      assert made[n] != made[j];
      KeysTellPlaces(instances[n], instances[j]);
    }
  }

  lemma {:induction false} OnlyRowOfItsKey(rows: seq<Row>, j: nat)
    requires j < |rows| && forall i :: j < i < |rows| ==> KeyOf(rows[i]) != KeyOf(rows[j])
    ensures KeyOf(rows[j]) in ByKey(rows) && ByKey(rows)[KeyOf(rows[j])] == rows[j]
  {
    if j < |rows| - 1 {
      OnlyRowOfItsKey(rows[..|rows| - 1], j);
    }
  }

  lemma {:induction false} RowOfDistinctKey(rows: seq<Row>, j: nat)
    requires j < |rows| && Distinct(KeysOf(rows))
    ensures KeyOf(rows[j]) in ByKey(rows) && ByKey(rows)[KeyOf(rows[j])] == rows[j]
  {
    var keys := KeysOf(rows);
    forall n | j < n < |rows| ensures KeyOf(rows[n]) != KeyOf(rows[j]) {
      assert keys[n] == KeyOf(rows[n]) && keys[j] == KeyOf(rows[j]);
    }
    OnlyRowOfItsKey(rows, j);
  }
}
