/** Workflow completion statistics and the dashboard counters. */
module Dashboard {
  import opened Aggregation
  import opened OracleWorld

  function Open(): Instance -> bool { (i: Instance) => !i.status.Completed? }

  // ----- percentages ------------------------------------------------------

  /** 100 c / t rounded to the nearest integer, halves up, without division by a real. */
  ghost predicate IsPercent(p: int, c: nat, t: nat)
    requires t > 0
  {
    2 * (t * p) <= 200 * c + t < 2 * (t * (p + 1))
  }

  function Percent(c: nat, t: nat): (p: int)
    requires c <= t
    ensures t == 0 ==> p == 0
    ensures t > 0 ==> IsPercent(p, c, t)
    ensures 0 <= p <= 100
    ensures t > 0 ==> (c == t ==> p == 100) && (c == 0 ==> p == 0)
  {
    if t == 0 then 0
    else
      var p := (2 * c * 100 + t) / (2 * t);
      PercentBounds(p, c, t);
      p
  }

  lemma PercentBounds(p: int, c: nat, t: nat)
    requires 0 < t && c <= t && p == (2 * c * 100 + t) / (2 * t)
    ensures IsPercent(p, c, t) && 0 <= p <= 100
    ensures (c == t ==> p == 100) && (c == 0 ==> p == 0)
  {
    assert 2 * c * 100 + t == 2 * t * p + (2 * c * 100 + t) % (2 * t);
    assert 2 * t * p == 2 * (t * p) && t * (p + 1) == t * p + t;
    OnePercent(p, c, t);
  }

  lemma Monotone(t: nat, a: int, b: int)
    ensures a <= b ==> t * a <= t * b
  {
  }

  lemma OnePercent(p: int, c: nat, t: nat)
    requires 0 < t && c <= t && IsPercent(p, c, t)
    ensures 0 <= p <= 100 && (c == t ==> p == 100) && (c == 0 ==> p == 0)
  {
    Monotone(t, 101, p);
    Monotone(t, p, -1);
    Monotone(t, p, 99);
    Monotone(t, 1, p);
    assert t * (p + 1) == t * p + t;
  }

  /** Only one integer is the percentage. */
  lemma PercentIsUnique(p: int, q: int, c: nat, t: nat)
    requires t > 0 && IsPercent(p, c, t) && IsPercent(q, c, t)
    ensures p == q
  {
    Monotone(t, p + 1, q);
    Monotone(t, q + 1, p);
  }

  /** Rounding a non-negative real to the nearest integer, halves away from zero. */
  function Round(x: real): int
    requires x >= 0.0
  {
    (x + 0.5).Floor
  }

  /** The dashboard's real-number rounding gives the same integer. */
  lemma RealRoundingAgrees(c: nat, t: nat)
    requires 0 < t && c <= t
    ensures 100.0 * c as real / t as real >= 0.0
    ensures Round(100.0 * c as real / t as real) == Percent(c, t)
  {
    var x := 100.0 * c as real / t as real;
    assert x * t as real == 100.0 * c as real;
    var p := Round(x);
    var q := p + 1;
    Rounded(p as real, q as real, x, c as real, t as real);
    AsIntegers(p, t, q, 200 * c + t);
    PercentIsUnique(p, Percent(c, t), c, t);
  }

  lemma Rounded(p: real, q: real, x: real, c: real, t: real)
    requires t > 0.0 && p <= x + 0.5 < q && x * t == 100.0 * c
    ensures 2.0 * (p * t) <= 200.0 * c + t < 2.0 * (q * t)
  {
    RoundsDown(p, x, c, t);
    RoundsUp(q, x, c, t);
  }

  lemma RoundsDown(p: real, x: real, c: real, t: real)
    requires t > 0.0 && p <= x + 0.5 && x * t == 100.0 * c
    ensures 2.0 * (p * t) <= 200.0 * c + t
  {
    var d := x + 0.5 - p;
    NonNegativeProduct(d, t);
    assert d * t == x * t + 0.5 * t - p * t;
  }

  lemma RoundsUp(q: real, x: real, c: real, t: real)
    requires t > 0.0 && x + 0.5 < q && x * t == 100.0 * c
    ensures 200.0 * c + t < 2.0 * (q * t)
  {
    var d := q - x - 0.5;
    var e := d * t;
    assert e > 0.0 && q == x + 0.5 + d;
    assert q * t == x * t + 0.5 * t + e;
  }

  lemma AsIntegers(p: int, t: int, q: int, b: int)
    requires 2.0 * (p as real * t as real) <= b as real < 2.0 * (q as real * t as real)
    ensures 2 * (t * p) <= b < 2 * (t * q)
  {
  }

  lemma NonNegativeProduct(d: real, t: real)
    requires t > 0.0 && d >= 0.0
    ensures d * t >= 0.0
  {
  }

  // ----- one workflow -----------------------------------------------------

  datatype Stats = Stats(totalTasks: nat, completedTasks: nat, completionPercent: int, nextDueDate: Date)

  /** The loop's running minimum over the open instances; the zero date stands for none yet. */
  function NextDue(s: seq<Instance>): Date
  {
    if s == [] then NO_DATE
    else
      var (next, x) := (NextDue(s[..|s| - 1]), s[|s| - 1]);
      if !x.status.Completed? && (next == NO_DATE || Before(x.dueDate, next)) then x.dueDate else next
  }

  method WorkflowStats(instances: seq<Instance>) returns (r: Stats)
    ensures r.totalTasks == |instances| && r.completedTasks == Count(instances, Done()) <= |instances|
    ensures r.completionPercent == Percent(r.completedTasks, r.totalTasks) && r.nextDueDate == NextDue(instances)
  {
    var total, completed: nat, next := 0, 0, NO_DATE;
    for n := 0 to |instances|
      invariant total == n && completed == Count(instances[..n], Done()) <= n && next == NextDue(instances[..n])
    {
      var i := instances[n];
      assert instances[..n + 1][..n] == instances[..n];
      total := total + 1;
      if i.status.Completed? {
        completed := completed + 1;
        continue;
      }
      if next == NO_DATE || Before(i.dueDate, next) {
        next := i.dueDate;
      }
    }
    assert instances[..|instances|] == instances;
    r := Stats(total, completed, Percent(completed, total), next);
  }

  /** Where every open instance has a due date, the next due date is an open
      instance's, none is earlier, and it is absent only when all are completed. */
  lemma {:induction false} NextDueIsEarliest(s: seq<Instance>)
    requires forall i :: i in s && !i.status.Completed? ==> i.dueDate != NO_DATE
    ensures NextDue(s) == NO_DATE <==> forall i :: i in s ==> i.status.Completed?
    ensures NextDue(s) != NO_DATE ==> exists i :: i in s && !i.status.Completed? && i.dueDate == NextDue(s)
    ensures NextDue(s) != NO_DATE ==> forall i :: i in s && !i.status.Completed? ==> !Before(i.dueDate, NextDue(s))
  {
    if s != [] {
      var (init, x) := (s[..|s| - 1], s[|s| - 1]);
      assert forall i :: i in s <==> i in init || i == x;
      NextDueIsEarliest(init);
      DatesAreOrdered();
    }
  }

  // ----- the dashboard ----------------------------------------------------

  datatype Board = Board(totalInstances: nat, overdue: nat, dueToday: nat, thisWeek: nat, active: nat, completed: nat,
                         awaitingApproval: nat, completionRate: int, byStatus: map<Status, int>)

  function IsOverdue(today: Date): Instance -> bool
  {
    (i: Instance) => !i.status.Completed? && Before(i.dueDate, today)
  }

  function IsDueToday(today: Date): Instance -> bool { (i: Instance) => !i.status.Completed? && i.dueDate == today }

  /** After today and no later than the Saturday that ends today's week. */
  function IsThisWeek(today: Date, weekEnd: Date): Instance -> bool
  {
    (i: Instance) => !i.status.Completed? && Before(today, i.dueDate) && !Before(weekEnd, i.dueDate)
  }

  function Awaits(): Instance -> bool { (i: Instance) => i.status.PendingApproval? }

  function StatusOf(): Instance -> Status { (i: Instance) => i.status }

  function One(): Instance -> int { (i: Instance) => 1 }

  function ByStatus(s: seq<Instance>): map<Status, int> { Groups(s, StatusOf(), One(), INT_SUM) }

  /** The tenant's instances: those of its workflows, one workflow after another. */
  function AllOf(workflows: seq<seq<Instance>>): seq<Instance>
  {
    if workflows == [] then [] else AllOf(workflows[..|workflows| - 1]) + workflows[|workflows| - 1]
  }

  /** What the loop over instances has counted. */
  ghost predicate Counted(b: Board, s: seq<Instance>, today: Date, weekEnd: Date)
  {
    && b.totalInstances == |s| && b.completed == Count(s, Done()) && b.active == Count(s, Open())
    && b.overdue == Count(s, IsOverdue(today)) && b.dueToday == Count(s, IsDueToday(today))
    && b.thisWeek == Count(s, IsThisWeek(today, weekEnd)) && b.awaitingApproval == Count(s, Awaits())
    && b.byStatus == ByStatus(s)
  }

  /** The loop over a tenant's instances. */
  method Tally(instances: seq<Instance>, today: Date, weekEnd: Date) returns (b: Board)
    ensures Counted(b, instances, today, weekEnd) && b.completionRate == 0
  {
    b := Board(0, 0, 0, 0, 0, 0, 0, 0, map[]);
    for n := 0 to |instances|
      invariant Counted(b, instances[..n], today, weekEnd) && b.completionRate == 0
    {
      var i := instances[n];
      assert instances[..n + 1][..n] == instances[..n];
      b := b.(totalInstances := b.totalInstances + 1,
              byStatus := b.byStatus[i.status := (if i.status in b.byStatus then b.byStatus[i.status] else 0) + 1]);
      if i.status.PendingApproval? {
        b := b.(awaitingApproval := b.awaitingApproval + 1);
      }
      if i.status.Completed? {
        b := b.(completed := b.completed + 1);
      } else {
        b := b.(active := b.active + 1);
        if CompareDates(i.dueDate, today) < 0 {
          b := b.(overdue := b.overdue + 1);
        } else if CompareDates(i.dueDate, today) == 0 {
          b := b.(dueToday := b.dueToday + 1);
        } else if CompareDates(i.dueDate, weekEnd) <= 0 {
          b := b.(thisWeek := b.thisWeek + 1);
        }
      }
    }
    assert instances[..|instances|] == instances;
  }

  lemma {:induction false} CountIsBounded(s: seq<Instance>, p: Instance -> bool)
    ensures Count(s, p) <= |s|
  {
    if s != [] { CountIsBounded(s[..|s| - 1], p); }
  }

  method Dashboard(workflows: seq<seq<Instance>>, today: Date, weekEnd: Date) returns (b: Board)
    ensures Counted(b, AllOf(workflows), today, weekEnd)
    ensures b.completed <= b.totalInstances && b.completionRate == Percent(b.completed, b.totalInstances)
  {
    b := Tally(AllOf(workflows), today, weekEnd);
    var total: nat, completed: nat := 0, 0;
    for n := 0 to |workflows|
      invariant total == |AllOf(workflows[..n])| && completed == Count(AllOf(workflows[..n]), Done())
    {
      var s := WorkflowStats(workflows[n]);
      assert workflows[..n + 1][..n] == workflows[..n];
      CountConcat(AllOf(workflows[..n]), workflows[n], Done());
      total := total + s.totalTasks;
      completed := completed + s.completedTasks;
    }
    assert workflows[..|workflows|] == workflows;
    CountIsBounded(AllOf(workflows), Done());
    if total > 0 {
      RealRoundingAgrees(completed, total);
      b := b.(completionRate := Round(100.0 * completed as real / total as real));
    }
  }

  /** Active and completed instances are all of them and so are the status
      counts; the three due windows do not overlap and lie within the active. */
  lemma {:induction false} WindowsPartition(s: seq<Instance>, today: Date, weekEnd: Date)
    ensures Count(s, Open()) + Count(s, Done()) == |s|
    ensures Count(s, IsOverdue(today)) + Count(s, IsDueToday(today)) + Count(s, IsThisWeek(today, weekEnd))
            <= Count(s, Open())
    ensures Count(s, Awaits()) <= Count(s, Open())
    ensures forall i :: !(IsOverdue(today)(i) && IsDueToday(today)(i))
    ensures forall i :: !(IsDueToday(today)(i) && IsThisWeek(today, weekEnd)(i))
                        && !(IsOverdue(today)(i) && IsThisWeek(today, weekEnd)(i))
  {
    DatesAreOrdered();
    if s != [] {
      WindowsPartition(s[..|s| - 1], today, weekEnd);
    }
  }

  /** The status counts add up to every instance, and two of them are counters of their own. */
  lemma {:induction false} StatusesPartition(s: seq<Instance>)
    ensures SumOver(ByStatus(s), ByStatus(s).Keys, INT_SUM) == |s|
    ensures At(ByStatus(s), Completed, INT_SUM) == Count(s, Done())
    ensures At(ByStatus(s), PendingApproval, INT_SUM) == Count(s, Awaits())
    ensures forall status :: At(ByStatus(s), status, INT_SUM) == Count(s, HasStatus(status))
  {
    assert Commutative(INT_SUM);
    GroupsConserveTotal(s, StatusOf(), One(), INT_SUM);
    TotalOfOnes(s);
    StatusCounts(s);
    forall status ensures At(ByStatus(s), status, INT_SUM) == Count(s, HasStatus(status)) {
      StatusCount(s, status);
    }
  }

  function HasStatus(status: Status): Instance -> bool { (i: Instance) => i.status == status }

  lemma {:induction false} StatusCount(s: seq<Instance>, status: Status)
    ensures At(ByStatus(s), status, INT_SUM) == Count(s, HasStatus(status))
  {
    if s != [] { StatusCount(s[..|s| - 1], status); }
  }

  lemma {:induction false} TotalOfOnes(s: seq<Instance>)
    ensures Total(s, One(), INT_SUM) == |s|
  {
    if s != [] { TotalOfOnes(s[..|s| - 1]); }
  }

  lemma {:induction false} StatusCounts(s: seq<Instance>)
    ensures At(ByStatus(s), Completed, INT_SUM) == Count(s, Done())
    ensures At(ByStatus(s), PendingApproval, INT_SUM) == Count(s, Awaits())
  {
    if s != [] { StatusCounts(s[..|s| - 1]); }
  }

  /** The windows in days. An open instance is overdue exactly when it is classed as
      missed against its due date; a completed one is in no window. */
  lemma WindowsByDays(i: Instance, today: Date, weekEnd: Date)
    requires IsCivil(i.dueDate) && IsCivil(today) && IsCivil(weekEnd)
    ensures var (due, day) := (DayNumber(i.dueDate), DayNumber(today));
            && (IsOverdue(today)(i) <==> i.status != Completed && due < day)
            && (IsDueToday(today)(i) <==> i.status != Completed && due == day)
            && (IsThisWeek(today, weekEnd)(i) <==> i.status != Completed && day < due <= DayNumber(weekEnd))
    ensures IsOverdue(today)(i) <==> i.status != Completed && Classify(i, i.dueDate, today) == Missed
  {
    BeforeIsEarlierDay(i.dueDate, today);
    BeforeIsEarlierDay(today, i.dueDate);
    BeforeIsEarlierDay(weekEnd, i.dueDate);
  }

  /** Something is overdue if and only if the next due date is behind today. */
  lemma {:induction false} OverdueIffNextDueBehind(s: seq<Instance>, today: Date)
    requires forall i :: i in s && !i.status.Completed? ==> i.dueDate != NO_DATE
    ensures Count(s, IsOverdue(today)) > 0 <==> NextDue(s) != NO_DATE && Before(NextDue(s), today)
  {
    NextDueIsEarliest(s);
    SomeCounted(s, IsOverdue(today));
    DatesAreOrdered();
  }

  lemma {:induction false} SomeCounted(s: seq<Instance>, p: Instance -> bool)
    ensures Count(s, p) > 0 <==> exists i :: i in s && p(i)
  {
    if s != [] {
      SomeCounted(s[..|s| - 1], p);
      assert forall i :: i in s <==> i in s[..|s| - 1] || i == s[|s| - 1];
    }
  }

  /** As the date advances nothing leaves the overdue count without being completed. */
  lemma {:induction false} OverdueOnlyGrows(s: seq<Instance>, today: Date, later: Date)
    requires !Before(later, today)
    ensures Count(s, IsOverdue(today)) + Count(s, IsDueToday(today)) * (if Before(today, later) then 1 else 0)
            <= Count(s, IsOverdue(later))
  {
    DatesAreOrdered();
    if s != [] { OverdueOnlyGrows(s[..|s| - 1], today, later); }
  }
}
