/** The recomputed world the reports are drawn from: civil dates, workflows and
    task instances, the filters, and the classification rule. */
module OracleWorld {
  import opened Outcomes
  import opened Ordering

  datatype Date = Date(year: int, month: int, day: int)

  /** The zero date, which stands for none. */
  const NO_DATE := Date(0, 0, 0)

  /** The key under which reports group what has none. */
  const UNKNOWN_KEY := "unknown"

  function Sign(n: int): int { if n < 0 then -1 else if n > 0 then 1 else 0 }

  function CompareDates(a: Date, b: Date): int
  {
    if a.year != b.year then Sign(a.year - b.year)
    else if a.month != b.month then Sign(a.month - b.month)
    else Sign(a.day - b.day)
  }

  predicate Before(a: Date, b: Date) { CompareDates(a, b) < 0 }

  /** The comparison is a strict total order whose "equal" is equality. */
  lemma DatesAreOrdered()
    ensures StrictTotal(Before)
    ensures forall a, b :: CompareDates(a, b) == 0 <==> a == b
    ensures forall a, b :: CompareDates(a, b) == -CompareDates(b, a)
  {
  }

  /** A date the calendar may have. */
  predicate IsCivil(d: Date) { 1 <= d.month <= 12 && 1 <= d.day <= 31 }

  /** A number that grows from one day to the next, with gaps after short months. */
  function DayNumber(d: Date): int { 372 * d.year + 31 * d.month + d.day }

  /** A civil date comes before another exactly when its day does, and the zero
      date, which no calendar has, before every date from year 1 on. */
  lemma BeforeIsEarlierDay(a: Date, b: Date)
    requires IsCivil(b) && (IsCivil(a) || (a == NO_DATE && b.year >= 1))
    ensures Before(a, b) <==> DayNumber(a) < DayNumber(b)
    ensures CompareDates(a, b) in {-1, 0, 1} && (CompareDates(a, b) == 1 <==> DayNumber(a) > DayNumber(b))
  {
  }

  datatype Status = NotStarted | InProgress | InReview | PendingApproval | Completed | Blocked

  datatype Class = OnTime | Late | Missed | NotDue

  datatype Entity = Entity(key: string, name: string, country: string)

  datatype Obligation = Obligation(key: string, name: string, code: string, template: string)

  datatype Workflow = Workflow(key: string, status: string, recurring: bool, financialYear: string,
                               entity: Option<Entity>, obligation: Option<Obligation>)

  /** `completedOn` is the civil date of the completion instant in the tenant's
      zone, absent when there is no instant. */
  datatype Instance = Instance(workflow: Workflow, templateKey: string, periodCode: string, periodEnd: Date,
                               filingDeadline: Date, dueDate: Date, status: Status, completedOn: Option<Date>,
                               taxData: map<string, real>)

  /** Only active or completed recurring workflows feed the compliance reports. */
  predicate Participates(w: Workflow) { w.recurring && (w.status == "active" || w.status == "completed") }

  function EntityKey(i: Instance): string { if i.workflow.entity.None? then "" else i.workflow.entity.value.key }

  function ObligationKey(i: Instance): string
  {
    if i.workflow.obligation.None? then "" else i.workflow.obligation.value.key
  }

  function EntityName(i: Instance): string
  {
    if i.workflow.entity.None? then "Unknown Entity" else i.workflow.entity.value.name
  }

  function ObligationName(i: Instance): string
  {
    if i.workflow.obligation.None? then "Unknown Obligation" else i.workflow.obligation.value.name
  }

  function ObligationCode(i: Instance): string
  {
    if i.workflow.obligation.None? then "" else i.workflow.obligation.value.code
  }

  function TaxType(i: Instance): string
  {
    if i.workflow.obligation.None? then "" else i.workflow.obligation.value.template
  }

  datatype Filters = Filters(year: string, entityKey: string, obligationKey: string)

  predicate FilterSet(v: string) { v != "" && v != "all" }

  predicate Matches(f: Filters, i: Instance)
  {
    && (FilterSet(f.year) ==> i.workflow.financialYear == f.year)
    && (FilterSet(f.entityKey) ==> EntityKey(i) == f.entityKey)
    && (FilterSet(f.obligationKey) ==> ObligationKey(i) == f.obligationKey)
  }

  predicate Reported(f: Filters, i: Instance) { Participates(i.workflow) && Matches(f, i) }

  /** A filter that is empty or "all" keeps every instance of an active or completed
      recurring workflow; any other keeps of them exactly those it names. */
  lemma FiltersNarrow(f: Filters, i: Instance, v: string)
    ensures Reported(Filters("", "all", ""), i)
            <==> i.workflow.recurring && i.workflow.status in {"active", "completed"}
    ensures v in {"", "all"} ==> (Reported(f.(year := v), i) <==> Reported(f.(year := ""), i))
                                 && (Reported(f.(entityKey := v), i) <==> Reported(f.(entityKey := ""), i))
                                 && (Reported(f.(obligationKey := v), i) <==> Reported(f.(obligationKey := ""), i))
    ensures v !in {"", "all"} ==>
              (Reported(f.(year := v), i) <==> Reported(f.(year := ""), i) && i.workflow.financialYear == v)
    ensures v !in {"", "all"} ==>
              (Reported(f.(entityKey := v), i)
               <==> Reported(f.(entityKey := ""), i) && i.workflow.entity.Some? && i.workflow.entity.value.key == v)
    ensures v !in {"", "all"} ==>
              (Reported(f.(obligationKey := v), i)
               <==> Reported(f.(obligationKey := ""), i) && i.workflow.obligation.Some?
                    && i.workflow.obligation.value.key == v)
  {
  }

  /** The instances the compliance and financial reports see, in order. */
  function Participating(instances: seq<Instance>, f: Filters): seq<Instance>
  {
    if instances == [] then []
    else
      var last := instances[|instances| - 1];
      Participating(instances[..|instances| - 1], f) + (if Reported(f, last) then [last] else [])
  }

  method CollectParticipating(instances: seq<Instance>, f: Filters) returns (out: seq<Instance>)
    ensures out == Participating(instances, f)
    ensures forall i :: i in out <==> i in instances && Reported(f, i)
  {
    out := [];
    for n := 0 to |instances|
      invariant out == Participating(instances[..n], f)
      invariant forall i :: i in out <==> i in instances[..n] && Reported(f, i)
    {
      assert instances[..n + 1][..n] == instances[..n];
      if Reported(f, instances[n]) {
        out := out + [instances[n]];
      }
    }
    assert instances[..|instances|] == instances;
  }

  /** A participating instance is kept as often as it occurs. */
  lemma {:induction false} ParticipatingHolds(s: seq<Instance>, f: Filters, x: Instance)
    ensures multiset(Participating(s, f))[x] == if Reported(f, x) then multiset(s)[x] else 0
  {
    if s != [] {
      ParticipatingHolds(s[..|s| - 1], f, x);
      assert s == s[..|s| - 1] + [s[|s| - 1]];
    }
  }

  lemma {:induction false} ParticipatingConcat(s: seq<Instance>, t: seq<Instance>, f: Filters)
    ensures Participating(s + t, f) == Participating(s, f) + Participating(t, f)
  {
    if t == [] {
      assert s + t == s;
    } else {
      ParticipatingConcat(s, t[..|t| - 1], f);
      assert (s + t)[..|s + t| - 1] == s + t[..|t| - 1];
    }
  }

  function Kept(f: Filters, x: Instance): seq<Instance> { if Reported(f, x) then [x] else [] }

  lemma {:induction false} ParticipatingWithout(t: seq<Instance>, j: nat, f: Filters)
    requires j < |t|
    ensures multiset(Participating(t, f)) == multiset(Participating(t[..j] + t[j + 1..], f)) + multiset(Kept(f, t[j]))
  {
    var (a, x, b) := (t[..j], [t[j]], t[j + 1..]);
    assert t == a + (x + b);
    ParticipatingConcat(a, x + b, f);
    ParticipatingConcat(x, b, f);
    ParticipatingConcat(a, b, f);
    assert x[..0] == [] && Participating(x, f) == Kept(f, t[j]);
  }

  /** Reordering the world reorders the report's rows and changes nothing else. */
  lemma {:induction false} ParticipatingOfPermutation(s: seq<Instance>, t: seq<Instance>, f: Filters)
    requires multiset(s) == multiset(t)
    ensures multiset(Participating(s, f)) == multiset(Participating(t, f))
    decreases |s|
  {
    SamePermutationElements(s, t);
    if s != [] {
      var j := WithoutLast(s, t);
      ParticipatingOfPermutation(s[..|s| - 1], t[..j] + t[j + 1..], f);
      ParticipatingWithout(t, j, f);
      assert Participating(s, f) == Participating(s[..|s| - 1], f) + Kept(f, s[|s| - 1]);
    }
  }

  // ----- counting ---------------------------------------------------------

  function Count(s: seq<Instance>, p: Instance -> bool): nat
  {
    if s == [] then 0 else Count(s[..|s| - 1], p) + (if p(s[|s| - 1]) then 1 else 0)
  }

  lemma {:induction false} CountConcat(s: seq<Instance>, t: seq<Instance>, p: Instance -> bool)
    ensures Count(s + t, p) == Count(s, p) + Count(t, p)
  {
    if t == [] {
      assert s + t == s;
    } else {
      CountConcat(s, t[..|t| - 1], p);
      assert (s + t)[..|s + t| - 1] == s + t[..|t| - 1];
    }
  }

  ghost function Positions(s: seq<Instance>, p: Instance -> bool): set<int> { set n | 0 <= n < |s| && p(s[n]) }

  /** The number of positions that hold such an instance. */
  lemma {:induction false} CountIsSize(s: seq<Instance>, p: Instance -> bool)
    ensures Count(s, p) == |Positions(s, p)|
  {
    if s != [] {
      var (init, last) := (s[..|s| - 1], |s| - 1);
      CountIsSize(init, p);
      OneMorePosition(init, s[last], p);
      assert init + [s[last]] == s;
    }
  }

  lemma OneMorePosition(init: seq<Instance>, x: Instance, p: Instance -> bool)
    ensures Positions(init + [x], p) == Positions(init, p) + (if p(x) then {|init|} else {})
  {
  }

  function Done(): Instance -> bool { (i: Instance) => i.status.Completed? }

  // ----- classification ---------------------------------------------------

  /** Completed at a known instant: on time up to and including the deadline, late
      after it. Otherwise missed once the deadline is behind today, not before. */
  function Classify(i: Instance, deadline: Date, today: Date): (c: Class)
    ensures c.OnTime? || c.Late? <==> i.status.Completed? && i.completedOn.Some?
    ensures c.Late? ==> Before(deadline, i.completedOn.value)
    ensures c.OnTime? ==> !Before(deadline, i.completedOn.value)
    ensures c.Missed? ==> Before(deadline, today)
    ensures c.NotDue? ==> !Before(deadline, today)
  {
    if i.status.Completed? && i.completedOn.Some? then
      if CompareDates(i.completedOn.value, deadline) <= 0 then OnTime else Late
    else if CompareDates(deadline, today) < 0 then Missed
    else NotDue
  }

  /** The rule in days: completed no later than the deadline's day or later than it;
      otherwise missed once that day is over. */
  lemma ClassByDays(i: Instance, deadline: Date, today: Date)
    requires IsCivil(deadline) && IsCivil(today) && (i.completedOn.Some? ==> IsCivil(i.completedOn.value))
    ensures var c := Classify(i, deadline, today);
            if i.status == Completed && i.completedOn != None then
              var late := DayNumber(i.completedOn.value) - DayNumber(deadline); c == if late > 0 then Late else OnTime
            else c == if DayNumber(today) > DayNumber(deadline) then Missed else NotDue
  {
    BeforeIsEarlierDay(deadline, today);
    if i.completedOn.Some? {
      BeforeIsEarlierDay(i.completedOn.value, deadline);
    }
  }

  /** As the civil date advances an instance either keeps its class or goes from
      not due to missed, which it does exactly when its deadline falls behind. */
  lemma ClassificationAdvances(i: Instance, deadline: Date, today: Date, later: Date)
    requires CompareDates(today, later) <= 0
    ensures Classify(i, deadline, later) == Classify(i, deadline, today)
            || (Classify(i, deadline, today).NotDue? && Classify(i, deadline, later).Missed?)
    ensures Classify(i, deadline, today) != Classify(i, deadline, later)
            <==> !(i.status.Completed? && i.completedOn.Some?) && !Before(deadline, today) && Before(deadline, later)
  {
    DatesAreOrdered();
  }
}
