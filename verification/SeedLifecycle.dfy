/** Running a plan against the lifecycle of task instances: a pending or
    approved instance is frozen, approvals are reached by submitting and by somebody
    else's approving. */
module SeedLifecycle {
  import opened Outcomes
  import opened OracleWorld
  import opened SeedActions

  // ----- the shape of a plan ----------------------------------------------

  lemma {:induction false} KeepConcat<X>(a: seq<X>, b: seq<X>, p: X -> bool)
    ensures Keep(a + b, p) == Keep(a, p) + Keep(b, p)
  {
    if b == [] {
      assert a + b == a;
    } else {
      KeepConcat(a, b[..|b| - 1], p);
      assert (a + b)[..|a + b| - 1] == a + b[..|b| - 1];
    }
  }

  lemma {:induction false} KeepAll<X>(a: seq<X>, p: X -> bool)
    requires forall i :: 0 <= i < |a| ==> p(a[i])
    ensures Keep(a, p) == a
  {
    if a != [] {
      KeepAll(a[..|a| - 1], p);
      assert a == a[..|a| - 1] + [a[|a| - 1]];
    }
  }

  lemma {:induction false} KeepNone<X>(a: seq<X>, p: X -> bool)
    requires forall i :: 0 <= i < |a| ==> !p(a[i])
    ensures Keep(a, p) == []
  {
    if a != [] {
      KeepNone(a[..|a| - 1], p);
    }
  }

  function Phase(a: Action): nat { if a.Put? then 1 else if a.Upload? then 2 else if a.Submit? then 3 else 4 }

  function InPhase(n: nat): Action -> bool { (a: Action) => Phase(a) == n }

  /** The calls of one phase are those of these items, one each and in their order. */
  ghost predicate PhaseIs<X>(plan: seq<Action>, n: nat, xs: seq<X>, f: X -> Result<Action, PlanError>)
  {
    CallsFor(xs, f, Keep(plan, InPhase(n)))
  }

  /** One call per item, in order. */
  ghost predicate CallsFor<X>(xs: seq<X>, f: X -> Result<Action, PlanError>, calls: seq<Action>)
  {
    |calls| == |xs| && forall i :: 0 <= i < |xs| ==> f(xs[i]) == Ok(calls[i])
  }

  ghost predicate AllInPhase(calls: seq<Action>, n: nat) { forall i :: 0 <= i < |calls| ==> Phase(calls[i]) == n }

  lemma {:induction false} CollectedInPhase<X>(xs: seq<X>, f: X -> Result<Action, PlanError>, n: nat)
    requires Collect(xs, f).Ok? && forall i :: 0 <= i < |xs| && f(xs[i]).Ok? ==> Phase(f(xs[i]).value) == n
    ensures AllInPhase(Collect(xs, f).value, n)
    ensures CallsFor(xs, f, Collect(xs, f).value)
  {
    CollectMeaning(xs, f);
    var calls := Collect(xs, f).value;
    forall i | 0 <= i < |calls| ensures Phase(calls[i]) == n {
      assert f(xs[i]) == Ok(calls[i]);
    }
  }

  lemma {:induction false} FourParts<X>(a: seq<X>, b: seq<X>, c: seq<X>, d: seq<X>, p: X -> bool)
    ensures Keep(a + b + c + d, p) == Keep(a, p) + Keep(b, p) + Keep(c, p) + Keep(d, p)
  {
    KeepConcat(a + b + c, d, p);
    KeepConcat(a + b, c, p);
    KeepConcat(a, b, p);
  }

  lemma {:induction false} PhaseOf(calls: seq<Action>, m: nat, n: nat)
    requires AllInPhase(calls, m)
    ensures Keep(calls, InPhase(n)) == if m == n then calls else []
  {
    if m == n {
      KeepAll(calls, InPhase(n));
    } else {
      KeepNone(calls, InPhase(n));
    }
  }

  lemma SumWithNothing<X>(x: seq<X>)
    ensures x + [] + [] + [] == x && [] + x + [] + [] == x && [] + [] + x + [] == x && [] + [] + [] + x == x
  {
  }

  /** Each of four consecutive phases is found again in the whole. */
  lemma {:induction false} PhaseOfFour(a: seq<Action>, b: seq<Action>, c: seq<Action>, d: seq<Action>, n: nat,
                                       part: seq<Action>)
    requires AllInPhase(a, 1) && AllInPhase(b, 2) && AllInPhase(c, 3) && AllInPhase(d, 4)
    requires (n == 1 && part == a) || (n == 2 && part == b) || (n == 3 && part == c) || (n == 4 && part == d)
    ensures Keep(a + b + c + d, InPhase(n)) == part
  {
    FourParts(a, b, c, d, InPhase(n));
    PhaseOf(a, 1, n);
    PhaseOf(b, 2, n);
    PhaseOf(c, 3, n);
    PhaseOf(d, 4, n);
    SumWithNothing(part);
  }

  lemma PhasesInOrder(a: seq<Action>, b: seq<Action>, c: seq<Action>, d: seq<Action>, i: nat, j: nat)
    requires AllInPhase(a, 1) && AllInPhase(b, 2) && AllInPhase(c, 3) && AllInPhase(d, 4)
    requires i < j < |a + b + c + d|
    ensures Phase((a + b + c + d)[i]) <= Phase((a + b + c + d)[j])
  {
  }

  lemma {:induction false} FourPhases(a: seq<Action>, b: seq<Action>, c: seq<Action>, d: seq<Action>)
    requires AllInPhase(a, 1) && AllInPhase(b, 2) && AllInPhase(c, 3) && AllInPhase(d, 4)
    ensures Keep(a + b + c + d, InPhase(1)) == a && Keep(a + b + c + d, InPhase(2)) == b
    ensures Keep(a + b + c + d, InPhase(3)) == c && Keep(a + b + c + d, InPhase(4)) == d
    ensures forall i, j :: 0 <= i < j < |a + b + c + d| ==> Phase((a + b + c + d)[i]) <= Phase((a + b + c + d)[j])
  {
    PhaseOfFour(a, b, c, d, 1, a);
    PhaseOfFour(a, b, c, d, 2, b);
    PhaseOfFour(a, b, c, d, 3, c);
    PhaseOfFour(a, b, c, d, 4, d);
    forall i, j | 0 <= i < j < |a + b + c + d|
      ensures Phase((a + b + c + d)[i]) <= Phase((a + b + c + d)[j])
    {
      PhasesInOrder(a, b, c, d, i, j);
    }
  }

  lemma {:induction false} PlanHasParts(w: WorkflowSpec, refs: Refs)
    requires PlanOf(w, refs).Ok?
    ensures Collect(w.instances, PutOf(w, refs)).Ok? && Collect(w.documents, UploadOf(w, refs)).Ok?
    ensures Collect(Keep(w.instances, Submits), SubmitOf(w, refs)).Ok?
    ensures Collect(Keep(w.instances, Approves), ApproveOf(w, refs)).Ok?
    ensures PlanOf(w, refs).value
            == Collect(w.instances, PutOf(w, refs)).value + Collect(w.documents, UploadOf(w, refs)).value
               + Collect(Keep(w.instances, Submits), SubmitOf(w, refs)).value
               + Collect(Keep(w.instances, Approves), ApproveOf(w, refs)).value
  {
  }

  lemma {:induction false} PutsInPhase(w: WorkflowSpec, refs: Refs, es: seq<Entry>)
    requires Collect(es, PutOf(w, refs)).Ok?
    ensures AllInPhase(Collect(es, PutOf(w, refs)).value, 1)
    ensures CallsFor(es, PutOf(w, refs), Collect(es, PutOf(w, refs)).value)
  {
    CollectedInPhase(es, PutOf(w, refs), 1);
  }

  lemma {:induction false} UploadsInPhase(w: WorkflowSpec, refs: Refs, ds: seq<Document>)
    requires Collect(ds, UploadOf(w, refs)).Ok?
    ensures AllInPhase(Collect(ds, UploadOf(w, refs)).value, 2)
    ensures CallsFor(ds, UploadOf(w, refs), Collect(ds, UploadOf(w, refs)).value)
  {
    CollectedInPhase(ds, UploadOf(w, refs), 2);
  }

  lemma {:induction false} SubmitsInPhase(w: WorkflowSpec, refs: Refs, es: seq<Entry>)
    requires Collect(es, SubmitOf(w, refs)).Ok?
    ensures AllInPhase(Collect(es, SubmitOf(w, refs)).value, 3)
    ensures CallsFor(es, SubmitOf(w, refs), Collect(es, SubmitOf(w, refs)).value)
  {
    CollectedInPhase(es, SubmitOf(w, refs), 3);
  }

  lemma {:induction false} ApprovalsInPhase(w: WorkflowSpec, refs: Refs, es: seq<Entry>)
    requires Collect(es, ApproveOf(w, refs)).Ok?
    ensures AllInPhase(Collect(es, ApproveOf(w, refs)).value, 4)
    ensures CallsFor(es, ApproveOf(w, refs), Collect(es, ApproveOf(w, refs)).value)
  {
    CollectedInPhase(es, ApproveOf(w, refs), 4);
  }

  /** The phases come one after the other. */
  ghost predicate InOrder(plan: seq<Action>) { forall i, j :: 0 <= i < j < |plan| ==> Phase(plan[i]) <= Phase(plan[j]) }

  /** A plan is complete: the phases come one after the other, with exactly one
      PUT per listed instance, one upload per document, one submit per instance
      that submits or approves and one approval per instance that approves, all
      in the data set's order. */
  lemma {:induction false} PlanIsComplete(w: WorkflowSpec, refs: Refs)
    requires PlanOf(w, refs).Ok?
    ensures var plan := PlanOf(w, refs).value;
            && InOrder(plan)
            && PhaseIs(plan, 1, w.instances, PutOf(w, refs)) && PhaseIs(plan, 2, w.documents, UploadOf(w, refs))
            && PhaseIs(plan, 3, Keep(w.instances, Submits), SubmitOf(w, refs))
            && PhaseIs(plan, 4, Keep(w.instances, Approves), ApproveOf(w, refs))
  {
    PlanHasParts(w, refs);
    PutsInPhase(w, refs, w.instances);
    UploadsInPhase(w, refs, w.documents);
    SubmitsInPhase(w, refs, Keep(w.instances, Submits));
    ApprovalsInPhase(w, refs, Keep(w.instances, Approves));
    PartsAreComplete(PlanOf(w, refs).value, Collect(w.instances, PutOf(w, refs)).value,
                     Collect(w.documents, UploadOf(w, refs)).value,
                     Collect(Keep(w.instances, Submits), SubmitOf(w, refs)).value,
                     Collect(Keep(w.instances, Approves), ApproveOf(w, refs)).value,
                     w.instances, w.documents, Keep(w.instances, Submits), Keep(w.instances, Approves),
                     PutOf(w, refs), UploadOf(w, refs), SubmitOf(w, refs), ApproveOf(w, refs));
  }

  lemma {:induction false} PartsAreComplete<X, Y>(
      plan: seq<Action>, a: seq<Action>, b: seq<Action>, c: seq<Action>, d: seq<Action>,
      puts: seq<X>, uploads: seq<Y>, submits: seq<X>, approvals: seq<X>,
      put: X -> Result<Action, PlanError>, upload: Y -> Result<Action, PlanError>,
      submit: X -> Result<Action, PlanError>, approve: X -> Result<Action, PlanError>)
    requires plan == a + b + c + d
    requires AllInPhase(a, 1) && AllInPhase(b, 2) && AllInPhase(c, 3) && AllInPhase(d, 4)
    requires CallsFor(puts, put, a) && CallsFor(uploads, upload, b)
    requires CallsFor(submits, submit, c) && CallsFor(approvals, approve, d)
    ensures InOrder(plan) && PhaseIs(plan, 1, puts, put) && PhaseIs(plan, 2, uploads, upload)
    ensures PhaseIs(plan, 3, submits, submit) && PhaseIs(plan, 4, approvals, approve)
  {
    FourPhases(a, b, c, d);
  }

  // ----- the lifecycle ----------------------------------------------------

  datatype Live = Live(status: Status, approvalRequired: bool, submittedBy: Option<string>, approvedBy: Option<string>)

  predicate Frozen(l: Live) { l.approvedBy.Some? || l.status.PendingApproval? }

  /** What the API makes of one call on the instance it targets; None is a refusal. */
  function Effect(a: Action, l: Live): Option<Live>
  {
    match a
    case Put(_, _, body) =>
      if Frozen(l) || body.status.PendingApproval? then None else Some(l.(status := body.status))
    case Upload(_, _, _, _) => if Frozen(l) then None else Some(l)
    case Submit(actor, _) =>
      if !l.approvalRequired || Frozen(l) then None
      else Some(l.(status := PendingApproval, submittedBy := Some(actor)))
    case Approve(actor, _) =>
      if !l.status.PendingApproval? || l.submittedBy == Some(actor) then None
      else Some(l.(status := Completed, approvedBy := Some(actor)))
  }

  /** A frozen instance takes no call but an approval; an approval takes somebody
      else than the submitter, and needs a pending instance. */
  lemma FrozenTakesApprovalsOnly(a: Action, l: Live)
    ensures Frozen(l) && Effect(a, l).Some? ==> a.Approve?
    ensures a.Approve? ==> (Effect(a, l).Some? <==> l.status == PendingApproval && l.submittedBy != Some(a.actor))
    ensures a.Submit? && !Frozen(l) ==> (Effect(a, l).Some? <==> l.approvalRequired)
    ensures a.Put? && !Frozen(l) ==> (Effect(a, l).Some? <==> a.body.status != PendingApproval)
    ensures a.Upload? && !Frozen(l) ==> Effect(a, l) == Some(l)
  {
  }

  /** What is pending was submitted; what is approved is completed, and by another
      than its submitter. */
  predicate FourEyes(l: Live)
  {
    && (l.status == PendingApproval ==> l.submittedBy.Some?)
    && (l.approvedBy.Some? ==> l.status == Completed && l.submittedBy.Some? && l.submittedBy != l.approvedBy)
  }

  lemma EffectKeepsFourEyes(a: Action, l: Live)
    requires FourEyes(l)
    ensures Effect(a, l).Some? ==> FourEyes(Effect(a, l).value)
  {
  }

  /** Whatever calls go through, nobody approves what they submitted. */
  lemma {:induction false} RunKeepsFourEyes(s: map<string, Live>, plan: seq<Action>)
    requires forall id :: id in s ==> FourEyes(s[id])
    ensures Run(s, plan).Some? ==> forall id :: id in Run(s, plan).value ==> FourEyes(Run(s, plan).value[id])
  {
    if plan != [] && Run(s, plan).Some? {
      var (init, a) := (plan[..|plan| - 1], plan[|plan| - 1]);
      RunKeepsFourEyes(s, init);
      EffectKeepsFourEyes(a, Run(s, init).value[a.target]);
    }
  }

  function Run(s: map<string, Live>, plan: seq<Action>): Option<map<string, Live>>
  {
    if plan == [] then Some(s)
    else
      var (init, a) := (Run(s, plan[..|plan| - 1]), plan[|plan| - 1]);
      if init.None? || a.target !in init.value then None
      else
        var l := Effect(a, init.value[a.target]);
        if l.None? then None else Some(init.value[a.target := l.value])
  }

  /** The calls on one instance, run on its record alone. */
  function RunOne(l: Live, calls: seq<Action>): Option<Live>
  {
    if calls == [] then Some(l)
    else
      var init := RunOne(l, calls[..|calls| - 1]);
      if init.None? then None else Effect(calls[|calls| - 1], init.value)
  }

  function On(id: string): Action -> bool { (a: Action) => a.target == id }

  lemma {:induction false} OneMoreCall(init: seq<Action>, a: Action, id: string, l: Live)
    ensures Keep(init + [a], On(id)) == Keep(init, On(id)) + (if a.target == id then [a] else [])
    ensures RunOne(l, Keep(init + [a], On(id)))
            == if a.target != id || RunOne(l, Keep(init, On(id))).None? then RunOne(l, Keep(init, On(id)))
               else Effect(a, RunOne(l, Keep(init, On(id))).value)
  {
    assert (init + [a])[..|init|] == init;
    var was := Keep(init, On(id));
    assert (was + [a])[..|was|] == was && was + [] == was;
  }

  ghost predicate Survives(s: map<string, Live>, plan: seq<Action>, id: string)
    requires id in s
  {
    RunOne(s[id], Keep(plan, On(id))).Some?
  }

  ghost predicate Runs(s: map<string, Live>, plan: seq<Action>)
  {
    && (forall i :: 0 <= i < |plan| ==> plan[i].target in s)
    && forall id :: id in s ==> Survives(s, plan, id)
  }

  ghost predicate Accepted(s: map<string, Live>, init: seq<Action>, a: Action)
    requires a.target in s && Survives(s, init, a.target)
  {
    Effect(a, RunOne(s[a.target], Keep(init, On(a.target))).value).Some?
  }

  lemma SurvivesStep(s: map<string, Live>, init: seq<Action>, a: Action, id: string)
    requires id in s
    ensures Survives(s, init + [a], id) <==> Survives(s, init, id) && (a.target == id ==> Accepted(s, init, a))
  {
    OneMoreCall(init, a, id, s[id]);
  }

  lemma RunsStep(s: map<string, Live>, init: seq<Action>, a: Action)
    ensures Runs(s, init + [a]) <==> Runs(s, init) && a.target in s && Accepted(s, init, a)
  {
    var plan := init + [a];
    assert plan[|init|] == a && forall i :: 0 <= i < |init| ==> plan[i] == init[i];
    forall id | id in s
      ensures Survives(s, plan, id) <==> Survives(s, init, id) && (a.target == id ==> Accepted(s, init, a))
    {
      SurvivesStep(s, init, a, id);
    }
  }

  /** The instance is where its own calls leave it. */
  ghost predicate Reaches(s: map<string, Live>, plan: seq<Action>, final: map<string, Live>, id: string)
    requires id in s
  {
    id in final && RunOne(s[id], Keep(plan, On(id))) == Some(final[id])
  }

  ghost predicate Tracks(s: map<string, Live>, plan: seq<Action>, final: map<string, Live>)
  {
    final.Keys == s.Keys && forall id :: id in s ==> Reaches(s, plan, final, id)
  }

  lemma ReachesStep(s: map<string, Live>, init: seq<Action>, a: Action, was: map<string, Live>, l: Live, id: string)
    requires id in s && Reaches(s, init, was, id)
    requires a.target in was && Effect(a, was[a.target]) == Some(l)
    ensures Reaches(s, init + [a], was[a.target := l], id)
  {
    OneMoreCall(init, a, id, s[id]);
  }

  lemma TracksStep(s: map<string, Live>, init: seq<Action>, a: Action, was: map<string, Live>, l: Live)
    requires Tracks(s, init, was) && a.target in s && Effect(a, was[a.target]) == Some(l)
    ensures Tracks(s, init + [a], was[a.target := l])
  {
    var final := was[a.target := l];
    assert final.Keys == s.Keys;
    forall id | id in s ensures Reaches(s, init + [a], final, id) {
      assert Reaches(s, init, was, id);
      ReachesStep(s, init, a, was, l, id);
    }
  }

  /** A run is the runs of its instances side by side: it is refused exactly
      when a target is unknown or one instance's own calls are refused, and
      leaves each instance where its own calls leave it. */
  lemma {:induction false} RunIsPointwise(s: map<string, Live>, plan: seq<Action>)
    ensures Run(s, plan).Some? <==> Runs(s, plan)
    ensures Run(s, plan).Some? ==> Tracks(s, plan, Run(s, plan).value)
  {
    if plan != [] {
      var (init, a) := (plan[..|plan| - 1], plan[|plan| - 1]);
      RunIsPointwise(s, init);
      assert plan == init + [a];
      PointwiseStep(s, init, a);
    }
  }

  lemma {:induction false} PointwiseStep(s: map<string, Live>, init: seq<Action>, a: Action)
    requires Run(s, init).Some? <==> Runs(s, init)
    requires Run(s, init).Some? ==> Tracks(s, init, Run(s, init).value)
    ensures Run(s, init + [a]).Some? <==> Runs(s, init + [a])
    ensures Run(s, init + [a]).Some? ==> Tracks(s, init + [a], Run(s, init + [a]).value)
  {
    assert (init + [a])[..|init|] == init;
    RunsStep(s, init, a);
    if Run(s, init).Some? && a.target in s {
      var was := Run(s, init).value;
      assert Reaches(s, init, was, a.target);
      assert Accepted(s, init, a) <==> Effect(a, was[a.target]).Some?;
      if Effect(a, was[a.target]).Some? {
        TracksStep(s, init, a, was, Effect(a, was[a.target]).value);
      }
    }
  }

  // ----- one instance's calls ---------------------------------------------

  lemma {:induction false} RunOneConcat(l: Live, a: seq<Action>, b: seq<Action>)
    ensures RunOne(l, a + b) == if RunOne(l, a).None? then None else RunOne(RunOne(l, a).value, b)
  {
    if b == [] {
      assert a + b == a;
    } else {
      RunOneConcat(l, a, b[..|b| - 1]);
      assert (a + b)[..|a + b| - 1] == a + b[..|b| - 1];
    }
  }

  /** Uploads change nothing, and are accepted while the instance is not frozen. */
  lemma {:induction false} UploadsPass(l: Live, calls: seq<Action>)
    requires !Frozen(l) && forall i :: 0 <= i < |calls| ==> calls[i].Upload?
    ensures RunOne(l, calls) == Some(l)
  {
    if calls != [] {
      UploadsPass(l, calls[..|calls| - 1]);
    }
  }
}
