/** When a plan runs to its end, and what the closing status check then finds. */
module SeedTheorems {
  import opened Outcomes
  import opened OracleWorld
  import opened SeedActions
  import opened SeedLifecycle

  function At(refs: Refs, id: string): Entry -> bool { (e: Entry) => TargetOf(refs, e) == id }

  function Any(): Entry -> bool { (e: Entry) => true }

  ghost predicate Aims(refs: Refs, f: Entry -> Result<Action, PlanError>)
  {
    forall e :: f(e).Ok? ==> f(e).value.target == TargetOf(refs, e)
  }

  lemma {:induction false} PrefixCollects(init: seq<Entry>, e: Entry, p: Entry -> bool,
                                          f: Entry -> Result<Action, PlanError>)
    requires Collect(Keep(init + [e], p), f).Ok?
    ensures Collect(Keep(init, p), f).Ok? && (p(e) ==> f(e).Ok?)
  {
    KeepAppend(init, e, p);
  }

  /** The calls on `id` are the calls of the entries aimed at it. */
  ghost predicate SplitsOn(refs: Refs, es: seq<Entry>, p: Entry -> bool, f: Entry -> Result<Action, PlanError>,
                           id: string)
  {
    var (whole, there) := (Collect(Keep(es, p), f), Collect(Keep(Keep(es, At(refs, id)), p), f));
    whole.Ok? && there.Ok? && Keep(whole.value, On(id)) == there.value
  }

  lemma {:induction false} CollectOn(refs: Refs, es: seq<Entry>, p: Entry -> bool,
                                     f: Entry -> Result<Action, PlanError>, id: string)
    requires Aims(refs, f) && Collect(Keep(es, p), f).Ok?
    ensures SplitsOn(refs, es, p, f, id)
  {
    if es != [] {
      var (init, e) := (es[..|es| - 1], es[|es| - 1]);
      assert es == init + [e];
      PrefixCollects(init, e, p, f);
      CollectOn(refs, init, p, f, id);
      CollectOnStep(refs, init, e, p, f, id);
    }
  }

  lemma CollectOnStep(refs: Refs, init: seq<Entry>, e: Entry, p: Entry -> bool, f: Entry -> Result<Action, PlanError>,
                      id: string)
    requires Aims(refs, f) && (p(e) ==> f(e).Ok?) && SplitsOn(refs, init, p, f, id)
    ensures SplitsOn(refs, init + [e], p, f, id)
  {
    KeepAppend(init, e, p);
    KeepAppend(init, e, At(refs, id));
    var here := Keep(init, At(refs, id));
    KeepAppend(here, e, p);
    if p(e) {
      KeepAppend(Collect(Keep(init, p), f).value, f(e).value, On(id));
    }
  }

  lemma {:induction false} KeepAppend<X>(xs: seq<X>, x: X, p: X -> bool)
    ensures Keep(xs + [x], p) == if p(x) then Keep(xs, p) + [x] else Keep(xs, p)
  {
    assert (xs + [x])[..|xs|] == xs && Keep(xs, p) + [] == Keep(xs, p);
  }

  lemma {:induction false} KeepOne<X>(xs: seq<X>, i: nat, p: X -> bool)
    requires i < |xs| && p(xs[i]) && forall j :: 0 <= j < |xs| && j != i ==> !p(xs[j])
    ensures Keep(xs, p) == [xs[i]]
  {
    var init := xs[..|xs| - 1];
    if i < |init| {
      KeepOne(init, i, p);
    } else {
      KeepNone(init, p);
    }
  }

  // ----- what each instance goes through ----------------------------------

  /** The calls one entry gives rise to, its uploads in between. */
  function CallsOf(w: WorkflowSpec, refs: Refs, e: Entry, uploads: seq<Action>): seq<Action>
  {
    [Put(w.writer, TargetOf(refs, e), BodyOf(refs, e))] + uploads
    + (if Submits(e) then [Submit(w.writer, TargetOf(refs, e))] else [])
    + (if Approves(e) then [Approve(w.approver, TargetOf(refs, e))] else [])
  }

  predicate Fresh(l: Live) { l.status.NotStarted? && l.submittedBy.None? && l.approvedBy.None? }

  /** The lifecycle takes an entry's calls: a PUT cannot set the approval status,
      only an instance that requires approval is submitted, and nobody approves
      what they submitted. */
  predicate Legal(w: WorkflowSpec, e: Entry, approvalRequired: bool)
  {
    && (e.via.ViaPut? ==> !e.status.PendingApproval?)
    && (!e.via.ViaPut? ==> approvalRequired)
    && (e.via.ViaApprove? ==> w.writer != w.approver)
  }

  /** Where an entry's calls leave its instance. */
  function Outcome(e: Entry): Status
  {
    match e.via
    case ViaPut => e.status
    case ViaSubmit => PendingApproval
    case ViaApprove => Completed
  }

  lemma {:induction false} RunOneStep(l: Live, calls: seq<Action>, a: Action)
    ensures RunOne(l, calls + [a]) == if RunOne(l, calls).None? then None else Effect(a, RunOne(l, calls).value)
  {
    assert (calls + [a])[..|calls|] == calls;
  }

  /** The PUT decides what comes of it and the uploads after it. */
  lemma {:induction false} PutThenUploads(l: Live, put: Action, uploads: seq<Action>)
    requires put.Put? && forall i :: 0 <= i < |uploads| ==> uploads[i].Upload?
    requires Effect(put, l).Some? ==> !Frozen(Effect(put, l).value)
    ensures RunOne(l, [put] + uploads) == Effect(put, l)
  {
    assert [] + [put] == [put];
    RunOneStep(l, [], put);
    RunOneConcat(l, [put], uploads);
    if Effect(put, l).Some? {
      UploadsPass(Effect(put, l).value, uploads);
    }
  }

  /** What an action comes to after what came before. */
  function Then(r: Option<Live>, does: bool, a: Action): Option<Live>
  {
    if r.None? || !does then r else Effect(a, r.value)
  }

  lemma {:induction false} MaybeOneMore(l: Live, calls: seq<Action>, does: bool, a: Action)
    ensures RunOne(l, calls + (if does then [a] else [])) == Then(RunOne(l, calls), does, a)
  {
    RunOneStep(l, calls, a);
    assert calls + [] == calls;
  }

  /** An entry's calls, one effect after the other. */
  function Effects(w: WorkflowSpec, refs: Refs, e: Entry, l: Live): Option<Live>
  {
    var put := Effect(Put(w.writer, TargetOf(refs, e), BodyOf(refs, e)), l);
    var submitted := Then(put, Submits(e), Submit(w.writer, TargetOf(refs, e)));
    Then(submitted, Approves(e), Approve(w.approver, TargetOf(refs, e)))
  }

  lemma {:induction false} CallsHaveEffects(w: WorkflowSpec, refs: Refs, e: Entry, uploads: seq<Action>, l: Live)
    requires Fresh(l) && forall i :: 0 <= i < |uploads| ==> uploads[i].Upload?
    ensures RunOne(l, CallsOf(w, refs, e, uploads)) == Effects(w, refs, e, l)
  {
    var (put, submit) := (Put(w.writer, TargetOf(refs, e), BodyOf(refs, e)), Submit(w.writer, TargetOf(refs, e)));
    PutThenUploads(l, put, uploads);
    MaybeOneMore(l, [put] + uploads, Submits(e), submit);
    MaybeOneMore(l, [put] + uploads + (if Submits(e) then [submit] else []), Approves(e),
                 Approve(w.approver, TargetOf(refs, e)));
  }

  lemma EffectsIffLegal(w: WorkflowSpec, refs: Refs, e: Entry, l: Live)
    requires Fresh(l)
    ensures Effects(w, refs, e, l).Some? <==> Legal(w, e, l.approvalRequired)
    ensures Effects(w, refs, e, l).Some? ==> Effects(w, refs, e, l).value.status == Outcome(e)
  {
  }

  /** One instance: its calls are accepted exactly when they are legal. */
  lemma {:induction false} EntryRuns(w: WorkflowSpec, refs: Refs, e: Entry, uploads: seq<Action>, l: Live)
    requires Fresh(l) && forall i :: 0 <= i < |uploads| ==> uploads[i].Upload?
    ensures RunOne(l, CallsOf(w, refs, e, uploads)).Some? <==> Legal(w, e, l.approvalRequired)
    ensures RunOne(l, CallsOf(w, refs, e, uploads)).Some?
            ==> RunOne(l, CallsOf(w, refs, e, uploads)).value.status == Outcome(e)
  {
    CallsHaveEffects(w, refs, e, uploads, l);
    EffectsIffLegal(w, refs, e, l);
  }

  // ----- the whole plan ---------------------------------------------------

  /** The ids name generated instances. */
  ghost predicate Generated(refs: Refs, ids: set<string>)
  {
    forall k :: k in refs.instanceIds && refs.instanceIds[k] != "" ==> refs.instanceIds[k] in ids
  }

  /** The instances are freshly generated, the ids name them, and no two listed
      entries share one. */
  ghost predicate Wired(w: WorkflowSpec, refs: Refs, s: map<string, Live>)
  {
    && PlanOf(w, refs).Ok?
    && (forall id :: id in s ==> Fresh(s[id]))
    && Generated(refs, s.Keys)
    && forall i, j :: 0 <= i < j < |w.instances| ==> TargetOf(refs, w.instances[i]) != TargetOf(refs, w.instances[j])
  }

  function KeyOf(e: Entry): string { InstanceKey(e.period, e.task) }

  /** Different keys have different ids. */
  ghost predicate IdsAreInjective(refs: Refs)
  {
    forall j, k :: j in refs.instanceIds && k in refs.instanceIds && refs.instanceIds[j] == refs.instanceIds[k]
      ==> j == k
  }

  /** No (period, task) pair is listed twice. */
  ghost predicate NoEntryTwice(w: WorkflowSpec)
  {
    forall i, j :: 0 <= i < j < |w.instances| ==> KeyOf(w.instances[i]) != KeyOf(w.instances[j])
  }

  /** What a seeder finds on a valid data set: a plan, freshly generated instances,
      each named by an id of its own, and no pair listed twice. */
  ghost predicate Seeded(w: WorkflowSpec, refs: Refs, s: map<string, Live>)
  {
    && PlanOf(w, refs).Ok?
    && (forall id :: id in s ==> Fresh(s[id]))
    && Generated(refs, s.Keys) && IdsAreInjective(refs) && NoEntryTwice(w)
  }

  /** Then no two listed entries share an instance. */
  lemma SeededIsWired(w: WorkflowSpec, refs: Refs, s: map<string, Live>)
    requires Seeded(w, refs, s)
    ensures Wired(w, refs, s)
  {
    PlanOkIff(w, refs);
    forall i, j | 0 <= i < j < |w.instances|
      ensures TargetOf(refs, w.instances[i]) != TargetOf(refs, w.instances[j])
    {
      assert Addressable(refs, w.instances[i]) && Addressable(refs, w.instances[j]);
      assert KeyOf(w.instances[i]) != KeyOf(w.instances[j]);
    }
  }

  function UploadsOn(w: WorkflowSpec, refs: Refs, id: string): seq<Action>
    requires Collect(w.documents, UploadOf(w, refs)).Ok?
  {
    Keep(Collect(w.documents, UploadOf(w, refs)).value, On(id))
  }

  lemma {:induction false} KeptAreUploads(calls: seq<Action>, p: Action -> bool)
    requires AllInPhase(calls, 2)
    ensures forall i :: 0 <= i < |Keep(calls, p)| ==> Keep(calls, p)[i].Upload?
  {
    if calls != [] {
      assert Phase(calls[|calls| - 1]) == 2;
      KeptAreUploads(calls[..|calls| - 1], p);
    }
  }

  /** The calls on one instance, in terms of the entries aimed at it. */
  lemma {:induction false} CallsOnInstance(w: WorkflowSpec, refs: Refs, id: string, there: seq<Entry>)
    requires PlanOf(w, refs).Ok? && there == Keep(w.instances, At(refs, id))
    ensures Collect(there, PutOf(w, refs)).Ok? && Collect(Keep(there, Submits), SubmitOf(w, refs)).Ok?
            && Collect(Keep(there, Approves), ApproveOf(w, refs)).Ok?
    ensures Keep(PlanOf(w, refs).value, On(id))
            == Collect(there, PutOf(w, refs)).value + UploadsOn(w, refs, id)
               + Collect(Keep(there, Submits), SubmitOf(w, refs)).value
               + Collect(Keep(there, Approves), ApproveOf(w, refs)).value
  {
    var puts := Collect(w.instances, PutOf(w, refs)).value;
    KeepAll(w.instances, Any());
    KeepAll(there, Any());
    CollectOn(refs, w.instances, Any(), PutOf(w, refs), id);
    CollectOn(refs, w.instances, Submits, SubmitOf(w, refs), id);
    CollectOn(refs, w.instances, Approves, ApproveOf(w, refs), id);
    FourParts(puts, Collect(w.documents, UploadOf(w, refs)).value,
              Collect(Keep(w.instances, Submits), SubmitOf(w, refs)).value,
              Collect(Keep(w.instances, Approves), ApproveOf(w, refs)).value, On(id));
  }

  lemma CollectSingle(e: Entry, p: Entry -> bool, f: Entry -> Result<Action, PlanError>)
    ensures Keep([e], p) == if p(e) then [e] else []
    ensures Collect([e], f) == if f(e).Ok? then Ok([f(e).value]) else Err(f(e).error)
    ensures Collect([], f) == Ok([])
  {
    assert [e] == [] + [e];
    KeepAppend([], e, p);
    assert f(e).Ok? ==> [] + [f(e).value] == [f(e).value];
  }

  lemma SingleEntryCalls(w: WorkflowSpec, refs: Refs, e: Entry)
    requires Collect([e], PutOf(w, refs)).Ok? && Collect(Keep([e], Submits), SubmitOf(w, refs)).Ok?
    requires Collect(Keep([e], Approves), ApproveOf(w, refs)).Ok?
    ensures Collect([e], PutOf(w, refs)).value == [Put(w.writer, TargetOf(refs, e), BodyOf(refs, e))]
    ensures Collect(Keep([e], Submits), SubmitOf(w, refs)).value
            == if Submits(e) then [Submit(w.writer, TargetOf(refs, e))] else []
    ensures Collect(Keep([e], Approves), ApproveOf(w, refs)).value
            == if Approves(e) then [Approve(w.approver, TargetOf(refs, e))] else []
  {
    CollectSingle(e, Submits, PutOf(w, refs));
    CollectSingle(e, Submits, SubmitOf(w, refs));
    CollectSingle(e, Approves, ApproveOf(w, refs));
  }

  lemma AimedAt(w: WorkflowSpec, refs: Refs, s: map<string, Live>, i: nat)
    requires Wired(w, refs, s) && i < |w.instances|
    ensures Keep(w.instances, At(refs, TargetOf(refs, w.instances[i]))) == [w.instances[i]]
  {
    KeepOne(w.instances, i, At(refs, TargetOf(refs, w.instances[i])));
  }

  lemma ListedCalls(w: WorkflowSpec, refs: Refs, e: Entry, id: string)
    requires PlanOf(w, refs).Ok? && id == TargetOf(refs, e) && Keep(w.instances, At(refs, id)) == [e]
    ensures Keep(PlanOf(w, refs).value, On(id)) == CallsOf(w, refs, e, UploadsOn(w, refs, id))
  {
    CallsOnInstance(w, refs, id, [e]);
    SingleEntryCalls(w, refs, e);
  }

  lemma UnlistedCalls(w: WorkflowSpec, refs: Refs, id: string)
    requires PlanOf(w, refs).Ok? && forall i :: 0 <= i < |w.instances| ==> TargetOf(refs, w.instances[i]) != id
    ensures Keep(PlanOf(w, refs).value, On(id)) == UploadsOn(w, refs, id)
  {
    KeepNone(w.instances, At(refs, id));
    CallsOnInstance(w, refs, id, []);
  }

  lemma UploadsAreUploads(w: WorkflowSpec, refs: Refs, id: string)
    requires Collect(w.documents, UploadOf(w, refs)).Ok?
    ensures forall i :: 0 <= i < |UploadsOn(w, refs, id)| ==> UploadsOn(w, refs, id)[i].Upload?
  {
    CollectedInPhase(w.documents, UploadOf(w, refs), 2);
    KeptAreUploads(Collect(w.documents, UploadOf(w, refs)).value, On(id));
  }

  ghost predicate AllLegal(w: WorkflowSpec, refs: Refs, s: map<string, Live>)
    requires Wired(w, refs, s)
  {
    forall i :: 0 <= i < |w.instances| ==> EntryIsLegal(w, refs, s, i)
  }

  ghost predicate EntryIsLegal(w: WorkflowSpec, refs: Refs, s: map<string, Live>, i: nat)
    requires Wired(w, refs, s) && i < |w.instances|
  {
    TargetOf(refs, w.instances[i]) in s && Legal(w, w.instances[i], s[TargetOf(refs, w.instances[i])].approvalRequired)
  }

  /** A listed instance survives its calls exactly when its entry is legal. */
  lemma ListedSurvives(w: WorkflowSpec, refs: Refs, s: map<string, Live>, i: nat)
    requires Wired(w, refs, s) && i < |w.instances| && TargetOf(refs, w.instances[i]) in s
    ensures var (plan, id) := (PlanOf(w, refs).value, TargetOf(refs, w.instances[i]));
            && (Survives(s, plan, id) <==> EntryIsLegal(w, refs, s, i))
            && (Survives(s, plan, id) ==> RunOne(s[id], Keep(plan, On(id))).value.status == Outcome(w.instances[i]))
  {
    var (e, id) := (w.instances[i], TargetOf(refs, w.instances[i]));
    AimedAt(w, refs, s, i);
    ListedCalls(w, refs, e, id);
    UploadsAreUploads(w, refs, id);
    EntryRuns(w, refs, e, UploadsOn(w, refs, id), s[id]);
  }

  lemma UnlistedSurvives(w: WorkflowSpec, refs: Refs, s: map<string, Live>, id: string)
    requires Wired(w, refs, s) && id in s && forall i :: 0 <= i < |w.instances| ==> TargetOf(refs, w.instances[i]) != id
    ensures RunOne(s[id], Keep(PlanOf(w, refs).value, On(id))) == Some(s[id])
  {
    UnlistedCalls(w, refs, id);
    UploadsAreUploads(w, refs, id);
    UploadsPass(s[id], UploadsOn(w, refs, id));
  }

  ghost predicate AllTargetsIn(calls: seq<Action>, ids: set<string>)
  {
    forall i :: 0 <= i < |calls| ==> calls[i].target in ids
  }

  lemma {:induction false} CollectedTargets<X>(xs: seq<X>, f: X -> Result<Action, PlanError>, ids: set<string>)
    requires Collect(xs, f).Ok?
    requires forall i :: 0 <= i < |xs| && f(xs[i]).Ok? ==> f(xs[i]).value.target in ids
    ensures AllTargetsIn(Collect(xs, f).value, ids)
  {
    CollectMeaning(xs, f);
    var calls := Collect(xs, f).value;
    forall i | 0 <= i < |calls| ensures calls[i].target in ids {
      assert f(xs[i]) == Ok(calls[i]);
    }
  }

  lemma {:induction false} EntryTargets(es: seq<Entry>, refs: Refs, f: Entry -> Result<Action, PlanError>,
                                        ids: set<string>)
    requires Collect(es, f).Ok? && Aims(refs, f) && Generated(refs, ids)
    requires forall e :: f(e).Ok? ==> TargetOf(refs, e) != ""
    ensures AllTargetsIn(Collect(es, f).value, ids)
  {
    CollectedTargets(es, f, ids);
  }

  lemma DocumentTargets(w: WorkflowSpec, refs: Refs, ids: set<string>)
    requires Collect(w.documents, UploadOf(w, refs)).Ok? && Generated(refs, ids)
    ensures AllTargetsIn(Collect(w.documents, UploadOf(w, refs)).value, ids)
  {
    CollectedTargets(w.documents, UploadOf(w, refs), ids);
  }

  /** Every call of a plan targets a generated instance. */
  lemma TargetsExist(w: WorkflowSpec, refs: Refs, s: map<string, Live>)
    requires Wired(w, refs, s)
    ensures AllTargetsIn(PlanOf(w, refs).value, s.Keys)
  {
    EntryTargets(w.instances, refs, PutOf(w, refs), s.Keys);
    DocumentTargets(w, refs, s.Keys);
    EntryTargets(Keep(w.instances, Submits), refs, SubmitOf(w, refs), s.Keys);
    EntryTargets(Keep(w.instances, Approves), refs, ApproveOf(w, refs), s.Keys);
    FourPartsTargets(Collect(w.instances, PutOf(w, refs)).value, Collect(w.documents, UploadOf(w, refs)).value,
                     Collect(Keep(w.instances, Submits), SubmitOf(w, refs)).value,
                     Collect(Keep(w.instances, Approves), ApproveOf(w, refs)).value, s.Keys);
  }

  lemma FourPartsTargets(a: seq<Action>, b: seq<Action>, c: seq<Action>, d: seq<Action>, ids: set<string>)
    requires AllTargetsIn(a, ids) && AllTargetsIn(b, ids) && AllTargetsIn(c, ids) && AllTargetsIn(d, ids)
    ensures AllTargetsIn(a + b + c + d, ids)
  {
  }

  /** On freshly generated instances the whole plan goes through exactly when
      every entry is legal. */
  lemma {:induction false} PlanRunsIffLegal(w: WorkflowSpec, refs: Refs, s: map<string, Live>)
    requires Seeded(w, refs, s)
    ensures Wired(w, refs, s)
    ensures Run(s, PlanOf(w, refs).value).Some? <==> AllLegal(w, refs, s)
  {
    SeededIsWired(w, refs, s);
    WiredPlanRunsIffLegal(w, refs, s);
  }

  lemma {:induction false} WiredPlanRunsIffLegal(w: WorkflowSpec, refs: Refs, s: map<string, Live>)
    requires Wired(w, refs, s)
    ensures Run(s, PlanOf(w, refs).value).Some? <==> AllLegal(w, refs, s)
  {
    var plan := PlanOf(w, refs).value;
    RunIsPointwise(s, plan);
    TargetsExist(w, refs, s);
    forall i | 0 <= i < |w.instances|
      ensures TargetOf(refs, w.instances[i]) in s
      ensures Survives(s, plan, TargetOf(refs, w.instances[i])) <==> EntryIsLegal(w, refs, s, i)
    {
      EntryTargetExists(w, refs, s, i);
      ListedSurvives(w, refs, s, i);
    }
    forall id | id in s && forall i :: 0 <= i < |w.instances| ==> TargetOf(refs, w.instances[i]) != id
      ensures Survives(s, plan, id)
    {
      UnlistedSurvives(w, refs, s, id);
    }
  }

  /** What the rules of the data set ask of an entry's status and route. */
  predicate RouteRules(e: Entry)
  {
    (e.via.ViaSubmit? ==> e.status.PendingApproval?) && (e.via.ViaApprove? ==> e.status.Completed?)
  }

  /** An entry the rules let pass and the API does not: awaiting approval by a plain PUT. */
  lemma PutCannotAwaitApproval(id: string)
    requires id != ""
    ensures var e := Entry("M1", "filing", PendingApproval, ViaPut, "", "", map[], "");
            var w := WorkflowSpec("writer", "approver", [e], []);
            var refs := Refs("workflow", map[InstanceKey("M1", "filing") := id], map[]);
            var s := map[id := Live(NotStarted, true, None, None)];
            RouteRules(e) && Seeded(w, refs, s) && Run(s, PlanOf(w, refs).value).None?
  {
    var e := Entry("M1", "filing", PendingApproval, ViaPut, "", "", map[], "");
    var w := WorkflowSpec("writer", "approver", [e], []);
    var refs := Refs("workflow", map[InstanceKey("M1", "filing") := id], map[]);
    var s := map[id := Live(NotStarted, true, None, None)];
    PlanOkIff(w, refs);
    assert w.instances[0] == e && !Submits(e) && !Approves(e);
    PlanRunsIffLegal(w, refs, s);
    assert !EntryIsLegal(w, refs, s, 0);
  }

  lemma EntryTargetExists(w: WorkflowSpec, refs: Refs, s: map<string, Live>, i: nat)
    requires Wired(w, refs, s) && i < |w.instances|
    ensures TargetOf(refs, w.instances[i]) in s
  {
    CollectMeaning(w.instances, PutOf(w, refs));
    assert PutOf(w, refs)(w.instances[i]).Ok?;
  }

  /** After the run a listed instance has its entry's outcome, and an unlisted
      one is untouched. */
  lemma {:induction false} PlanOutcomes(w: WorkflowSpec, refs: Refs, s: map<string, Live>, id: string)
    requires Wired(w, refs, s) && Run(s, PlanOf(w, refs).value).Some? && id in s
    ensures id in Run(s, PlanOf(w, refs).value).value
    ensures forall i :: 0 <= i < |w.instances| && TargetOf(refs, w.instances[i]) == id ==>
                          Run(s, PlanOf(w, refs).value).value[id].status == Outcome(w.instances[i])
    ensures (forall i :: 0 <= i < |w.instances| ==> TargetOf(refs, w.instances[i]) != id) ==>
              Run(s, PlanOf(w, refs).value).value[id] == s[id]
  {
    var plan := PlanOf(w, refs).value;
    RunIsPointwise(s, plan);
    assert Reaches(s, plan, Run(s, plan).value, id);
    forall i | 0 <= i < |w.instances| && TargetOf(refs, w.instances[i]) == id
      ensures Run(s, plan).value[id].status == Outcome(w.instances[i])
    {
      ListedSurvives(w, refs, s, i);
    }
    if forall i :: 0 <= i < |w.instances| ==> TargetOf(refs, w.instances[i]) != id {
      UnlistedSurvives(w, refs, s, id);
    }
  }

  // ----- the closing check ------------------------------------------------

  /** A live row as the check lists it. */
  datatype LiveRow = LiveRow(id: string, templateId: string, period: string, status: Status)

  /** The statuses the data set declares; a later entry of a key replaces an earlier one. */
  function Expected(es: seq<Entry>): map<string, Status>
  {
    if es == [] then map[] else Expected(es[..|es| - 1])[KeyOf(es[|es| - 1]) := es[|es| - 1].status]
  }

  /** What a key's instance must be: what is declared, or not started. */
  function Want(es: seq<Entry>, key: string): Status { if key in Expected(es) then Expected(es)[key] else NotStarted }

  predicate RowAgrees(es: seq<Entry>, names: map<string, string>, r: LiveRow)
  {
    r.templateId in names && r.status == Want(es, InstanceKey(r.period, names[r.templateId]))
  }

  function TallyOf(rows: seq<LiveRow>, status: Status): nat
  {
    if rows == [] then 0
    else TallyOf(rows[..|rows| - 1], status) + (if rows[|rows| - 1].status == status then 1 else 0)
  }

  /** Accepts exactly when every row names a known template and has the wanted
      status; the tally then counts the rows of each status. */
  method CheckInstanceStatuses(es: seq<Entry>, rows: seq<LiveRow>, names: map<string, string>)
    returns (ok: bool, tally: map<Status, nat>)
    ensures ok <==> forall i :: 0 <= i < |rows| ==> RowAgrees(es, names, rows[i])
    ensures ok ==> forall status :: (if status in tally then tally[status] else 0) == TallyOf(rows, status)
  {
    var expected: map<string, Status> := map[];
    for i := 0 to |es|
      invariant expected == Expected(es[..i])
    {
      assert es[..i + 1][..i] == es[..i];
      expected := expected[InstanceKey(es[i].period, es[i].task) := es[i].status];
    }
    assert es[..|es|] == es;
    tally := map[];
    for i := 0 to |rows|
      invariant forall j :: 0 <= j < i ==> RowAgrees(es, names, rows[j])
      invariant forall status :: (if status in tally then tally[status] else 0) == TallyOf(rows[..i], status)
    {
      var row := rows[i];
      assert rows[..i + 1][..i] == rows[..i];
      if row.templateId !in names {
        return false, tally;
      }
      var key := InstanceKey(row.period, names[row.templateId]);
      var want := if key in expected then expected[key] else NotStarted;
      if row.status != want {
        return false, tally;
      }
      tally := tally[row.status := (if row.status in tally then tally[row.status] else 0) + 1];
    }
    assert rows[..|rows|] == rows;
    return true, tally;
  }

  lemma {:induction false} ExpectedOfDistinct(es: seq<Entry>, i: nat)
    requires i < |es| && forall j, k :: 0 <= j < k < |es| ==> KeyOf(es[j]) != KeyOf(es[k])
    ensures Want(es, KeyOf(es[i])) == es[i].status
  {
    if i < |es| - 1 {
      ExpectedOfDistinct(es[..|es| - 1], i);
    }
  }

  lemma {:induction false} ExpectedOfUnlisted(es: seq<Entry>, key: string)
    requires forall i :: 0 <= i < |es| ==> KeyOf(es[i]) != key
    ensures Want(es, key) == NotStarted
  {
    if es != [] {
      ExpectedOfUnlisted(es[..|es| - 1], key);
    }
  }

  /** The rows are the instances after the run, named as the ids name them. */
  ghost predicate RowsShow(rows: seq<LiveRow>, names: map<string, string>, refs: Refs, final: map<string, Live>)
  {
    forall i :: 0 <= i < |rows| ==> RowShows(rows[i], names, refs, final)
  }

  ghost predicate RowShows(r: LiveRow, names: map<string, string>, refs: Refs, final: map<string, Live>)
  {
    && r.id in final && r.status == final[r.id].status && r.id != ""
    && r.templateId in names && IdOf(refs.instanceIds, InstanceKey(r.period, names[r.templateId])) == r.id
  }

  lemma {:induction false} RowOfEntry(w: WorkflowSpec, refs: Refs, s: map<string, Live>, names: map<string, string>,
                                      r: LiveRow, i: nat)
    requires Wired(w, refs, s) && IdsAreInjective(refs) && Run(s, PlanOf(w, refs).value).Some?
    requires RowShows(r, names, refs, Run(s, PlanOf(w, refs).value).value)
    requires i < |w.instances| && TargetOf(refs, w.instances[i]) == r.id
    ensures RowAgrees(w.instances, names, r) <==> w.instances[i].status == Outcome(w.instances[i])
  {
    var es := w.instances;
    RunIsPointwise(s, PlanOf(w, refs).value);
    PlanOutcomes(w, refs, s, r.id);
    EntryTargetExists(w, refs, s, i);
    assert KeyOf(es[i]) == InstanceKey(r.period, names[r.templateId]);
    forall j, k | 0 <= j < k < |es| ensures KeyOf(es[j]) != KeyOf(es[k]) {
      assert TargetOf(refs, es[j]) != TargetOf(refs, es[k]);
    }
    ExpectedOfDistinct(es, i);
  }

  lemma {:induction false} RowOfNoEntry(w: WorkflowSpec, refs: Refs, s: map<string, Live>, names: map<string, string>,
                                        r: LiveRow)
    requires Wired(w, refs, s) && Run(s, PlanOf(w, refs).value).Some?
    requires RowShows(r, names, refs, Run(s, PlanOf(w, refs).value).value)
    requires forall i :: 0 <= i < |w.instances| ==> TargetOf(refs, w.instances[i]) != r.id
    ensures RowAgrees(w.instances, names, r)
  {
    RunIsPointwise(s, PlanOf(w, refs).value);
    PlanOutcomes(w, refs, s, r.id);
    ExpectedOfUnlisted(w.instances, InstanceKey(r.period, names[r.templateId]));
  }

  /** After a run that went through, the check accepts the rows exactly when
      every listed entry that is shown declares the status its route leads to:
      pending approval for a submit, completed for an approval. */
  lemma {:induction false} SeededWorldPassesCheck(w: WorkflowSpec, refs: Refs, s: map<string, Live>,
                                                  names: map<string, string>, rows: seq<LiveRow>)
    requires Seeded(w, refs, s) && Run(s, PlanOf(w, refs).value).Some?
    requires RowsShow(rows, names, refs, Run(s, PlanOf(w, refs).value).value)
    ensures (forall k :: 0 <= k < |rows| ==> RowAgrees(w.instances, names, rows[k]))
            <==> forall i, k ::
                   0 <= i < |w.instances| && 0 <= k < |rows| && TargetOf(refs, w.instances[i]) == rows[k].id
                   ==> w.instances[i].status == Outcome(w.instances[i])
  {
    SeededIsWired(w, refs, s);
    forall i, k | 0 <= i < |w.instances| && 0 <= k < |rows| && TargetOf(refs, w.instances[i]) == rows[k].id
      ensures RowAgrees(w.instances, names, rows[k]) <==> w.instances[i].status == Outcome(w.instances[i])
    {
      RowOfEntry(w, refs, s, names, rows[k], i);
    }
    forall k | 0 <= k < |rows| && forall i :: 0 <= i < |w.instances| ==> TargetOf(refs, w.instances[i]) != rows[k].id
      ensures RowAgrees(w.instances, names, rows[k])
    {
      RowOfNoEntry(w, refs, s, names, rows[k]);
    }
  }
}
