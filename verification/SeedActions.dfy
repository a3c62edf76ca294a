/** Planning one workflow's calls: a PUT per listed instance, then the uploads,
    the submits and the approvals, or an error and no plan at all. */
module SeedActions {
  import opened Outcomes
  import opened OracleWorld

  datatype Via = ViaPut | ViaSubmit | ViaApprove

  datatype Entry = Entry(period: string, task: string, status: Status, via: Via, assignee: string, notes: string,
                         taxData: map<string, real>, taxDataStatus: string)

  datatype Document = Document(period: string, task: string, fileName: string, documentType: string, newVersion: bool)

  datatype WorkflowSpec = WorkflowSpec(writer: string, approver: string, instances: seq<Entry>,
                                       documents: seq<Document>)

  datatype Refs = Refs(workflowId: string, instanceIds: map<string, string>, userIds: map<string, string>)

  datatype Body = Body(status: Status, assigneeId: Option<string>, notes: Option<string>, taxData: map<string, real>,
                       taxDataStatus: string)

  /** The calls, each with its actor and the instance it acts on. */
  datatype Action = Put(actor: string, target: string, body: Body)
                  | Upload(actor: string, target: string, workflowId: string, document: Document)
                  | Submit(actor: string, target: string)
                  | Approve(actor: string, target: string)

  datatype PlanError = NoWorkflowId | NoInstance(period: string, task: string) | NoAssignee(user: string) | NoActor

  function InstanceKey(period: string, task: string): string { period + "|" + task }

  /** The id of a key, "" when it has none. */
  function IdOf(ids: map<string, string>, key: string): string { if key in ids then ids[key] else "" }

  function TargetOf(refs: Refs, e: Entry): string { IdOf(refs.instanceIds, InstanceKey(e.period, e.task)) }

  /** The status the PUT carries: an approval status is reached by the actions only. */
  function PutStatus(e: Entry): Status { if e.via.ViaSubmit? || e.via.ViaApprove? then InProgress else e.status }

  function PutOf(w: WorkflowSpec, refs: Refs): Entry -> Result<Action, PlanError>
  {
    (e: Entry) =>
      if TargetOf(refs, e) == "" then Err(NoInstance(e.period, e.task))
      else if e.assignee != "" && IdOf(refs.userIds, e.assignee) == "" then Err(NoAssignee(e.assignee))
      else Ok(Put(w.writer, TargetOf(refs, e), BodyOf(refs, e)))
  }

  function BodyOf(refs: Refs, e: Entry): Body
  {
    Body(PutStatus(e), if e.assignee == "" then None else Some(IdOf(refs.userIds, e.assignee)),
         if e.notes == "" then None else Some(e.notes), e.taxData, if e.taxData == map[] then "" else e.taxDataStatus)
  }

  function UploadOf(w: WorkflowSpec, refs: Refs): Document -> Result<Action, PlanError>
  {
    (d: Document) =>
      var id := IdOf(refs.instanceIds, InstanceKey(d.period, d.task));
      if id == "" then Err(NoInstance(d.period, d.task)) else Ok(Upload(w.writer, id, refs.workflowId, d))
  }

  function SubmitOf(w: WorkflowSpec, refs: Refs): Entry -> Result<Action, PlanError>
  {
    (e: Entry) =>
      if TargetOf(refs, e) == "" then Err(NoInstance(e.period, e.task))
      else if w.writer == "" then Err(NoActor) else Ok(Submit(w.writer, TargetOf(refs, e)))
  }

  function ApproveOf(w: WorkflowSpec, refs: Refs): Entry -> Result<Action, PlanError>
  {
    (e: Entry) =>
      if TargetOf(refs, e) == "" then Err(NoInstance(e.period, e.task))
      else if w.approver == "" then Err(NoActor) else Ok(Approve(w.approver, TargetOf(refs, e)))
  }

  predicate Submits(e: Entry) { e.via.ViaSubmit? || e.via.ViaApprove? }

  predicate Approves(e: Entry) { e.via.ViaApprove? }

  function Keep<X>(xs: seq<X>, p: X -> bool): seq<X>
  {
    if xs == [] then [] else Keep(xs[..|xs| - 1], p) + (if p(xs[|xs| - 1]) then [xs[|xs| - 1]] else [])
  }

  /** One call per item, or the error of the first item that has one. */
  function Collect<X>(xs: seq<X>, f: X -> Result<Action, PlanError>): Result<seq<Action>, PlanError>
  {
    if xs == [] then Ok([])
    else
      var init := Collect(xs[..|xs| - 1], f);
      if init.Err? then init
      else
        var last := f(xs[|xs| - 1]);
        if last.Err? then Err(last.error) else Ok(init.value + [last.value])
  }

  /** The calls come out item by item, the error is that of the first item in error. */
  lemma {:induction false} CollectMeaning<X>(xs: seq<X>, f: X -> Result<Action, PlanError>)
    ensures var r := Collect(xs, f);
            && (r.Ok? <==> forall i :: 0 <= i < |xs| ==> f(xs[i]).Ok?)
            && (r.Ok? ==> |r.value| == |xs| && forall i :: 0 <= i < |xs| ==> f(xs[i]) == Ok(r.value[i]))
            && (r.Err? ==>
                  exists i :: && 0 <= i < |xs| && f(xs[i]) == Err(r.error)
                              && forall j :: 0 <= j < i ==> f(xs[j]).Ok?)
  {
    if xs != [] {
      var init := xs[..|xs| - 1];
      CollectMeaning(init, f);
      assert forall i :: 0 <= i < |init| ==> init[i] == xs[i];
      if Collect(init, f).Err? {
        var i :| && 0 <= i < |init| && f(init[i]) == Err(Collect(init, f).error)
                 && forall j :: 0 <= j < i ==> f(init[j]).Ok?;
        assert f(xs[i]) == Err(Collect(xs, f).error) && forall j :: 0 <= j < i ==> f(xs[j]) == f(init[j]);
      }
    }
  }

  function AndThen(a: Result<seq<Action>, PlanError>, b: Result<seq<Action>, PlanError>): Result<seq<Action>, PlanError>
  {
    if a.Err? then a else if b.Err? then b else Ok(a.value + b.value)
  }

  /** The four phases, each in the data set's order. */
  function PlanOf(w: WorkflowSpec, refs: Refs): Result<seq<Action>, PlanError>
  {
    if refs.workflowId == "" then Err(NoWorkflowId)
    else
      AndThen(AndThen(AndThen(Collect(w.instances, PutOf(w, refs)), Collect(w.documents, UploadOf(w, refs))),
                      Collect(Keep(w.instances, Submits), SubmitOf(w, refs))),
              Collect(Keep(w.instances, Approves), ApproveOf(w, refs)))
  }

  method PlanInstancePut(w: WorkflowSpec, e: Entry, refs: Refs) returns (r: Result<Action, PlanError>)
    ensures r == PutOf(w, refs)(e)
  {
    var key := InstanceKey(e.period, e.task);
    if key !in refs.instanceIds || refs.instanceIds[key] == "" {
      return Err(NoInstance(e.period, e.task));
    }
    var status := e.status;
    if e.via == ViaSubmit || e.via == ViaApprove {
      status := InProgress;
    }
    var body := Body(status, None, None, map[], "");
    if e.assignee != "" {
      if e.assignee !in refs.userIds || refs.userIds[e.assignee] == "" {
        return Err(NoAssignee(e.assignee));
      }
      body := body.(assigneeId := Some(refs.userIds[e.assignee]));
    }
    if e.notes != "" {
      body := body.(notes := Some(e.notes));
    }
    if e.taxData != map[] {
      body := body.(taxData := e.taxData, taxDataStatus := e.taxDataStatus);
    }
    return Ok(Put(w.writer, refs.instanceIds[key], body));
  }

  // The four loops, one phase each.

  method PlanPuts(w: WorkflowSpec, refs: Refs) returns (r: Result<seq<Action>, PlanError>)
    ensures r == Collect(w.instances, PutOf(w, refs))
  {
    var actions: seq<Action> := [];
    for i := 0 to |w.instances|
      invariant Collect(w.instances[..i], PutOf(w, refs)) == Ok(actions)
    {
      CollectStep(w.instances, i, PutOf(w, refs));
      var a := PlanInstancePut(w, w.instances[i], refs);
      if a.Err? {
        ErrorStays(w.instances, i + 1, PutOf(w, refs));
        return Err(a.error);
      }
      actions := actions + [a.value];
    }
    assert w.instances[..|w.instances|] == w.instances;
    return Ok(actions);
  }

  method PlanUploads(w: WorkflowSpec, refs: Refs) returns (r: Result<seq<Action>, PlanError>)
    ensures r == Collect(w.documents, UploadOf(w, refs))
  {
    var actions: seq<Action> := [];
    for i := 0 to |w.documents|
      invariant Collect(w.documents[..i], UploadOf(w, refs)) == Ok(actions)
    {
      CollectStep(w.documents, i, UploadOf(w, refs));
      var a := UploadOf(w, refs)(w.documents[i]);
      if a.Err? {
        ErrorStays(w.documents, i + 1, UploadOf(w, refs));
        return Err(a.error);
      }
      actions := actions + [a.value];
    }
    assert w.documents[..|w.documents|] == w.documents;
    return Ok(actions);
  }

  method PlanSubmits(w: WorkflowSpec, refs: Refs) returns (r: Result<seq<Action>, PlanError>)
    ensures r == Collect(Keep(w.instances, Submits), SubmitOf(w, refs))
  {
    var actions: seq<Action> := [];
    for i := 0 to |w.instances|
      invariant Collect(Keep(w.instances[..i], Submits), SubmitOf(w, refs)) == Ok(actions)
    {
      KeptStep(w.instances, i, Submits, SubmitOf(w, refs));
      if !w.instances[i].via.ViaSubmit? && !w.instances[i].via.ViaApprove? {
        continue;
      }
      var a := SubmitOf(w, refs)(w.instances[i]);
      if a.Err? {
        KeptErrorStays(w.instances, i + 1, Submits, SubmitOf(w, refs));
        return Err(a.error);
      }
      actions := actions + [a.value];
    }
    assert w.instances[..|w.instances|] == w.instances;
    return Ok(actions);
  }

  method PlanApprovals(w: WorkflowSpec, refs: Refs) returns (r: Result<seq<Action>, PlanError>)
    ensures r == Collect(Keep(w.instances, Approves), ApproveOf(w, refs))
  {
    var actions: seq<Action> := [];
    for i := 0 to |w.instances|
      invariant Collect(Keep(w.instances[..i], Approves), ApproveOf(w, refs)) == Ok(actions)
    {
      KeptStep(w.instances, i, Approves, ApproveOf(w, refs));
      if !w.instances[i].via.ViaApprove? {
        continue;
      }
      var a := ApproveOf(w, refs)(w.instances[i]);
      if a.Err? {
        KeptErrorStays(w.instances, i + 1, Approves, ApproveOf(w, refs));
        return Err(a.error);
      }
      actions := actions + [a.value];
    }
    assert w.instances[..|w.instances|] == w.instances;
    return Ok(actions);
  }

  method PlanWorkflowActions(w: WorkflowSpec, refs: Refs) returns (r: Result<seq<Action>, PlanError>)
    ensures r == PlanOf(w, refs)
  {
    if refs.workflowId == "" {
      return Err(NoWorkflowId);
    }
    var puts := PlanPuts(w, refs);
    if puts.Err? { return puts; }
    var uploads := PlanUploads(w, refs);
    if uploads.Err? { return uploads; }
    var submits := PlanSubmits(w, refs);
    if submits.Err? { return submits; }
    var approvals := PlanApprovals(w, refs);
    if approvals.Err? { return approvals; }
    return Ok(puts.value + uploads.value + submits.value + approvals.value);
  }

  lemma CollectStep<X>(xs: seq<X>, i: nat, f: X -> Result<Action, PlanError>)
    requires i < |xs|
    ensures Collect(xs[..i + 1], f)
            == if Collect(xs[..i], f).Err? then Collect(xs[..i], f)
               else if f(xs[i]).Err? then Err(f(xs[i]).error) else Ok(Collect(xs[..i], f).value + [f(xs[i]).value])
  {
    assert xs[..i + 1] == xs[..i] + [xs[i]];
  }

  /** An error stays the first error however many items follow. */
  lemma {:induction false} ErrorStays<X>(xs: seq<X>, n: nat, f: X -> Result<Action, PlanError>)
    requires n <= |xs| && Collect(xs[..n], f).Err?
    ensures Collect(xs, f) == Collect(xs[..n], f)
    decreases |xs| - n
  {
    if n < |xs| {
      CollectStep(xs, n, f);
      ErrorStays(xs, n + 1, f);
    } else {
      assert xs[..n] == xs;
    }
  }

  lemma KeepStep<X>(xs: seq<X>, i: nat, p: X -> bool)
    requires i < |xs|
    ensures Keep(xs[..i + 1], p) == Keep(xs[..i], p) + (if p(xs[i]) then [xs[i]] else [])
  {
    assert xs[..i + 1][..i] == xs[..i];
  }

  lemma KeptStep<X>(xs: seq<X>, i: nat, p: X -> bool, f: X -> Result<Action, PlanError>)
    requires i < |xs|
    ensures var c := Collect(Keep(xs[..i], p), f);
            Collect(Keep(xs[..i + 1], p), f)
            == if !p(xs[i]) || c.Err? then c
               else if f(xs[i]).Err? then Err(f(xs[i]).error) else Ok(c.value + [f(xs[i]).value])
  {
    KeepStep(xs, i, p);
    assert Keep(xs[..i], p) + [] == Keep(xs[..i], p);
  }

  lemma {:induction false} KeptErrorStays<X>(xs: seq<X>, n: nat, p: X -> bool, f: X -> Result<Action, PlanError>)
    requires n <= |xs| && Collect(Keep(xs[..n], p), f).Err?
    ensures Collect(Keep(xs, p), f) == Collect(Keep(xs[..n], p), f)
    decreases |xs| - n
  {
    if n < |xs| {
      KeptStep(xs, n, p, f);
      KeptErrorStays(xs, n + 1, p, f);
    } else {
      assert xs[..n] == xs;
    }
  }

  // ----- what a plan needs and says ---------------------------------------

  predicate HasId(ids: map<string, string>, key: string) { key in ids && ids[key] != "" }

  /** The entry's instance is known, and so is the assignee it names, if any. */
  predicate Addressable(refs: Refs, e: Entry)
  {
    HasId(refs.instanceIds, InstanceKey(e.period, e.task)) && (e.assignee != "" ==> HasId(refs.userIds, e.assignee))
  }

  /** What a PUT says of its entry: by the writer, on the entry's own instance, with
      the declared status only where no approval route leads there, and with the
      fields the entry has. */
  predicate Carries(w: WorkflowSpec, refs: Refs, e: Entry, a: Action)
  {
    && a.Put? && a.actor == w.writer && a.target != ""
    && (InstanceKey(e.period, e.task), a.target) in refs.instanceIds.Items
    && (if e.via.ViaPut? then a.body.status == e.status else a.body.status.InProgress?)
    && (a.body.assigneeId.Some? <==> e.assignee != "")
    && (a.body.assigneeId.Some? ==>
          a.body.assigneeId.value != "" && (e.assignee, a.body.assigneeId.value) in refs.userIds.Items)
    && (if a.body.notes.Some? then e.notes == a.body.notes.value && e.notes != "" else e.notes == "")
    && a.body.taxData == e.taxData && a.body.taxDataStatus == (if e.taxData == map[] then "" else e.taxDataStatus)
  }

  /** The first calls of a plan are its PUTs, entry by entry, and carry the entries. */
  lemma PutsCarryEntries(w: WorkflowSpec, refs: Refs, i: nat)
    requires PlanOf(w, refs).Ok? && i < |w.instances|
    ensures i < |PlanOf(w, refs).value| && Carries(w, refs, w.instances[i], PlanOf(w, refs).value[i])
  {
    CollectMeaning(w.instances, PutOf(w, refs));
    var puts := Collect(w.instances, PutOf(w, refs)).value;
    assert puts <= PlanOf(w, refs).value;
    assert PutOf(w, refs)(w.instances[i]) == Ok(puts[i]);
  }

  /** The call is on the instance of the pair. */
  predicate IsOn(refs: Refs, period: string, task: string, a: Action)
  {
    (period + "|" + task, a.target) in refs.instanceIds.Items && a.target != ""
  }

  /** Uploads, submits and approvals say what they are for: the document and its
      workflow, by the writer; the writer's submit; the approver's approval. */
  lemma OtherCallsCarryItems(w: WorkflowSpec, refs: Refs, d: Document, e: Entry)
    ensures UploadOf(w, refs)(d).Ok?
            ==> var a := UploadOf(w, refs)(d).value;
                a == Upload(w.writer, a.target, refs.workflowId, d) && IsOn(refs, d.period, d.task, a)
    ensures SubmitOf(w, refs)(e).Ok?
            ==> var a := SubmitOf(w, refs)(e).value;
                a == Submit(w.writer, a.target) && IsOn(refs, e.period, e.task, a) && a.actor != ""
    ensures ApproveOf(w, refs)(e).Ok?
            ==> var a := ApproveOf(w, refs)(e).value;
                a == Approve(w.approver, a.target) && IsOn(refs, e.period, e.task, a) && a.actor != ""
  {
  }

  /** A refusal names the pair that has no instance, or the assignee that has no id. */
  lemma RefusalsNameItems(w: WorkflowSpec, refs: Refs, d: Document, e: Entry)
    ensures var (r, found) := (PutOf(w, refs)(e), HasId(refs.instanceIds, e.period + "|" + e.task));
            && (!found ==> r == Err(NoInstance(e.period, e.task)))
            && (found && e.assignee != "" && !HasId(refs.userIds, e.assignee) ==> r == Err(NoAssignee(e.assignee)))
            && (!found ==> SubmitOf(w, refs)(e) == ApproveOf(w, refs)(e) == Err(NoInstance(e.period, e.task)))
            && (found ==> (w.writer == "" ==> SubmitOf(w, refs)(e) == Err(NoActor))
                          && (w.approver == "" ==> ApproveOf(w, refs)(e) == Err(NoActor)))
    ensures !HasId(refs.instanceIds, d.period + "|" + d.task)
            ==> UploadOf(w, refs)(d) == Err(NoInstance(d.period, d.task))
  {
  }

  lemma {:induction false} KeepMembers<X>(xs: seq<X>, p: X -> bool, x: X)
    ensures x in Keep(xs, p) <==> x in xs && p(x)
  {
    if xs != [] {
      KeepMembers(xs[..|xs| - 1], p, x);
      assert xs == xs[..|xs| - 1] + [xs[|xs| - 1]];
    }
  }

  lemma PutsOkIff(w: WorkflowSpec, refs: Refs)
    ensures Collect(w.instances, PutOf(w, refs)).Ok? <==> forall e :: e in w.instances ==> Addressable(refs, e)
  {
    CollectMeaning(w.instances, PutOf(w, refs));
    forall e ensures PutOf(w, refs)(e).Ok? <==> Addressable(refs, e) {
    }
  }

  lemma UploadsOkIff(w: WorkflowSpec, refs: Refs)
    ensures Collect(w.documents, UploadOf(w, refs)).Ok?
            <==> forall d :: d in w.documents ==> HasId(refs.instanceIds, InstanceKey(d.period, d.task))
  {
    CollectMeaning(w.documents, UploadOf(w, refs));
  }

  lemma {:induction false} ActionsOkIff(xs: seq<Entry>, p: Entry -> bool, refs: Refs, actor: string,
                                        f: Entry -> Result<Action, PlanError>)
    requires forall e :: e in xs ==> Addressable(refs, e)
    requires forall e :: f(e).Ok? <==> TargetOf(refs, e) != "" && actor != ""
    ensures Collect(Keep(xs, p), f).Ok? <==> ((exists e :: e in xs && p(e)) ==> actor != "")
  {
    var kept := Keep(xs, p);
    CollectMeaning(kept, f);
    forall e ensures e in kept <==> e in xs && p(e) {
      KeepMembers(xs, p, e);
    }
    forall i | 0 <= i < |kept| ensures kept[i] in xs && p(kept[i]) && (f(kept[i]).Ok? <==> actor != "") {
      assert kept[i] in kept;
    }
    if e :| e in xs && p(e) {
      assert e in kept;
    }
  }

  /** A workflow has a plan exactly when it and everything listed have ids and
      someone submits and approves what has to be submitted and approved. */
  lemma PlanOkIff(w: WorkflowSpec, refs: Refs)
    ensures PlanOf(w, refs).Ok? <==>
            && refs.workflowId != ""
            && (forall e :: e in w.instances ==> Addressable(refs, e))
            && (forall d :: d in w.documents ==> HasId(refs.instanceIds, InstanceKey(d.period, d.task)))
            && ((exists e :: e in w.instances && Submits(e)) ==> w.writer != "")
            && ((exists e :: e in w.instances && Approves(e)) ==> w.approver != "")
  {
    PutsOkIff(w, refs);
    UploadsOkIff(w, refs);
    if forall e :: e in w.instances ==> Addressable(refs, e) {
      ActionsOkIff(w.instances, Submits, refs, w.writer, SubmitOf(w, refs));
      ActionsOkIff(w.instances, Approves, refs, w.approver, ApproveOf(w, refs));
    }
  }
}
