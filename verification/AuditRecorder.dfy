/** The writer's side of the audit trail: one Record call on an open
    transaction, as the three statements the protocol interleaves. */
module AuditRecorder {
  import opened Outcomes
  import opened AuditHash
  import opened AuditProtocol

  datatype Requester = Requester(isUser: bool, id: string, credentialId: string, credentialKind: string)

  datatype Context = Context(tenantId: string, requester: Option<Requester>, requestId: string)

  /** The statement the database fails, if any. */
  datatype Statement = NoStatement | TheLock | TheHeadRead | TheInsert

  datatype RecordError = NoTenant | NoActor | EncodeDetails | StatementFailed(statement: Statement)

  const CREDENTIAL_SESSION := "session"
  const CREDENTIAL_API_TOKEN := "api_token"

  // ----- the gates on what may enter the envelope -------------------------

  method NormalizeRequestId(s: string) returns (id: Option<string>)
    ensures id.Some? <==> IdShaped(s)
    ensures id.Some? ==> CanonicalId(id.value) && id.value == Lowered(s)
    ensures id.Some? ==> |s| == 36 && s[8] == '-' && s[13] == '-' && s[18] == '-' && s[23] == '-'
    ensures CanonicalId(s) ==> id == Some(s)
  {
    if |s| != ID_LENGTH {
      return None;
    }
    for i := 0 to ID_LENGTH
      invariant forall j :: 0 <= j < i ==> if DashAt(j) then s[j] == '-' else IsHex(s[j])
    {
      if DashAt(i) {
        if s[i] != '-' { return None; }
      } else if !IsHex(s[i]) {
        return None;
      }
    }
    id := Some(Lowered(s));
    assert CanonicalId(s) ==> id.value == s;
  }

  /** Half a credential, or one of an unknown kind, is no credential. */
  function CredentialOf(r: Requester): (pair: (string, string))
    ensures pair.0 == "" <==> pair.1 == ""
    ensures pair.1 in {"", "session", "api_token"}
    ensures pair != ("", "") ==> pair == (r.credentialId, r.credentialKind)
    ensures r.credentialId != "" && r.credentialKind in {CREDENTIAL_SESSION, CREDENTIAL_API_TOKEN} ==> pair != ("", "")
  {
    if r.credentialId == "" || r.credentialKind == "" then ("", "")
    else if r.credentialKind != CREDENTIAL_SESSION && r.credentialKind != CREDENTIAL_API_TOKEN then ("", "")
    else (r.credentialId, r.credentialKind)
  }

  /** The CHECK constraints of the table on the columns a caller can influence. */
  predicate EnvelopeChecks(e: Entry)
  {
    && (e.requestId == "" || CanonicalId(e.requestId))
    && (e.credentialId == "" <==> e.credentialKind == "")
    && e.credentialKind in {"", CREDENTIAL_SESSION, CREDENTIAL_API_TOKEN}
  }

  // ----- the three statements ---------------------------------------------

  /** The head the next entry links to: the visible row with the highest seq. */
  method LatestOf(rows: seq<Entry>) returns (phase: Phase)
    ensures HeadAnswer(rows, phase)
  {
    if rows == [] {
      return HeadRead(Genesis(), 1);
    }
    var last := rows[0];
    for i := 1 to |rows|
      invariant last in rows && forall j :: 0 <= j < i ==> rows[j].seqNo <= last.seqNo
    {
      if rows[i].seqNo > last.seqNo { last := rows[i]; }
    }
    assert IsLatest(rows, last);
    return HeadRead(last.hash, last.seqNo + 1);
  }

  /** The entry of one call, given the head it links to. */
  method BuildEntry(h: Primitives, tx: Tx, ctx: Context, req: Requester, action: string,
                    resourceType: string, resourceId: string, details: Details, now: nat, eventId: string)
    returns (e: Entry)
    requires tx.phase.HeadRead?
    ensures BuiltFrom(h, tx, e) && EnvelopeChecks(e) && HashesCredential(e.hashVersion)
    ensures e.actorId == req.id && e.eventId == eventId && e.occurredAt <= now < e.occurredAt + NANOS_PER_TICK
    ensures (e.action, e.resourceType, e.resourceId) == (action, resourceType, resourceId)
    ensures e.details == if details.Absent? then Members([]) else details
    ensures (e.credentialId, e.credentialKind) == CredentialOf(req)
    ensures e.requestId == if IdShaped(ctx.requestId) then Lowered(ctx.requestId) else ""
  {
    var (credentialId, credentialKind) := CredentialOf(req);
    var requestId := NormalizeRequestId(ctx.requestId);
    e := Entry(eventId, tx.tenant, tx.phase.seqNo, req.id, action, resourceType, resourceId, Truncate(now),
               if requestId.Some? then requestId.value else "", credentialId, credentialKind,
               if details.Absent? then Members([]) else details, tx.phase.prevHash, "", CURRENT_HASH_VERSION);
    HashIgnoresItself(h, e, ComputeHash(h, DEPLOYED, e));
    e := e.(hash := ComputeHash(h, DEPLOYED, e));
  }

  /** Nothing was written: the same committed rows, the same uncommitted ones. */
  ghost predicate NoRowWritten(before: Database, after: Database)
  {
    && after.committed == before.committed && after.open.Keys == before.open.Keys
    && forall t :: t in after.open ==> after.open[t].rows == before.open[t].rows
  }

  class Postgres {
    var db: Database

    constructor ()
      ensures db == Database([], map[])
    {
      db := Database([], map[]);
    }

    /** `SELECT pg_advisory_xact_lock(...)`, at the moment it is granted. */
    method AcquireChainLock(h: Primitives, key: string -> int, id: nat)
      requires id in db.open && db.open[id].phase.Idle? && LockFree(key, db, id)
      modifies this
      ensures Next(h, key, UntilCommit, old(db), AcquireLock(id), db)
      ensures id in db.open && db.open[id].phase.Locked? && NoRowWritten(old(db), db)
    {
      db := db.(open := db.open[id := db.open[id].(phase := Locked, holdsLock := true)]);
    }

    /** `SELECT seq, hash ... ORDER BY seq DESC LIMIT 1`. */
    method ReadChainHead(h: Primitives, key: string -> int, id: nat)
      requires id in db.open && db.open[id].phase.Locked?
      modifies this
      ensures Next(h, key, UntilCommit, old(db), Step.ReadHead(id), db)
      ensures id in db.open && db.open[id].phase.HeadRead? && NoRowWritten(old(db), db)
    {
      var head := LatestOf(Visible(db, db.open[id]));
      db := db.(open := db.open[id := db.open[id].(phase := head)]);
    }

    /** `INSERT INTO audit_log ...`; the id columns keep UUIDs and no case. */
    method InsertRow(h: Primitives, key: string -> int, id: nat, e: Entry)
      requires id in db.open && BuiltFrom(h, db.open[id], e) && StorableIds(e)
      modifies this
      ensures Next(h, key, UntilCommit, old(db), Insert(id, e, WithLoweredIds(e)), db)
    {
      var rows := db.open[id].rows + [WithLoweredIds(e)];
      db := db.(open := db.open[id := db.open[id].(phase := Idle, rows := rows, holdsLock := true)]);
    }
  }

  predicate ActingUser(ctx: Context)
  {
    ctx.requester.Some? && ctx.requester.value.isUser && ctx.requester.value.id != ""
  }

  /** What stops a call before it touches the database. */
  function GateError(ctx: Context, details: Option<Details>): Option<RecordError>
  {
    if ctx.tenantId == "" then Some(NoTenant)
    else if !ActingUser(ctx) then Some(NoActor)
    else if details.None? then Some(EncodeDetails)
    else None
  }

  /** The ids of a call have the shape that the columns take. */
  predicate StorableCall(ctx: Context, req: Requester, resourceId: string, eventId: string)
  {
    && IdShaped(eventId) && IdShaped(ctx.tenantId) && IdShaped(req.id) && IdShaped(resourceId)
    && (CredentialOf(req).0 == "" || IdShaped(CredentialOf(req).0))
  }

  /** What the database answers, ids that are no UUIDs included: the head query
      takes the tenant's, the insert all of them. */
  function DatabaseError(failing: Statement, ctx: Context, req: Requester, resourceId: string, eventId: string)
    : Option<RecordError>
  {
    if failing.TheLock? then Some(StatementFailed(TheLock))
    else if failing.TheHeadRead? || !IdShaped(ctx.tenantId) then Some(StatementFailed(TheHeadRead))
    else if failing.TheInsert? || !StorableCall(ctx, req, resourceId, eventId) then Some(StatementFailed(TheInsert))
    else None
  }

  class Recorder {
    const store: Postgres

    constructor (store: Postgres)
      ensures this.store == store
    {
      this.store := store;
    }

    /** Appends one entry on the tenant's transaction `id`. A call that passes the
        gates and whose lock statement succeeds goes on when it is granted the lock.
        On success the database has taken exactly the protocol's lock, head-read and
        insert steps; on any failure no row was written. */
    method Record(h: Primitives, key: string -> int, id: nat, ctx: Context, action: string, resourceType: string,
                  resourceId: string, details: Option<Details>, now: nat, eventId: string, failing: Statement)
      returns (err: Option<RecordError>, ghost locked: Database, ghost read: Database, ghost entry: Entry)
      requires GateError(ctx, details).None? && !failing.TheLock? ==>
                 && id in store.db.open && store.db.open[id].phase.Idle? && store.db.open[id].tenant == ctx.tenantId
                 && LockFree(key, store.db, id)
      modifies store
      ensures err == (if GateError(ctx, details).Some? then GateError(ctx, details)
                      else DatabaseError(failing, ctx, ctx.requester.value, resourceId, eventId))
      ensures err.None? ==>
                && Next(h, key, UntilCommit, old(store.db), AcquireLock(id), locked)
                && Next(h, key, UntilCommit, locked, Step.ReadHead(id), read)
                && Next(h, key, UntilCommit, read, Insert(id, entry, WithLoweredIds(entry)), store.db)
                && EnvelopeChecks(entry) && (entry.eventId, entry.actorId) == (eventId, ctx.requester.value.id)
                && entry.details == (if details.value.Absent? then Members([]) else details.value)
                && (entry.credentialId, entry.credentialKind) == CredentialOf(ctx.requester.value)
                && entry.requestId == (if IdShaped(ctx.requestId) then Lowered(ctx.requestId) else "")
                && (entry.action, entry.resourceType, entry.resourceId) == (action, resourceType, resourceId)
                && entry.occurredAt <= now < entry.occurredAt + NANOS_PER_TICK
      ensures err.None? ==> ctx.tenantId != "" && ctx.requester.Some? && ctx.requester.value.isUser
                            && ctx.requester.value.id != "" && details.Some? && failing.NoStatement?
      ensures err.Some? ==> NoRowWritten(old(store.db), store.db)
      ensures GateError(ctx, details).Some? || failing.TheLock? ==> store.db == old(store.db)
    {
      locked, read, entry := store.db, store.db, *;
      if ctx.tenantId == "" {
        return Some(NoTenant), locked, read, entry;
      }
      if !ActingUser(ctx) {
        return Some(NoActor), locked, read, entry;
      }
      if details.None? {
        return Some(EncodeDetails), locked, read, entry;
      }
      if failing.TheLock? {
        return Some(StatementFailed(TheLock)), locked, read, entry;
      }
      store.AcquireChainLock(h, key, id);
      locked := store.db;
      if failing.TheHeadRead? || !IdShaped(ctx.tenantId) {
        return Some(StatementFailed(TheHeadRead)), locked, read, entry;
      }
      store.ReadChainHead(h, key, id);
      read := store.db;
      var e := BuildEntry(h, store.db.open[id], ctx, ctx.requester.value, action, resourceType, resourceId,
                          details.value, now, eventId);
      entry := e;
      if failing.TheInsert? || !StorableIds(e) {
        return Some(StatementFailed(TheInsert)), locked, read, entry;
      }
      store.InsertRow(h, key, id, e);
      return None, locked, read, entry;
    }
  }

  lemma HashIgnoresItself(h: Primitives, e: Entry, hash: string)
    ensures ComputeHash(h, DEPLOYED, e.(hash := hash)) == ComputeHash(h, DEPLOYED, e)
  {
  }
}
