/** Concurrent appends to the audit trail: any number of transactions, each
    making any number of Record calls for its tenant and then committing or
    rolling back, interleaved statement by statement over Postgres at read
    committed. */
module AuditProtocol {
  import opened Ordering
  import opened AuditHash
  import opened AuditVerify

  /** Where a transaction stands inside one Record call. */
  datatype Phase = Idle | Locked | HeadRead(prevHash: string, seqNo: int)

  /** An open transaction: its tenant, the statement it is at, whether it holds
      its advisory lock, and its own uncommitted rows. */
  datatype Tx = Tx(tenant: string, phase: Phase, holdsLock: bool, rows: seq<Entry>)

  datatype Database = Database(committed: seq<Entry>, open: map<nat, Tx>)

  /** How long `pg_advisory_xact_lock` is held. The code takes the transaction
      scope; the statement scope is here to show what the scope buys. */
  datatype LockScope = UntilCommit | UntilInsert

  datatype Step =
    | Begin(id: nat, tenant: string)
    | AcquireLock(id: nat)
    | ReadHead(id: nat)
    | Insert(id: nat, written: Entry, row: Entry)
    | Commit(id: nat)
    | Rollback(id: nat)

  /** The rows of one tenant, in the order they reached the table. */
  function RowsOf(rows: seq<Entry>, tenant: string): seq<Entry>
  {
    if rows == [] then []
    else RowsOf(rows[..|rows| - 1], tenant) + Mine(rows[|rows| - 1], tenant)
  }

  function Mine(e: Entry, tenant: string): seq<Entry> { if e.tenantId == tenant then [e] else [] }

  /** What a statement of `tx` sees at read committed: committed rows and its own. */
  function Visible(db: Database, tx: Tx): seq<Entry> { RowsOf(db.committed, tx.tenant) + RowsOf(tx.rows, tx.tenant) }

  /** `ORDER BY seq DESC LIMIT 1` may answer `head`. */
  ghost predicate IsLatest(rows: seq<Entry>, head: Entry)
  {
    head in rows && forall r :: r in rows ==> r.seqNo <= head.seqNo
  }

  ghost predicate HeadAnswer(rows: seq<Entry>, phase: Phase)
  {
    phase.HeadRead? &&
    if rows == [] then phase == HeadRead(Genesis(), 1)
    else exists head :: IsLatest(rows, head) && phase == HeadRead(head.hash, head.seqNo + 1)
  }

  /** No other transaction holds the lock of this tenant's key; two tenants may share one. */
  ghost predicate LockFree(key: string -> int, db: Database, id: nat)
    requires id in db.open
  {
    forall other :: other in db.open && other != id && db.open[other].holdsLock
                    ==> key(db.open[other].tenant) != key(db.open[id].tenant)
  }

  /** The row Record builds from the head it read. */
  ghost predicate BuiltFrom(h: Primitives, tx: Tx, e: Entry)
  {
    && tx.phase.HeadRead?
    && e.tenantId == tx.tenant && e.seqNo == tx.phase.seqNo && e.prevHash == tx.phase.prevHash
    && e.hashVersion == CURRENT_HASH_VERSION && e.hash == ComputeHash(h, DEPLOYED, e)
    && e.occurredAt == Truncate(e.occurredAt)
  }

  ghost predicate Next(h: Primitives, key: string -> int, scope: LockScope, db: Database, step: Step, db': Database)
  {
    match step
    case Begin(id, tenant) =>
      id !in db.open && db' == db.(open := db.open[id := Tx(tenant, Idle, false, [])])
    case AcquireLock(id) =>
      && id in db.open && db.open[id].phase.Idle? && LockFree(key, db, id)
      && db' == db.(open := db.open[id := db.open[id].(phase := Locked, holdsLock := true)])
    case ReadHead(id) =>
      && id in db.open && db.open[id].phase.Locked?
      && exists phase :: HeadAnswer(Visible(db, db.open[id]), phase)
                         && db' == db.(open := db.open[id := db.open[id].(phase := phase)])
    case Insert(id, written, row) =>
      && id in db.open && BuiltFrom(h, db.open[id], written) && StoredAs(written, row)
      && db' == db.(open := db.open[id := db.open[id].(phase := Idle, rows := db.open[id].rows + [row],
                                                       holdsLock := scope.UntilCommit?)])
    case Commit(id) =>
      && id in db.open && db.open[id].phase.Idle?
      && db' == Database(db.committed + db.open[id].rows, db.open - {id})
    case Rollback(id) =>
      id in db.open && db' == db.(open := db.open - {id})
  }

  /** The table as a run finds it: no transaction open, and of each tenant a chain
      that is accepted with its first `excused` rows pre-cut-over. */
  ghost predicate Initial(h: Primitives, excused: string -> nat, db: Database)
  {
    db.open == map[] && forall tenant :: ChainOk(h, RowsOf(db.committed, tenant), excused(tenant))
  }

  ghost predicate ChainOk(h: Primitives, rows: seq<Entry>, k: nat) { k <= |rows| && SoundFrom(h, DEPLOYED, rows, k) }

  function NoneExcused(): string -> nat { _ => 0 }

  /** An empty table is one. */
  lemma EmptyIsInitial(h: Primitives)
    ensures Initial(h, NoneExcused(), Database([], map[]))
  {
  }

  /** Every id that is written is in the lower case in which it comes back. */
  ghost predicate InLowerCase(steps: seq<Step>)
  {
    forall i :: 0 <= i < |steps| && steps[i].Insert? ==> CanonicalIds(steps[i].written)
  }

  /** A run: a state, a step, a state, and so on. */
  ghost predicate Run(h: Primitives, key: string -> int, scope: LockScope, excused: string -> nat,
                      states: seq<Database>, steps: seq<Step>)
  {
    && |states| == |steps| + 1 && Initial(h, excused, states[0])
    && forall i :: 0 <= i < |steps| ==> Next(h, key, scope, states[i], steps[i], states[i + 1])
  }

  // ----- the invariant ----------------------------------------------------

  ghost predicate OwnRows(tx: Tx) { forall i :: 0 <= i < |tx.rows| ==> tx.rows[i].tenantId == tx.tenant }

  /** One open transaction continues the committed chain of its tenant. */
  ghost predicate TxOk(h: Primitives, excused: string -> nat, db: Database, tx: Tx)
  {
    var view := RowsOf(db.committed, tx.tenant) + tx.rows;
    && OwnRows(tx)
    && (tx.rows != [] || !tx.phase.Idle? ==> tx.holdsLock)
    && ChainOk(h, view, excused(tx.tenant))
    && (tx.phase.HeadRead? ==> tx.phase == HeadRead(Head(view), |view| + 1))
  }

  ghost predicate Exclusive(key: string -> int, open: map<nat, Tx>)
  {
    forall i, j :: i in open && j in open && i != j && open[i].holdsLock && open[j].holdsLock
                   ==> key(open[i].tenant) != key(open[j].tenant)
  }

  ghost predicate Inv(h: Primitives, key: string -> int, excused: string -> nat, db: Database)
  {
    && (forall tenant :: ChainOk(h, RowsOf(db.committed, tenant), excused(tenant)))
    && Exclusive(key, db.open)
    && (forall id :: id in db.open ==> TxOk(h, excused, db, db.open[id]))
  }

  lemma {:induction false} LastOfRows(rows: seq<Entry>, other: string)
    requires rows != []
    ensures RowsOf(rows, other) == RowsOf(rows[..|rows| - 1], other) + Mine(rows[|rows| - 1], other)
  {
  }

  lemma {:induction false} RowsOfOwn(rows: seq<Entry>, tenant: string, other: string)
    requires forall i :: 0 <= i < |rows| ==> rows[i].tenantId == tenant
    ensures RowsOf(rows, other) == if other == tenant then rows else []
  {
    if rows != [] {
      var (init, last) := (rows[..|rows| - 1], rows[|rows| - 1]);
      RowsOfOwn(init, tenant, other);
      assert Mine(last, other) == if other == tenant then [last] else [];
      LastOfRows(rows, other);
      InitAndLast(rows);
    }
  }

  lemma Assoc(a: seq<Entry>, b: seq<Entry>, c: seq<Entry>)
    ensures (a + b) + c == a + (b + c)
  {
  }

  lemma {:induction false} RowsOfConcat(a: seq<Entry>, b: seq<Entry>, tenant: string)
    ensures RowsOf(a + b, tenant) == RowsOf(a, tenant) + RowsOf(b, tenant)
  {
    if b == [] {
      assert a + b == a;
      assert RowsOf(a, tenant) + [] == RowsOf(a, tenant);
    } else {
      var (init, last) := (b[..|b| - 1], b[|b| - 1]);
      RowsOfConcat(a, init, tenant);
      assert (a + b)[..|a + b| - 1] == a + init && (a + b)[|a + b| - 1] == last;
      Assoc(RowsOf(a, tenant), RowsOf(init, tenant), Mine(last, tenant));
    }
  }

  /** The latest row of an unbroken chain is its last one. */
  lemma LatestIsLast(h: Primitives, rows: seq<Entry>, k: nat, phase: Phase)
    requires SoundFrom(h, DEPLOYED, rows, k) && HeadAnswer(rows, phase)
    ensures phase == HeadRead(Head(rows), |rows| + 1)
  {
    if rows != [] {
      var head :| IsLatest(rows, head) && phase == HeadRead(head.hash, head.seqNo + 1);
      ChainIsNumbered(h, rows, k);
      NumberedLatestIsLast(rows, head);
    }
  }

  lemma NumberedLatestIsLast(rows: seq<Entry>, head: Entry)
    requires rows != [] && IsLatest(rows, head) && forall i :: 0 <= i < |rows| ==> rows[i].seqNo == i + 1
    ensures head == rows[|rows| - 1] && head.seqNo == |rows|
  {
    var i :| 0 <= i < |rows| && rows[i] == head;
    assert rows[|rows| - 1] in rows;
  }

  lemma InsertKeepsTx(h: Primitives, excused: string -> nat, db: Database, tx: Tx, written: Entry, row: Entry)
    requires TxOk(h, excused, db, tx) && BuiltFrom(h, tx, written) && StoredAs(written, row) && CanonicalIds(written)
    ensures TxOk(h, excused, db, tx.(phase := Idle, rows := tx.rows + [row], holdsLock := true))
  {
    var view := RowsOf(db.committed, tx.tenant) + tx.rows;
    HashSurvivesStorage(h, written, row);
    CanonicalIdsStay(written);
    assert Recomputes(h, DEPLOYED, row);
    SoundGrows(h, DEPLOYED, view, row, excused(tx.tenant));
    assert view + [row] == RowsOf(db.committed, tx.tenant) + (tx.rows + [row]);
  }

  lemma {:induction false} CommitGrowsChain(h: Primitives, excused: string -> nat, db: Database, tx: Tx, tenant: string)
    requires TxOk(h, excused, db, tx) && ChainOk(h, RowsOf(db.committed, tenant), excused(tenant))
    ensures RowsOf(db.committed + tx.rows, tenant)
            == RowsOf(db.committed, tenant) + (if tenant == tx.tenant then tx.rows else [])
    ensures ChainOk(h, RowsOf(db.committed + tx.rows, tenant), excused(tenant))
  {
    RowsOfConcat(db.committed, tx.rows, tenant);
    RowsOfOwn(tx.rows, tx.tenant, tenant);
    assert RowsOf(db.committed, tenant) + [] == RowsOf(db.committed, tenant);
  }

  /** Another open transaction after the commit: of another tenant its view is what
      it was, of the same one it has written nothing. */
  lemma OtherStaysOk(h: Primitives, excused: string -> nat, db: Database, tx: Tx, t: Tx, db': Database)
    requires TxOk(h, excused, db, tx) && TxOk(h, excused, db, t)
    requires db'.committed == db.committed + tx.rows
    requires ChainOk(h, RowsOf(db'.committed, t.tenant), excused(t.tenant))
    requires RowsOf(db'.committed, t.tenant)
             == RowsOf(db.committed, t.tenant) + (if t.tenant == tx.tenant then tx.rows else [])
    requires t.tenant == tx.tenant ==> !(t.holdsLock && tx.holdsLock)
    ensures TxOk(h, excused, db', t)
  {
    if t.tenant == tx.tenant && tx.rows != [] {
      assert t.rows == [] && t.phase.Idle?;
      assert RowsOf(db'.committed, t.tenant) + t.rows == RowsOf(db'.committed, t.tenant);
    } else {
      assert RowsOf(db'.committed, t.tenant) == RowsOf(db.committed, t.tenant);
    }
  }

  lemma CommitKeepsInv(h: Primitives, key: string -> int, excused: string -> nat, db: Database, id: nat, db': Database)
    requires Inv(h, key, excused, db) && id in db.open
    requires db' == Database(db.committed + db.open[id].rows, db.open - {id})
    ensures Inv(h, key, excused, db')
  {
    var tx := db.open[id];
    assert TxOk(h, excused, db, tx);
    forall tenant ensures ChainOk(h, RowsOf(db'.committed, tenant), excused(tenant)) {
      CommitGrowsChain(h, excused, db, tx, tenant);
    }
    forall other | other in db'.open ensures TxOk(h, excused, db', db'.open[other]) {
      var t := db.open[other];
      assert TxOk(h, excused, db, t);
      CommitGrowsChain(h, excused, db, tx, t.tenant);
      OtherStaysOk(h, excused, db, tx, t, db');
    }
  }

  /** A step that touches one open transaction only. */
  lemma ReplaceTxKeepsInv(h: Primitives, key: string -> int, excused: string -> nat, db: Database, id: nat, tx: Tx)
    requires Inv(h, key, excused, db) && TxOk(h, excused, db, tx)
    requires tx.holdsLock ==> forall other :: other in db.open && other != id && db.open[other].holdsLock
                                              ==> key(db.open[other].tenant) != key(tx.tenant)
    ensures Inv(h, key, excused, db.(open := db.open[id := tx]))
  {
    var db' := db.(open := db.open[id := tx]);
    forall other | other in db'.open ensures TxOk(h, excused, db', db'.open[other]) {
      assert other != id ==> TxOk(h, excused, db, db.open[other]);
    }
  }

  lemma BeginKeepsInv(h: Primitives, key: string -> int, excused: string -> nat, db: Database, id: nat, tenant: string)
    requires Inv(h, key, excused, db)
    ensures Inv(h, key, excused, db.(open := db.open[id := Tx(tenant, Idle, false, [])]))
  {
    assert RowsOf(db.committed, tenant) + [] == RowsOf(db.committed, tenant);
    ReplaceTxKeepsInv(h, key, excused, db, id, Tx(tenant, Idle, false, []));
  }

  lemma ReadKeepsInv(h: Primitives, key: string -> int, excused: string -> nat, db: Database, id: nat, phase: Phase)
    requires Inv(h, key, excused, db) && id in db.open && db.open[id].phase.Locked?
    requires HeadAnswer(Visible(db, db.open[id]), phase)
    ensures Inv(h, key, excused, db.(open := db.open[id := db.open[id].(phase := phase)]))
  {
    var tx := db.open[id];
    assert TxOk(h, excused, db, tx);
    RowsOfOwn(tx.rows, tx.tenant, tx.tenant);
    LatestIsLast(h, Visible(db, tx), excused(tx.tenant), phase);
    ReplaceTxKeepsInv(h, key, excused, db, id, tx.(phase := phase));
  }

  lemma LockKeepsInv(h: Primitives, key: string -> int, excused: string -> nat, db: Database, id: nat)
    requires Inv(h, key, excused, db) && id in db.open && db.open[id].phase.Idle? && LockFree(key, db, id)
    ensures Inv(h, key, excused, db.(open := db.open[id := db.open[id].(phase := Locked, holdsLock := true)]))
  {
    assert TxOk(h, excused, db, db.open[id]);
    ReplaceTxKeepsInv(h, key, excused, db, id, db.open[id].(phase := Locked, holdsLock := true));
  }

  lemma InsertKeepsInv(h: Primitives, key: string -> int, excused: string -> nat, db: Database, id: nat, written: Entry,
                       row: Entry)
    requires Inv(h, key, excused, db) && id in db.open && BuiltFrom(h, db.open[id], written)
    requires StoredAs(written, row) && CanonicalIds(written)
    ensures Inv(h, key, excused, db.(open := db.open[id := db.open[id].(phase := Idle, rows := db.open[id].rows + [row],
                                                                        holdsLock := true)]))
  {
    InsertKeepsTx(h, excused, db, db.open[id], written, row);
    assert db.open[id].holdsLock by { assert TxOk(h, excused, db, db.open[id]); }
    ReplaceTxKeepsInv(h, key, excused, db, id,
                      db.open[id].(phase := Idle, rows := db.open[id].rows + [row], holdsLock := true));
  }

  lemma RollbackKeepsInv(h: Primitives, key: string -> int, excused: string -> nat, db: Database, id: nat)
    requires Inv(h, key, excused, db) && id in db.open
    ensures Inv(h, key, excused, db.(open := db.open - {id}))
  {
    var db' := db.(open := db.open - {id});
    forall other | other in db'.open ensures TxOk(h, excused, db', db'.open[other]) {
      assert TxOk(h, excused, db, db.open[other]);
    }
  }

  lemma StepKeepsInv(h: Primitives, key: string -> int, excused: string -> nat, db: Database, step: Step, db': Database)
    requires Inv(h, key, excused, db) && Next(h, key, UntilCommit, db, step, db')
    requires step.Insert? ==> CanonicalIds(step.written)
    ensures Inv(h, key, excused, db')
  {
    match step
    case Begin(id, tenant) =>
      BeginKeepsInv(h, key, excused, db, id, tenant);
    case AcquireLock(id) =>
      LockKeepsInv(h, key, excused, db, id);
    case ReadHead(id) =>
      ReadKeepsInv(h, key, excused, db, id, db'.open[id].phase);
    case Insert(id, written, row) =>
      InsertKeepsInv(h, key, excused, db, id, written, row);
    case Commit(id) =>
      CommitKeepsInv(h, key, excused, db, id, db');
    case Rollback(id) =>
      RollbackKeepsInv(h, key, excused, db, id);
  }

  lemma {:induction false} RunKeepsInv(h: Primitives, key: string -> int, excused: string -> nat, states: seq<Database>,
                                       steps: seq<Step>, n: nat)
    requires Run(h, key, UntilCommit, excused, states, steps) && InLowerCase(steps) && n <= |steps|
    ensures Inv(h, key, excused, states[n])
  {
    if n > 0 {
      RunKeepsInv(h, key, excused, states, steps, n - 1);
      StepKeepsInv(h, key, excused, states[n - 1], steps[n - 1], states[n]);
    }
  }

  // ----- what the invariant gives -----------------------------------------

  /** LoadChain: the tenant's rows, `ORDER BY seq ASC`. */
  ghost predicate LoadedChain(committed: seq<Entry>, tenant: string, chain: seq<Entry>)
  {
    && multiset(chain) == multiset(RowsOf(committed, tenant))
    && forall i, j :: 0 <= i < j < |chain| ==> chain[i].seqNo <= chain[j].seqNo
  }

  /** After every step of every interleaving, whatever LoadChain returns for a
      tenant is accepted with the rows excused that were at the start, and is
      numbered 1..n: no gap, no fork. With none excused it verifies strictly. */
  lemma EveryRunVerifies(h: Primitives, key: string -> int, excused: string -> nat, states: seq<Database>,
                         steps: seq<Step>, n: nat, tenant: string, chain: seq<Entry>)
    requires Run(h, key, UntilCommit, excused, states, steps) && InLowerCase(steps) && n <= |steps|
    requires LoadedChain(states[n].committed, tenant, chain)
    ensures ChainOk(h, chain, excused(tenant)) && Sound(h, DEPLOYED, chain)
    ensures excused(tenant) == 0 ==> Strict(h, DEPLOYED, chain)
    ensures forall i :: 0 <= i < |chain| ==> chain[i].seqNo == i + 1
  {
    RunKeepsInv(h, key, excused, states, steps, n);
    var rows := RowsOf(states[n].committed, tenant);
    SortingAChainIsIdentity(h, rows, excused(tenant), chain);
    ChainIsNumbered(h, chain, excused(tenant));
  }

  lemma ChainIsNumbered(h: Primitives, rows: seq<Entry>, k: nat)
    requires SoundFrom(h, DEPLOYED, rows, k)
    ensures forall i :: 0 <= i < |rows| ==> rows[i].seqNo == i + 1
    ensures Distinct(rows)
  {
    forall i | 0 <= i < |rows| ensures rows[i].seqNo == i + 1 {
      assert Linked(rows, i);
    }
  }

  predicate SeqLess(a: Entry, b: Entry) { a.seqNo < b.seqNo }

  lemma SortingAChainIsIdentity(h: Primitives, rows: seq<Entry>, k: nat, chain: seq<Entry>)
    requires SoundFrom(h, DEPLOYED, rows, k) && multiset(chain) == multiset(rows)
    requires forall i, j :: 0 <= i < j < |chain| ==> chain[i].seqNo <= chain[j].seqNo
    ensures chain == rows
  {
    ChainIsNumbered(h, rows, k);
    PermutationOfDistinct(chain, rows);
    forall i, j | 0 <= i < j < |chain| ensures chain[i].seqNo < chain[j].seqNo {
      assert chain[i] in Elements(rows) && chain[j] in Elements(rows);
      var m :| 0 <= m < |rows| && rows[m] == chain[i];
      var n :| 0 <= n < |rows| && rows[n] == chain[j];
    }
    IncreasingIsUnique(chain, rows, SeqLess);
  }

  /** History is append-only: a step either leaves a tenant's committed chain
      alone or, when it is that tenant's commit, adds the transaction's rows at
      the end. A rollback leaves no trace. */
  lemma CommittedOnlyGrows(h: Primitives, key: string -> int, excused: string -> nat, states: seq<Database>,
                           steps: seq<Step>, n: nat, tenant: string)
    requires Run(h, key, UntilCommit, excused, states, steps) && InLowerCase(steps) && n < |steps|
    ensures var (db, db', step) := (states[n], states[n + 1], steps[n]);
            RowsOf(db'.committed, tenant) == RowsOf(db.committed, tenant)
            + (if step.Commit? && db.open[step.id].tenant == tenant then db.open[step.id].rows else [])
  {
    RunKeepsInv(h, key, excused, states, steps, n);
    assert Next(h, key, UntilCommit, states[n], steps[n], states[n + 1]);
    StepGrowsCommitted(h, key, excused, states[n], steps[n], states[n + 1], tenant);
  }

  lemma {:induction false} StepGrowsCommitted(h: Primitives, key: string -> int, excused: string -> nat, db: Database,
                                              step: Step, db': Database, tenant: string)
    requires Inv(h, key, excused, db) && Next(h, key, UntilCommit, db, step, db')
    ensures RowsOf(db'.committed, tenant) == RowsOf(db.committed, tenant)
            + (if step.Commit? && db.open[step.id].tenant == tenant then db.open[step.id].rows else [])
  {
    if step.Commit? {
      var tx := db.open[step.id];
      assert OwnRows(tx) by { assert TxOk(h, excused, db, tx); }
      RowsOfConcat(db.committed, tx.rows, tenant);
      RowsOfOwn(tx.rows, tx.tenant, tenant);
    } else {
      assert db'.committed == db.committed;
      assert RowsOf(db.committed, tenant) + [] == RowsOf(db.committed, tenant);
    }
  }

  // ----- why the lock is held to commit -----------------------------------

  function FirstEntry(h: Primitives, eventId: string, tenant: string, actor: string, resource: string,
                      instant: nat): Entry
  {
    var e := Entry(eventId, tenant, 1, actor, "a", "r", resource, instant, "", "", "", Absent, Genesis(), "",
                   CURRENT_HASH_VERSION);
    e.(hash := ComputeHash(h, DEPLOYED, e))
  }

  /** What a transaction builds and stores on a tenant's empty chain. */
  ghost predicate IsFirst(h: Primitives, tenant: string, e: Entry)
  {
    BuiltFrom(h, Tx(tenant, HeadRead(Genesis(), 1), true, []), e) && StoredAs(e, e)
  }

  /** Two transactions of one tenant that each record once, the second between
      the first one's insert and its commit. */
  function ForkSteps(tenant: string, e: Entry, f: Entry): seq<Step>
  {
    [Begin(0, tenant), Begin(1, tenant), AcquireLock(0), ReadHead(0), Insert(0, e, e),
     AcquireLock(1), ReadHead(1), Insert(1, f, f), Commit(0), Commit(1)]
  }

  function ForkStates(tenant: string, e: Entry, f: Entry): seq<Database>
  {
    var idle := Tx(tenant, Idle, false, []);
    var locked := Tx(tenant, Locked, true, []);
    var read := Tx(tenant, HeadRead(Genesis(), 1), true, []);
    var doneE := Tx(tenant, Idle, false, [e]);
    var doneF := Tx(tenant, Idle, false, [f]);
    [Database([], map[]), Database([], map[0 := idle]), Database([], map[0 := idle, 1 := idle]),
     Database([], map[0 := locked, 1 := idle]), Database([], map[0 := read, 1 := idle]),
     Database([], map[0 := doneE, 1 := idle]), Database([], map[0 := doneE, 1 := locked]),
     Database([], map[0 := doneE, 1 := read]), Database([], map[0 := doneE, 1 := doneF]),
     Database([e], map[1 := doneF]), Database([e, f], map[])]
  }

  /** Dropping the lock at the insert instead of at the commit is enough to fork
      a chain: whatever the ids, some run commits two rows numbered 1, with event
      ids and instants of their own, and no verifier accepts. */
  lemma EarlyReleaseForksTheChain(h: Primitives, key: string -> int, tenant: string, first: string, second: string,
                                  actor: string, resource: string)
    returns (states: seq<Database>, steps: seq<Step>)
    requires CanonicalId(tenant) && CanonicalId(first) && CanonicalId(second) && first != second
    requires CanonicalId(actor) && CanonicalId(resource)
    ensures Run(h, key, UntilInsert, NoneExcused(), states, steps) && InLowerCase(steps)
    ensures var rows := states[|steps|].committed;
            |rows| == 2 && rows[0].seqNo == rows[1].seqNo == 1
            && rows[0].eventId != rows[1].eventId && rows[0].occurredAt != rows[1].occurredAt
    ensures forall chain :: LoadedChain(states[|steps|].committed, tenant, chain) ==> !Sound(h, DEPLOYED, chain)
  {
    var e := FirstEntry(h, first, tenant, actor, resource, 0);
    var f := FirstEntry(h, second, tenant, actor, resource, NANOS_PER_TICK);
    FirstEntryIsFirst(h, first, tenant, actor, resource, 0);
    FirstEntryIsFirst(h, second, tenant, actor, resource, NANOS_PER_TICK);
    states, steps := ForkStates(tenant, e, f), ForkSteps(tenant, e, f);
    ForkIsRun(h, key, tenant, e, f);
    forall chain | LoadedChain([e, f], tenant, chain) ensures !Sound(h, DEPLOYED, chain) {
      TwoFirstRowsAreUnsound(h, e, f, tenant, chain);
    }
  }

  lemma FirstEntryIsFirst(h: Primitives, eventId: string, tenant: string, actor: string, resource: string, instant: nat)
    requires CanonicalId(eventId) && CanonicalId(tenant) && CanonicalId(actor) && CanonicalId(resource)
    requires instant == Truncate(instant)
    ensures var e := FirstEntry(h, eventId, tenant, actor, resource, instant);
            IsFirst(h, tenant, e) && CanonicalIds(e) && e.eventId == eventId && e.tenantId == tenant
            && e.seqNo == 1 && e.occurredAt == instant
  {
    CanonicalIdsStay(FirstEntry(h, eventId, tenant, actor, resource, instant));
  }

  lemma TwoFirstRowsAreUnsound(h: Primitives, e: Entry, f: Entry, tenant: string, chain: seq<Entry>)
    requires e.tenantId == f.tenantId == tenant && e.seqNo == f.seqNo == 1
    requires LoadedChain([e, f], tenant, chain)
    ensures !Sound(h, DEPLOYED, chain)
  {
    RowsOfTwo(e, f, tenant);
    TwoInAnyOrder(chain, e, f);
    SecondRowIsNumberedTwo(h, chain);
  }

  lemma {:induction false} RowsOfTwo(e: Entry, f: Entry, tenant: string)
    requires e.tenantId == f.tenantId == tenant
    ensures RowsOf([e, f], tenant) == [e, f]
  {
    LastOfRows([e, f], tenant);
    LastOfRows([e], tenant);
    assert [e, f][..1] == [e] && [e][..0] == [];
  }

  lemma TwoInAnyOrder(chain: seq<Entry>, e: Entry, f: Entry)
    requires multiset(chain) == multiset([e, f])
    ensures |chain| == 2 && (chain[1] == e || chain[1] == f)
  {
    assert |multiset(chain)| == |multiset([e, f])|;
    assert chain[1] in multiset([e, f]);
  }

  lemma SecondRowIsNumberedTwo(h: Primitives, chain: seq<Entry>)
    requires |chain| == 2
    ensures Sound(h, DEPLOYED, chain) ==> chain[1].seqNo == 2
  {
    assert Linked(chain, 1) ==> chain[1].seqNo == 2;
  }

  lemma ForkIsRun(h: Primitives, key: string -> int, tenant: string, e: Entry, f: Entry)
    requires IsFirst(h, tenant, e) && IsFirst(h, tenant, f)
    ensures Run(h, key, UntilInsert, NoneExcused(), ForkStates(tenant, e, f), ForkSteps(tenant, e, f))
  {
    EmptyIsInitial(h);
    forall i | 0 <= i < |ForkSteps(tenant, e, f)|
      ensures Next(h, key, UntilInsert, ForkStates(tenant, e, f)[i], ForkSteps(tenant, e, f)[i],
                   ForkStates(tenant, e, f)[i + 1])
    {
      ForkStep(h, key, tenant, e, f, i);
    }
  }

  lemma ForkStep(h: Primitives, key: string -> int, tenant: string, e: Entry, f: Entry, i: nat)
    requires i < 10 && IsFirst(h, tenant, e) && IsFirst(h, tenant, f)
    ensures Next(h, key, UntilInsert, ForkStates(tenant, e, f)[i], ForkSteps(tenant, e, f)[i],
                 ForkStates(tenant, e, f)[i + 1])
  {
    if i < 3 {
      ForkOpens(h, key, tenant, e, f, i);
    } else if i == 3 || i == 6 {
      ForkRead(h, key, tenant, e, f, i);
    } else if i == 4 || i == 7 {
      ForkInsert(h, key, tenant, e, f, i);
    } else if i == 5 {
      ForkLocksAgain(h, key, tenant, e, f);
    } else {
      ForkCommits(h, key, tenant, e, f, i);
    }
  }

  lemma ForkOpens(h: Primitives, key: string -> int, tenant: string, e: Entry, f: Entry, i: nat)
    requires i < 3
    ensures Next(h, key, UntilInsert, ForkStates(tenant, e, f)[i], ForkSteps(tenant, e, f)[i],
                 ForkStates(tenant, e, f)[i + 1])
  {
  }

  /** The second lock is granted while the first transaction is still open. */
  lemma ForkLocksAgain(h: Primitives, key: string -> int, tenant: string, e: Entry, f: Entry)
    ensures Next(h, key, UntilInsert, ForkStates(tenant, e, f)[5], ForkSteps(tenant, e, f)[5],
                 ForkStates(tenant, e, f)[6])
  {
  }

  lemma ForkCommits(h: Primitives, key: string -> int, tenant: string, e: Entry, f: Entry, i: nat)
    requires 8 <= i < 10
    ensures Next(h, key, UntilInsert, ForkStates(tenant, e, f)[i], ForkSteps(tenant, e, f)[i],
                 ForkStates(tenant, e, f)[i + 1])
  {
  }

  lemma ForkRead(h: Primitives, key: string -> int, tenant: string, e: Entry, f: Entry, i: nat)
    requires i == 3 || i == 6
    ensures Next(h, key, UntilInsert, ForkStates(tenant, e, f)[i], ForkSteps(tenant, e, f)[i],
                 ForkStates(tenant, e, f)[i + 1])
  {
    var db, id := ForkStates(tenant, e, f)[i], if i == 3 then 0 else 1;
    assert ForkSteps(tenant, e, f)[i] == ReadHead(id);
    ReadsNothing(h, key, db, id);
  }

  lemma ReadsNothing(h: Primitives, key: string -> int, db: Database, id: nat)
    requires db.committed == [] && id in db.open && db.open[id].phase.Locked? && db.open[id].rows == []
    ensures Next(h, key, UntilInsert, db, ReadHead(id),
                 db.(open := db.open[id := db.open[id].(phase := HeadRead(Genesis(), 1))]))
  {
    assert Visible(db, db.open[id]) == [];
    assert HeadAnswer([], HeadRead(Genesis(), 1));
  }

  lemma ForkInsert(h: Primitives, key: string -> int, tenant: string, e: Entry, f: Entry, i: nat)
    requires (i == 4 || i == 7) && IsFirst(h, tenant, e) && IsFirst(h, tenant, f)
    ensures Next(h, key, UntilInsert, ForkStates(tenant, e, f)[i], ForkSteps(tenant, e, f)[i],
                 ForkStates(tenant, e, f)[i + 1])
  {
    var db, id := ForkStates(tenant, e, f)[i], if i == 4 then 0 else 1;
    var row := if i == 4 then e else f;
    assert ForkSteps(tenant, e, f)[i] == Insert(id, row, row);
    InsertsFirst(h, key, db, id, row);
  }

  lemma InsertsFirst(h: Primitives, key: string -> int, db: Database, id: nat, e: Entry)
    requires id in db.open && db.open[id].rows == [] && BuiltFrom(h, db.open[id], e) && StoredAs(e, e)
    ensures Next(h, key, UntilInsert, db, Insert(id, e, e),
                 db.(open := db.open[id := db.open[id].(phase := Idle, rows := [e], holdsLock := false)]))
  {
    assert db.open[id].rows + [e] == [e];
  }
}
