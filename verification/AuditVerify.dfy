/** The verifier of the audit chain: what Verify decides, what it reports, and
    what an accepted chain proves about the history behind its last hash. */
module AuditVerify {
  import opened AuditHash

  datatype Report = Report(entries: nat, preCutover: nat, firstVerifiable: int, lastVerified: int)

  datatype Fault = SequenceGap | PrevHashMismatch | NewerFormat | PreCutoverAfterVerified | HashMismatch

  datatype Verdict = Accepted | Broken(index: nat, fault: Fault)

  /** The hash the entry after the first `n` must link to. */
  function HeadAfter(entries: seq<Entry>, n: nat): string
    requires n <= |entries|
  {
    if n == 0 then Genesis() else entries[n - 1].hash
  }

  function Head(entries: seq<Entry>): string { HeadAfter(entries, |entries|) }

  ghost predicate Linked(entries: seq<Entry>, i: nat)
    requires i < |entries|
  {
    entries[i].seqNo == i + 1 && entries[i].prevHash == HeadAfter(entries, i)
  }

  ghost predicate Recomputes(h: Primitives, later: Later, e: Entry)
  {
    e.hashVersion <= Current(later) && !IsPreCutover(e.hashVersion) && ComputeHash(h, later, e) == e.hash
  }

  /** What Verify decides: an unbroken chain from genesis in which only a
      leading run of pre-cut-over rows is excused from recomputation. */
  ghost predicate Sound(h: Primitives, later: Later, entries: seq<Entry>)
  {
    exists k: nat :: k <= |entries| && SoundFrom(h, later, entries, k)
  }

  /** Sound, with exactly the first `k` rows pre-cut-over. */
  ghost predicate SoundFrom(h: Primitives, later: Later, entries: seq<Entry>, k: nat)
  {
    && (forall i :: 0 <= i < |entries| ==> Linked(entries, i))
    && (forall i :: 0 <= i < |entries| && i < k ==> IsPreCutover(entries[i].hashVersion))
    && (forall i :: k <= i < |entries| ==> Recomputes(h, later, entries[i]))
  }

  /** The report of a sound chain of `n` rows whose first `k` are pre-cut-over. */
  function ReportOf(n: nat, k: nat): Report
  {
    Report(n, k, if k < n then k + 1 else 0, if k < n then n else 0)
  }

  /** The check that fails first at row `i`, given how many pre-cut-over rows lead. */
  ghost predicate FailsWith(h: Primitives, later: Later, entries: seq<Entry>, i: nat, k: nat, fault: Fault)
    requires i < |entries|
  {
    var e := entries[i];
    if e.seqNo != i + 1 then fault == SequenceGap
    else if e.prevHash != HeadAfter(entries, i) then fault == PrevHashMismatch
    else if e.hashVersion > Current(later) then fault == NewerFormat
    else if IsPreCutover(e.hashVersion) then k < i && fault == PreCutoverAfterVerified
    else ComputeHash(h, later, e) != e.hash && fault == HashMismatch
  }

  method Verify(h: Primitives, later: Later, entries: seq<Entry>) returns (rep: Report, verdict: Verdict)
    ensures verdict.Accepted? <==> Sound(h, later, entries)
    ensures verdict.Accepted? ==> rep.preCutover <= |entries| && SoundFrom(h, later, entries, rep.preCutover)
                                  && rep == ReportOf(|entries|, rep.preCutover)
    ensures verdict.Broken? ==>
              && verdict.index < |entries| && rep.preCutover <= verdict.index
              && SoundFrom(h, later, entries[..verdict.index], rep.preCutover)
              && rep == ReportOf(verdict.index, rep.preCutover).(entries := |entries|)
              && FailsWith(h, later, entries, verdict.index, rep.preCutover, verdict.fault)
  {
    rep := Report(|entries|, 0, 0, 0);
    var prev := Genesis();
    for i := 0 to |entries|
      invariant prev == HeadAfter(entries, i)
      invariant rep.preCutover <= i && SoundFrom(h, later, entries[..i], rep.preCutover)
      invariant rep == ReportOf(i, rep.preCutover).(entries := |entries|)
    {
      var e := entries[i];
      ghost var k := rep.preCutover;
      assert entries[..i + 1] == entries[..i] + [e];
      if e.seqNo != i + 1 {
        BrokenIsUnsound(h, later, entries, i, k, SequenceGap);
        return rep, Broken(i, SequenceGap);
      }
      if e.prevHash != prev {
        BrokenIsUnsound(h, later, entries, i, k, PrevHashMismatch);
        return rep, Broken(i, PrevHashMismatch);
      }
      if e.hashVersion > Current(later) {
        BrokenIsUnsound(h, later, entries, i, k, NewerFormat);
        return rep, Broken(i, NewerFormat);
      } else if IsPreCutover(e.hashVersion) {
        if rep.firstVerifiable != 0 {
          BrokenIsUnsound(h, later, entries, i, k, PreCutoverAfterVerified);
          return rep, Broken(i, PreCutoverAfterVerified);
        }
        rep := rep.(preCutover := rep.preCutover + 1);
      } else {
        if ComputeHash(h, later, e) != e.hash {
          BrokenIsUnsound(h, later, entries, i, k, HashMismatch);
          return rep, Broken(i, HashMismatch);
        }
        if rep.firstVerifiable == 0 {
          rep := rep.(firstVerifiable := e.seqNo);
        }
        rep := rep.(lastVerified := e.seqNo);
      }
      SoundGrows(h, later, entries[..i], e, k);
      prev := e.hash;
    }
    assert entries[..|entries|] == entries;
    return rep, Accepted;
  }

  /** Verify with nothing forgiven. */
  ghost predicate Strict(h: Primitives, later: Later, entries: seq<Entry>)
  {
    SoundFrom(h, later, entries, 0)
  }

  method VerifyChain(h: Primitives, later: Later, entries: seq<Entry>) returns (ok: bool)
    ensures ok <==> Strict(h, later, entries)
  {
    var rep, verdict := Verify(h, later, entries);
    if verdict.Broken? {
      return false;
    }
    if rep.preCutover != 0 {
      assert IsPreCutover(entries[0].hashVersion);
    }
    return rep.preCutover == 0;
  }

  /** The report of an accepted chain names its excused rows and the first and the
      last row whose hash was recomputed. */
  lemma ReportNamesRows(h: Primitives, later: Later, entries: seq<Entry>, k: nat)
    requires k <= |entries| && SoundFrom(h, later, entries, k)
    ensures var rep := ReportOf(|entries|, k);
            && rep.entries == |entries|
            && (forall i :: 0 <= i < |entries| ==> (i < rep.preCutover <==> entries[i].hashVersion == 1))
            && (k < |entries| ==> rep.firstVerifiable == entries[k].seqNo
                                  && rep.lastVerified == entries[|entries| - 1].seqNo)
            && (k == |entries| ==> rep.firstVerifiable == rep.lastVerified == 0)
  {
    if k < |entries| {
      assert Linked(entries, k) && Linked(entries, |entries| - 1);
    }
    assert forall i :: k <= i < |entries| ==> Recomputes(h, later, entries[i]);
  }

  /** Row `i` next to the row before it: the next number, a link to the hash before,
      a contract this build knows, and a hash that recomputes unless the row is one of
      the leading rows of version 1. */
  ghost predicate RowHolds(h: Primitives, later: Later, entries: seq<Entry>, i: nat)
    requires i < |entries|
  {
    var e := entries[i];
    && e.seqNo == i + 1 && e.hashVersion <= 3 + |later|
    && (if i == 0 then |e.prevHash| == 64 && forall c :: c in e.prevHash ==> c == '0'
        else e.prevHash == entries[i - 1].hash)
    && (if e.hashVersion == 1 then i == 0 || entries[i - 1].hashVersion == 1
        else h.sha256Hex(Preimage(h, later, e)) == e.hash)
  }

  /** A chain is accepted if and only if every row holds next to the one before it. */
  lemma SoundIff(h: Primitives, later: Later, entries: seq<Entry>)
    ensures Sound(h, later, entries) <==> forall i :: 0 <= i < |entries| ==> RowHolds(h, later, entries, i)
  {
    if Sound(h, later, entries) {
      var k: nat :| k <= |entries| && SoundFrom(h, later, entries, k);
      forall i | 0 <= i < |entries| ensures RowHolds(h, later, entries, i) {
        assert Linked(entries, i);
      }
    }
    if forall i :: 0 <= i < |entries| ==> RowHolds(h, later, entries, i) {
      var k := LeadingRun(h, later, entries);
      forall i | 0 <= i < |entries| ensures Linked(entries, i) {
        assert RowHolds(h, later, entries, i);
        if i == 0 { ZerosAreGenesis(entries[0].prevHash); }
      }
      forall i | k <= i < |entries| ensures Recomputes(h, later, entries[i]) {
        assert RowHolds(h, later, entries, i);
      }
      assert SoundFrom(h, later, entries, k);
    }
  }

  lemma ZerosAreGenesis(hash: string)
    requires |hash| == 64 && forall c :: c in hash ==> c == '0'
    ensures hash == Genesis()
  {
    assert forall i :: 0 <= i < 64 ==> hash[i] in hash;
  }

  lemma {:induction false} LeadingRun(h: Primitives, later: Later, entries: seq<Entry>) returns (k: nat)
    requires forall i :: 0 <= i < |entries| ==> RowHolds(h, later, entries, i)
    ensures k <= |entries| && forall i :: 0 <= i < |entries| ==> (i < k <==> entries[i].hashVersion == 1)
  {
    k := 0;
    while k < |entries| && entries[k].hashVersion == 1
      invariant k <= |entries| && forall i :: 0 <= i < k ==> entries[i].hashVersion == 1
    {
      k := k + 1;
    }
    NoneAfter(h, later, entries, k);
  }

  lemma {:induction false} NoneAfter(h: Primitives, later: Later, entries: seq<Entry>, k: nat)
    requires forall i :: 0 <= i < |entries| ==> RowHolds(h, later, entries, i)
    requires k < |entries| ==> entries[k].hashVersion != 1
    ensures forall i :: k <= i < |entries| ==> entries[i].hashVersion != 1
    decreases |entries| - k
  {
    if k < |entries| {
      assert k + 1 < |entries| ==> RowHolds(h, later, entries, k + 1);
      NoneAfter(h, later, entries, k + 1);
    }
  }

  // ----- chains grow and shrink at the end only ---------------------------

  /** How one more row decides a sound chain. */
  ghost predicate Extends(h: Primitives, later: Later, entries: seq<Entry>, k: nat, e: Entry)
  {
    && e.seqNo == |entries| + 1 && e.prevHash == Head(entries)
    && (Recomputes(h, later, e) || (IsPreCutover(e.hashVersion) && k == |entries|))
  }

  lemma SoundGrows(h: Primitives, later: Later, entries: seq<Entry>, e: Entry, k: nat)
    requires k <= |entries| && SoundFrom(h, later, entries, k) && Extends(h, later, entries, k, e)
    ensures SoundFrom(h, later, entries + [e], if IsPreCutover(e.hashVersion) then k + 1 else k)
  {
    var longer := entries + [e];
    forall i | 0 <= i < |longer| ensures Linked(longer, i) {
      if i < |entries| { assert Linked(entries, i); }
    }
  }

  lemma PrefixIsSound(h: Primitives, later: Later, entries: seq<Entry>, k: nat, n: nat)
    requires SoundFrom(h, later, entries, k) && n <= |entries|
    ensures SoundFrom(h, later, entries[..n], k)
  {
    forall i | 0 <= i < n ensures Linked(entries[..n], i) {
      assert Linked(entries, i);
    }
  }

  /** The number of excused rows is a fact of the chain, not of the reader. */
  lemma LeadingRunIsUnique(h: Primitives, later: Later, entries: seq<Entry>, k: nat, m: nat)
    requires k <= |entries| && m <= |entries|
    requires SoundFrom(h, later, entries, k) && SoundFrom(h, later, entries, m)
    ensures k == m
  {
    assert k < m ==> IsPreCutover(entries[k].hashVersion) && Recomputes(h, later, entries[k]);
    assert m < k ==> IsPreCutover(entries[m].hashVersion) && Recomputes(h, later, entries[m]);
  }

  /** Accepting a chain one row longer is accepting the chain and that row. */
  lemma SoundStep(h: Primitives, later: Later, entries: seq<Entry>, e: Entry)
    ensures Sound(h, later, entries + [e])
            <==> exists k: nat :: k <= |entries| && SoundFrom(h, later, entries, k) && Extends(h, later, entries, k, e)
  {
    var longer := entries + [e];
    if Sound(h, later, longer) {
      var m: nat :| m <= |longer| && SoundFrom(h, later, longer, m);
      PrefixIsSound(h, later, longer, m, |entries|);
      assert longer[..|entries|] == entries;
      assert Linked(longer, |entries|);
      var k := if m > |entries| then |entries| else m;
      assert SoundFrom(h, later, entries, k) && Extends(h, later, entries, k, e);
    }
    if k: nat :| k <= |entries| && SoundFrom(h, later, entries, k) && Extends(h, later, entries, k, e) {
      SoundGrows(h, later, entries, e, k);
    }
  }

  lemma BrokenIsUnsound(h: Primitives, later: Later, entries: seq<Entry>, i: nat, k: nat, fault: Fault)
    requires i < |entries| && k <= i && SoundFrom(h, later, entries[..i], k)
    requires FailsWith(h, later, entries, i, k, fault)
    ensures !Sound(h, later, entries)
  {
    assert k < i ==> Recomputes(h, later, entries[..i][k]);
    forall m: nat | m <= |entries| ensures !SoundFrom(h, later, entries, m) {
      assert m <= i ==> !Linked(entries, i) || !Recomputes(h, later, entries[i]);
      assert i < m
        ==> !Linked(entries, i) || !IsPreCutover(entries[i].hashVersion) || !IsPreCutover(entries[k].hashVersion);
    }
  }

  /** A build with a newer contract gives the verdict of this one on every chain
      whose rows name a contract this one knows. */
  lemma NewerContractKeepsVerdict(h: Primitives, later: Later, newer: Entry -> seq<string>, entries: seq<Entry>, k: nat)
    requires forall i :: 0 <= i < |entries| ==> entries[i].hashVersion != 0 && entries[i].hashVersion <= Current(later)
    ensures SoundFrom(h, later + [newer], entries, k) <==> SoundFrom(h, later, entries, k)
    ensures Sound(h, later + [newer], entries) <==> Sound(h, later, entries)
  {
    forall i | 0 <= i < |entries|
      ensures Recomputes(h, later + [newer], entries[i]) <==> Recomputes(h, later, entries[i])
    {
      NewerContractKeepsRow(h, later, entries[i]);
      assert Fields(h, later + [newer], entries[i]) == Fields(h, later, entries[i]);
    }
    assert forall m: nat :: SoundFrom(h, later + [newer], entries, m) <==> SoundFrom(h, later, entries, m);
  }
}
