/** What a published chain head commits to. SHA-256 is not assumed injective:
    two histories with one head are the same history, or the proof points at
    two texts that break the hash. */
module AuditBinding {
  import opened Text
  import opened AuditHash
  import opened AuditEncoding
  import opened AuditVerify

  /** No hashed field of a row after the first `k` holds a newline. */
  ghost predicate NewlineFree(h: Primitives, entries: seq<Entry>, k: nat)
  {
    forall i :: k <= i < |entries| ==> AllFree(Fields(h, DEPLOYED, entries[i]), '\n')
  }

  /** Two rows tell the same: their place in the chain, who did what to what and
      when, to the microsecond, with which details, and, where it is hashed, under
      which credential. Instants and details are told apart as far as their texts
      are faithful. */
  ghost predicate SameRecord(h: Primitives, a: Entry, b: Entry)
  {
    && a.seqNo == b.seqNo && a.prevHash == b.prevHash && a.eventId == b.eventId
    && a.tenantId == b.tenantId && a.actorId == b.actorId && a.action == b.action
    && a.resourceType == b.resourceType && a.resourceId == b.resourceId && a.requestId == b.requestId
    && (HashesCredential(a.hashVersion) <==> HashesCredential(b.hashVersion))
    && (HashesCredential(a.hashVersion) ==> a.credentialKind == b.credentialKind && a.credentialId == b.credentialId)
    && (FaithfulText(h) && Readable(h, a.details) && Readable(h, b.details)
        ==> SameDetails(a.details, b.details) && a.occurredAt / 1000 == b.occurredAt / 1000)
  }

  /** Equal hashed content: what the rows tell, every field of the envelope, and the hash itself. */
  ghost predicate SameContent(h: Primitives, a: Entry, b: Entry)
  {
    SameRecord(h, a, b) && Fields(h, DEPLOYED, a) == Fields(h, DEPLOYED, b) && a.hash == b.hash
  }

  lemma SameFieldsTellTheSame(h: Primitives, a: Entry, b: Entry)
    requires Fields(h, DEPLOYED, a) == Fields(h, DEPLOYED, b)
    ensures SameRecord(h, a, b)
  {
    var fa, fb := Fields(h, DEPLOYED, a), Fields(h, DEPLOYED, b);
    assert |fa| == if HashesCredential(a.hashVersion) then 13 else 11;
    assert fa[0] == a.prevHash && fa[1] == a.eventId && fa[2] == a.tenantId && fa[4] == a.actorId;
    assert fa[5] == a.action && fa[6] == a.resourceType && fa[7] == a.resourceId && fa[9] == a.requestId;
    assert fa[3] == FormatInt(a.seqNo) && fb[3] == FormatInt(b.seqNo);
    FormatIntInjective(a.seqNo, b.seqNo);
    if HashesCredential(a.hashVersion) {
      assert fa[11] == a.credentialKind && fa[12] == a.credentialId;
    }
    if FaithfulText(h) && Readable(h, a.details) && Readable(h, b.details) {
      assert fa[8] == fb[8] && fa[10] == fb[10];
      SameInstant(h, a, b);
      HashedDetailsIff(h, a.details, b.details);
    }
  }

  lemma SameInstant(h: Primitives, a: Entry, b: Entry)
    requires FaithfulText(h) && BaseFields(h, a)[8] == BaseFields(h, b)[8]
    ensures a.occurredAt / 1000 == b.occurredAt / 1000
  {
    TruncateCutsMicroseconds(a.occurredAt);
    TruncateCutsMicroseconds(b.occurredAt);
  }

  /** Newline-free rows with one hashed text agree on every field, on whether the
      credential is covered, and so on their place in the chain and on what they tell. */
  lemma PreimageIsInjective(h: Primitives, a: Entry, b: Entry)
    requires AllFree(Fields(h, DEPLOYED, a), '\n') && AllFree(Fields(h, DEPLOYED, b), '\n')
    requires Preimage(h, DEPLOYED, a) == Preimage(h, DEPLOYED, b)
    ensures Fields(h, DEPLOYED, a) == Fields(h, DEPLOYED, b) && SameRecord(h, a, b)
  {
    JoinInjective(Fields(h, DEPLOYED, a), Fields(h, DEPLOYED, b), '\n');
    SameFieldsTellTheSame(h, a, b);
  }

  /** Rows `i` and `j` carry different texts of one hash. */
  ghost predicate Collision(h: Primitives, a: seq<Entry>, b: seq<Entry>, i: nat, j: nat)
  {
    && i < |a| && j < |b|
    && Preimage(h, DEPLOYED, a[i]) != Preimage(h, DEPLOYED, b[j])
    && ComputeHash(h, DEPLOYED, a[i]) == ComputeHash(h, DEPLOYED, b[j])
  }

  /** A text of this chain hashes to the sixty-four zeros an empty chain ends in. */
  ghost predicate GenesisPreimage(h: Primitives, entries: seq<Entry>)
  {
    entries != [] && ComputeHash(h, DEPLOYED, entries[|entries| - 1]) == Genesis()
  }

  /** The same length, and from position `k` on the same hashed content, down to
      the hash that row `k` links to. */
  ghost predicate SameFrom(h: Primitives, a: seq<Entry>, b: seq<Entry>, k: nat)
  {
    && |a| == |b| && k <= |a| && HeadAfter(a, k) == HeadAfter(b, k)
    && forall n :: k <= n < |a| ==> SameContent(h, a[n], b[n])
  }

  ghost predicate SameHistory(h: Primitives, a: seq<Entry>, b: seq<Entry>) { SameFrom(h, a, b, 0) }

  function Longer(k: nat, m: nat): nat { if k < m then m else k }

  /** Two accepted chains with one last hash, their first `k` and `m` rows excused
      and recomputable rows behind them. */
  ghost predicate OneHead(h: Primitives, a: seq<Entry>, k: nat, b: seq<Entry>, m: nat)
  {
    && k < |a| && m < |b| && SoundFrom(h, DEPLOYED, a, k) && SoundFrom(h, DEPLOYED, b, m)
    && NewlineFree(h, a, k) && NewlineFree(h, b, m) && Head(a) == Head(b)
  }

  /** The chains agree from the longer excused run on, or rows `i` and `j`, both
      behind the excused runs, are a collision. */
  ghost predicate Bound(h: Primitives, a: seq<Entry>, k: nat, b: seq<Entry>, m: nat, i: nat, j: nat)
  {
    SameFrom(h, a, b, Longer(k, m)) || (Collision(h, a, b, i, j) && k <= i && m <= j)
  }

  lemma LastRowsAgree(h: Primitives, a: seq<Entry>, k: nat, b: seq<Entry>, m: nat)
    requires OneHead(h, a, k, b, m)
    requires Preimage(h, DEPLOYED, a[|a| - 1]) == Preimage(h, DEPLOYED, b[|b| - 1])
    ensures |a| == |b| && SameContent(h, a[|a| - 1], b[|a| - 1])
    ensures Head(a[..|a| - 1]) == Head(b[..|a| - 1])
  {
    assert Linked(a, |a| - 1) && Linked(b, |b| - 1);
    PreimageIsInjective(h, a[|a| - 1], b[|b| - 1]);
  }

  lemma CollisionLifts(h: Primitives, a: seq<Entry>, b: seq<Entry>, k: nat, i: nat, j: nat)
    requires k <= |a| && k <= |b| && Collision(h, a[..k], b[..k], i, j)
    ensures Collision(h, a, b, i, j)
  {
    assert a[..k][i] == a[i] && b[..k][j] == b[j];
  }

  lemma LastRowRecomputes(h: Primitives, a: seq<Entry>, k: nat)
    requires k < |a| && SoundFrom(h, DEPLOYED, a, k)
    ensures ComputeHash(h, DEPLOYED, a[|a| - 1]) == Head(a)
  {
    assert Recomputes(h, DEPLOYED, a[|a| - 1]);
  }

  lemma SameHistoryGrows(h: Primitives, a: seq<Entry>, b: seq<Entry>, k: nat)
    requires |a| == |b| > 0 && k < |a| && SameContent(h, a[|a| - 1], b[|a| - 1])
    requires SameFrom(h, a[..|a| - 1], b[..|a| - 1], k)
    ensures SameFrom(h, a, b, k)
  {
    forall n | k <= n < |a| ensures SameContent(h, a[n], b[n]) {
      assert n < |a| - 1 ==> a[n] == a[..|a| - 1][n] && b[n] == b[..|a| - 1][n];
    }
  }

  /** One head binds everything that is not excused: two accepted chains whose
      first `k` and `m` rows are excused, with recomputable rows behind them and
      the same last hash, have the same length and the same hashed content from
      the longer of the two runs on, or rows `i` and `j` are a collision. */
  lemma {:induction false} HeadBindsRecomputable(h: Primitives, a: seq<Entry>, k: nat, b: seq<Entry>, m: nat)
    returns (i: nat, j: nat)
    requires OneHead(h, a, k, b, m)
    ensures Bound(h, a, k, b, m, i, j)
    decreases |a|, 1
  {
    if Preimage(h, DEPLOYED, a[|a| - 1]) != Preimage(h, DEPLOYED, b[|b| - 1]) {
      LastRowsCollide(h, a, k, b, m);
      i, j := |a| - 1, |b| - 1;
    } else {
      LastRowsAgree(h, a, k, b, m);
      i, j := RestIsBound(h, a, k, b, m);
    }
  }

  lemma {:induction false} RestIsBound(h: Primitives, a: seq<Entry>, k: nat, b: seq<Entry>, m: nat)
    returns (i: nat, j: nat)
    requires OneHead(h, a, k, b, m) && |a| == |b| && SameContent(h, a[|a| - 1], b[|a| - 1])
    requires Head(a[..|a| - 1]) == Head(b[..|a| - 1])
    ensures Bound(h, a, k, b, m, i, j)
    decreases |a|, 0
  {
    if Longer(k, m) == |a| - 1 {
      LastRowBinds(h, a, b);
      i, j := 0, 0;
    } else {
      ShorterChains(h, a, k, b, m);
      i, j := HeadBindsRecomputable(h, a[..|a| - 1], k, b[..|b| - 1], m);
      BoundOrCollides(h, a, k, b, m, i, j);
    }
  }

  lemma LastRowsCollide(h: Primitives, a: seq<Entry>, k: nat, b: seq<Entry>, m: nat)
    requires OneHead(h, a, k, b, m) && Preimage(h, DEPLOYED, a[|a| - 1]) != Preimage(h, DEPLOYED, b[|b| - 1])
    ensures Bound(h, a, k, b, m, |a| - 1, |b| - 1)
  {
    LastRowRecomputes(h, a, k);
    LastRowRecomputes(h, b, m);
  }

  lemma LastRowBinds(h: Primitives, a: seq<Entry>, b: seq<Entry>)
    requires |a| == |b| > 0 && SameContent(h, a[|a| - 1], b[|a| - 1])
    requires Head(a[..|a| - 1]) == Head(b[..|a| - 1])
    ensures SameFrom(h, a, b, |a| - 1)
  {
    assert HeadAfter(a, |a| - 1) == Head(a[..|a| - 1]) && HeadAfter(b, |a| - 1) == Head(b[..|a| - 1]);
  }

  lemma ShorterChains(h: Primitives, a: seq<Entry>, k: nat, b: seq<Entry>, m: nat)
    requires OneHead(h, a, k, b, m) && |a| == |b| && Longer(k, m) < |a| - 1
    requires Head(a[..|a| - 1]) == Head(b[..|b| - 1])
    ensures OneHead(h, a[..|a| - 1], k, b[..|b| - 1], m)
  {
    PrefixIsSound(h, DEPLOYED, a, k, |a| - 1);
    PrefixIsSound(h, DEPLOYED, b, m, |b| - 1);
  }

  lemma BoundOrCollides(h: Primitives, a: seq<Entry>, k: nat, b: seq<Entry>, m: nat, i: nat, j: nat)
    requires |a| == |b| && Longer(k, m) < |a| && SameContent(h, a[|a| - 1], b[|a| - 1])
    requires Bound(h, a[..|a| - 1], k, b[..|b| - 1], m, i, j)
    ensures Bound(h, a, k, b, m, i, j)
  {
    if SameFrom(h, a[..|a| - 1], b[..|b| - 1], Longer(k, m)) {
      SameHistoryGrows(h, a, b, Longer(k, m));
    } else {
      CollisionLifts(h, a, b, |a| - 1, i, j);
    }
  }

  /** One head, one history: two strictly verified chains with the same last
      hash have the same length and the same hashed content at every position,
      or rows `i` and `j` are a collision, or one chain is empty and the other
      ends in a preimage of the genesis hash. */
  lemma HeadBindsHistory(h: Primitives, a: seq<Entry>, b: seq<Entry>) returns (i: nat, j: nat)
    requires Strict(h, DEPLOYED, a) && Strict(h, DEPLOYED, b)
    requires NewlineFree(h, a, 0) && NewlineFree(h, b, 0)
    requires Head(a) == Head(b)
    ensures || SameHistory(h, a, b)
            || Collision(h, a, b, i, j)
            || (a == [] && GenesisPreimage(h, b)) || (b == [] && GenesisPreimage(h, a))
  {
    i, j := 0, 0;
    if a != [] && b != [] {
      i, j := HeadBindsRecomputable(h, a, 0, b, 0);
    } else if a != [] {
      LastRowRecomputes(h, a, 0);
    } else if b != [] {
      LastRowRecomputes(h, b, 0);
    }
  }

  /** A row whose ids were not in lower case comes back with other ids, so that only
      two texts with one hash can make it recompute. */
  lemma UpperCaseNeedsACollision(h: Primitives, written: Entry, row: Entry)
    requires StoredAs(written, row) && !CanonicalIds(written) && HashesCredential(written.hashVersion)
    requires written.hash == ComputeHash(h, DEPLOYED, written) && NewlineFree(h, [written, row], 0)
    ensures ComputeHash(h, DEPLOYED, row) == row.hash ==> Collision(h, [written], [row], 0, 0)
  {
    HashSurvivesStorage(h, written, row);
    if Preimage(h, DEPLOYED, row) == Preimage(h, DEPLOYED, written) {
      assert [written, row][0] == written && [written, row][1] == row;
      JoinInjective(Fields(h, DEPLOYED, row), Fields(h, DEPLOYED, written), '\n');
      assert false;
    }
  }

  /** An edit of a stored row that leaves its hash as it is goes unnoticed only if it
      changes nothing that is hashed, or exhibits two texts of one hash. */
  lemma EditNeedsACollision(h: Primitives, row: Entry, edited: Entry)
    requires NewlineFree(h, [row, edited], 0) && edited.hash == row.hash && !SameRecord(h, row, edited)
    requires row.hash == ComputeHash(h, DEPLOYED, row)
    ensures ComputeHash(h, DEPLOYED, edited) == edited.hash ==> Collision(h, [row], [edited], 0, 0)
  {
    if Preimage(h, DEPLOYED, edited) == Preimage(h, DEPLOYED, row) {
      assert [row, edited][0] == row && [row, edited][1] == edited;
      PreimageIsInjective(h, row, edited);
      assert false;
    }
  }

  /** The newline condition cannot be dropped: with a newline inside a field,
      every hash function gives two different one-row histories one head. */
  lemma NewlineMovesFieldBoundary(h: Primitives) returns (a: Entry, b: Entry)
    ensures Strict(h, DEPLOYED, [a]) && Strict(h, DEPLOYED, [b]) && Head([a]) == Head([b])
    ensures Preimage(h, DEPLOYED, a) == Preimage(h, DEPLOYED, b)
    ensures a.action != b.action && a.resourceType != b.resourceType && !SameContent(h, a, b)
  {
    a := Entry("e", "t", 1, "u", "x\ny", "z", "r", 0, "", "", "", Absent, Genesis(), "", 2);
    b := a.(action := "x", resourceType := "y\nz");
    var fa, fb := Fields(h, DEPLOYED, a), Fields(h, DEPLOYED, b);
    JoinDrop(fa, 5);
    JoinDrop(fb, 5);
    assert fa[..5] == fb[..5];
    assert fa[5..][1..][1..] == fb[5..][1..][1..];
    assert "x\ny" + "\n" + "z" == "x" + "\n" + "y\nz";
    MoveBoundary(fa[5..], fb[5..]);
    a := a.(hash := ComputeHash(h, DEPLOYED, a));
    b := b.(hash := ComputeHash(h, DEPLOYED, b));
    assert Fields(h, DEPLOYED, a) == fa && Fields(h, DEPLOYED, b) == fb;
    assert Linked([a], 0) && Linked([b], 0);
    assert fa[5] != fb[5] && fa[6] != fb[6];
  }

  lemma {:induction false} MoveBoundary(a: seq<string>, b: seq<string>)
    requires |a| == |b| > 2 && a[1..][1..] == b[1..][1..]
    requires a[0] + "\n" + a[1] == b[0] + "\n" + b[1]
    ensures Join(a, '\n') == Join(b, '\n')
  {
    JoinOfTwoAndMore(a);
    JoinOfTwoAndMore(b);
  }

  lemma {:induction false} JoinOfTwoAndMore(a: seq<string>)
    requires |a| > 2
    ensures Join(a, '\n') == (a[0] + "\n" + a[1]) + ("\n" + Join(a[1..][1..], '\n'))
  {
    var tail := Join(a[1..][1..], '\n');
    assert Join(a[1..], '\n') == a[1] + ['\n'] + tail;
    assert a[0] + ['\n'] + (a[1] + ['\n'] + tail) == (a[0] + "\n" + a[1]) + ("\n" + tail);
  }

  lemma {:induction false} JoinDrop(parts: seq<string>, n: nat)
    requires n < |parts|
    ensures Join(parts, '\n') == (if n == 0 then "" else Join(parts[..n], '\n') + "\n") + Join(parts[n..], '\n')
  {
    if n == 0 {
      assert parts[0..] == parts;
    } else {
      JoinDrop(parts[1..], n - 1);
      assert parts[1..][..n - 1] == parts[..n][1..];
      assert parts[1..][n - 1..] == parts[n..];
    }
  }
}
