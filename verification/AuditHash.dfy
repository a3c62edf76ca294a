/** The hashing contracts of the audit trail (platform/audit/audit.go): which
    text of a row is hashed, under which version, and why two rows with the
    same hash either agree field by field or exhibit a collision. */
module AuditHash {
  import opened Ordering
  import opened Text

  const HASH_VERSION_MICROSECOND := 2
  const HASH_VERSION_CREDENTIAL := 3
  const CURRENT_HASH_VERSION := HASH_VERSION_CREDENTIAL
  const NANOS_PER_TICK := 1000  // ChainResolution: one microsecond

  /** A decoded JSON value. A scalar is the text json.Marshal gives it; an
      object's members keep the order, and the repeats, of the stored text. */
  datatype Json = Scalar(text: string) | List(items: seq<Json>) | Object(members: seq<(string, Json)>)

  /** A details column: empty, an object, or anything else, hashed as it stands. */
  datatype Details = Absent | Members(members: seq<(string, Json)>) | NotAnObject(raw: string)

  /** One audit_log row. `occurredAt` counts nanoseconds from the zero instant. */
  datatype Entry = Entry(
    eventId: string, tenantId: string, seqNo: int, actorId: string, action: string,
    resourceType: string, resourceId: string, occurredAt: nat, requestId: string,
    credentialId: string, credentialKind: string, details: Details,
    prevHash: string, hash: string, hashVersion: int)

  /** What the model leaves uninterpreted: SHA-256 in hex, the layout of an
      instant (given in microseconds), and JSON string quoting. */
  datatype Primitives = Primitives(sha256Hex: string -> string, layout: nat -> string, quote: string -> string)

  /** Contracts a later build adds after version 3, in version order; the
      deployed build has none. */
  type Later = seq<Entry -> seq<string>>

  const DEPLOYED: Later := []

  function Genesis(): (hash: string)
    ensures |hash| == 64 && forall i :: 0 <= i < 64 ==> hash[i] == '0'
  {
    seq(64, _ => '0')
  }

  function Current(later: Later): int { CURRENT_HASH_VERSION + |later| }

  predicate HashesCredential(version: int) { version == 0 || version >= HASH_VERSION_CREDENTIAL }

  predicate IsPreCutover(version: int) { 0 < version < HASH_VERSION_MICROSECOND }

  function Truncate(instant: nat): nat { instant - instant % NANOS_PER_TICK }

  /** The last whole microsecond not after the instant, its count of microseconds unchanged. */
  lemma TruncateCutsMicroseconds(instant: nat)
    ensures Truncate(instant) % 1000 == 0 && Truncate(instant) <= instant < Truncate(instant) + 1000
    ensures Truncate(instant) / NANOS_PER_TICK == instant / 1000
  {
  }

  // ----- canonical details ------------------------------------------------

  /** Sets key `k` in a key-sorted member list, as assignment to a Go map that
      is later marshalled with sorted keys does. */
  function Put(sorted: seq<(string, Json)>, k: string, v: Json): seq<(string, Json)>
  {
    if sorted == [] then [(k, v)]
    else if sorted[0].0 == k then [(k, v)] + sorted[1..]
    else if StringLess(k, sorted[0].0) then [(k, v)] + sorted
    else [sorted[0]] + Put(sorted[1..], k, v)
  }

  /** Decoding into a map and encoding it again: keys sorted, the last of
      several equal keys kept, at every depth. */
  function Canonical(j: Json): Json
    decreases j, 1, 0
  {
    match j
    case Scalar(_) => j
    case List(items) => List(seq(|items|, i requires 0 <= i < |items| => Canonical(items[i])))
    case Object(members) => Object(CanonicalMembers(members, |members|))
  }

  /** The first `n` members, decoded into a map. */
  function CanonicalMembers(members: seq<(string, Json)>, n: nat): seq<(string, Json)>
    requires n <= |members|
    decreases Object(members), 0, n
  {
    if n == 0 then []
    else
      var last := members[n - 1];
      Put(CanonicalMembers(members, n - 1), last.0, Canonical(last.1))
  }

  function Encode(h: Primitives, j: Json): string
    decreases j, 1
  {
    match j
    case Scalar(text) => text
    case List(items) => "[" + Join(seq(|items|, i requires 0 <= i < |items| => Encode(h, items[i])), ',') + "]"
    case Object(members) => EncodeMembers(h, members)
  }

  function EncodeMembers(h: Primitives, members: seq<(string, Json)>): string
    decreases Object(members), 0
  {
    "{" + Join(seq(|members|, i requires 0 <= i < |members| =>
                   h.quote(members[i].0) + ":" + Encode(h, members[i].1)), ',') + "}"
  }

  function Recanonicalize(h: Primitives, d: Details): string
  {
    match d
    case Absent => EncodeMembers(h, [])
    case Members(members) => EncodeMembers(h, CanonicalMembers(members, |members|))
    case NotAnObject(raw) => raw
  }

  /** Every scalar of a value is of the given kind. */
  ghost predicate ScalarsAre(j: Json, kind: string -> bool)
  {
    match j
    case Scalar(text) => kind(text)
    case List(items) => forall i :: 0 <= i < |items| ==> ScalarsAre(items[i], kind)
    case Object(members) => forall i :: 0 <= i < |members| ==> ScalarsAre(members[i].1, kind)
  }

  ghost predicate MemberScalarsAre(members: seq<(string, Json)>, kind: string -> bool)
  {
    forall i :: 0 <= i < |members| ==> ScalarsAre(members[i].1, kind)
  }

  lemma {:induction false} PutKeepsScalars(sorted: seq<(string, Json)>, k: string, v: Json, kind: string -> bool)
    requires MemberScalarsAre(sorted, kind) && ScalarsAre(v, kind)
    ensures MemberScalarsAre(Put(sorted, k, v), kind)
  {
    if sorted != [] {
      PutKeepsScalars(sorted[1..], k, v, kind);
    }
  }

  lemma {:induction false} CanonicalKeepsScalars(j: Json, kind: string -> bool)
    requires ScalarsAre(j, kind)
    ensures ScalarsAre(Canonical(j), kind)
    decreases j, 1, 0
  {
    match j
    case Scalar(_) =>
    case List(items) =>
      forall i | 0 <= i < |items| ensures ScalarsAre(Canonical(items[i]), kind) {
        CanonicalKeepsScalars(items[i], kind);
      }
    case Object(members) =>
      CanonicalMembersKeepScalars(members, |members|, kind);
  }

  lemma {:induction false} CanonicalMembersKeepScalars(members: seq<(string, Json)>, n: nat, kind: string -> bool)
    requires n <= |members| && MemberScalarsAre(members, kind)
    ensures MemberScalarsAre(CanonicalMembers(members, n), kind)
    decreases Object(members), 0, n
  {
    if n > 0 {
      var last := members[n - 1];
      CanonicalMembersKeepScalars(members, n - 1, kind);
      CanonicalKeepsScalars(last.1, kind);
      PutKeepsScalars(CanonicalMembers(members, n - 1), last.0, Canonical(last.1), kind);
    }
  }

  // ----- the hashed text --------------------------------------------------

  function BaseFields(h: Primitives, e: Entry): (fields: seq<string>)
    ensures |fields| == 11
  {
    [e.prevHash, e.eventId, e.tenantId, FormatInt(e.seqNo), e.actorId, e.action, e.resourceType, e.resourceId,
     h.layout(Truncate(e.occurredAt) / NANOS_PER_TICK), e.requestId, Recanonicalize(h, e.details)]
  }

  function LaterFields(later: Later, e: Entry): seq<string>
  {
    if later == [] then []
    else
      LaterFields(later[..|later| - 1], e) +
      (if e.hashVersion == 0 || e.hashVersion >= Current(later) then later[|later| - 1](e) else [])
  }

  /** The envelope of the version the row carries. */
  function Fields(h: Primitives, later: Later, e: Entry): (fields: seq<string>)
    ensures |fields| >= 11
  {
    BaseFields(h, e)
    + (if HashesCredential(e.hashVersion) then [e.credentialKind, e.credentialId] else [])
    + LaterFields(later, e)
  }

  function Preimage(h: Primitives, later: Later, e: Entry): string { Join(Fields(h, later, e), '\n') }

  function ComputeHash(h: Primitives, later: Later, e: Entry): string { h.sha256Hex(Preimage(h, later, e)) }

  /** A row that names no version is hashed as one of the newest contract, and never excused. */
  lemma UnstatedVersionIsCurrent(h: Primitives, later: Later, e: Entry)
    ensures (forall contract :: contract in later ==> IgnoresVersion(contract))
            ==> Fields(h, later, e.(hashVersion := 0)) == Fields(h, later, e.(hashVersion := 3 + |later|))
    ensures !IsPreCutover(0) && !IsPreCutover(3 + |later|)
  {
    if forall contract :: contract in later ==> IgnoresVersion(contract) {
      UnstatedLaterFields(later, e, 3 + |later|);
    }
  }

  /** A contract adds fields of the row, not of its version. */
  ghost predicate IgnoresVersion(contract: Entry -> seq<string>)
  {
    forall e: Entry, v: int :: contract(e.(hashVersion := v)) == contract(e)
  }

  lemma {:induction false} UnstatedLaterFields(later: Later, e: Entry, version: int)
    requires forall contract :: contract in later ==> IgnoresVersion(contract)
    requires version >= 3 + |later|
    ensures LaterFields(later, e.(hashVersion := 0)) == LaterFields(later, e.(hashVersion := version))
  {
    if later != [] {
      var last := later[|later| - 1];
      UnstatedLaterFields(later[..|later| - 1], e, version);
      assert last in later && last(e.(hashVersion := 0)) == last(e) && last(e.(hashVersion := version)) == last(e);
    }
  }

  // ----- what a database may give back ------------------------------------

  ghost predicate Has(members: seq<(string, Json)>, n: nat, k: string)
    requires n <= |members|
  {
    exists i :: 0 <= i < n && members[i].0 == k
  }

  /** The last value the first `n` members store under `k`. */
  function LastOf(members: seq<(string, Json)>, n: nat, k: string): (v: Json)
    requires n <= |members| && Has(members, n, k)
    ensures v < Object(members)
  {
    if members[n - 1].0 == k then members[n - 1].1 else LastOf(members, n - 1, k)
  }

  /** Two values denote the same JSON: equal scalars, equal lists, and objects
      that answer every key alike, whatever the order or the repeats. */
  ghost predicate Same(a: Json, b: Json)
    decreases a, 1
  {
    match (a, b)
    case (Scalar(s), Scalar(t)) => s == t
    case (List(s), List(t)) => |s| == |t| && forall i :: 0 <= i < |s| ==> Same(s[i], t[i])
    case (Object(s), Object(t)) => SameMembers(s, t)
    case _ => false
  }

  ghost predicate SameMembers(a: seq<(string, Json)>, b: seq<(string, Json)>)
    decreases Object(a), 0
  {
    forall k ::
      && (Has(a, |a|, k) <==> Has(b, |b|, k))
      && (Has(a, |a|, k) ==> Same(LastOf(a, |a|, k), LastOf(b, |b|, k)))
  }

  predicate KeyLess(a: (string, Json), b: (string, Json)) { StringLess(a.0, b.0) }

  lemma {:induction false} PutSetsOneKey(sorted: seq<(string, Json)>, k: string, v: Json)
    requires Increasing(sorted, KeyLess)
    ensures Increasing(Put(sorted, k, v), KeyLess)
    ensures forall m :: m in Put(sorted, k, v) <==> m == (k, v) || (m in sorted && m.0 != k)
  {
    StringLessIsStrictTotal();
    if sorted != [] {
      assert sorted == [sorted[0]] + sorted[1..];
      PutSetsOneKey(sorted[1..], k, v);
    }
  }

  /** The canonical list is sorted and answers every key with the canonical
      form of the last value stored under it. */
  lemma {:induction false} CanonicalMembersAnswer(members: seq<(string, Json)>, n: nat)
    requires n <= |members|
    ensures Increasing(CanonicalMembers(members, n), KeyLess)
    ensures forall m :: m in CanonicalMembers(members, n)
                        <==> Has(members, n, m.0) && m.1 == Canonical(LastOf(members, n, m.0))
  {
    if n > 0 {
      var (k, v) := members[n - 1];
      CanonicalMembersAnswer(members, n - 1);
      PutSetsOneKey(CanonicalMembers(members, n - 1), k, Canonical(v));
      forall m
        ensures m in CanonicalMembers(members, n) <==> Has(members, n, m.0) && m.1 == Canonical(LastOf(members, n, m.0))
      {
        OneMoreMember(members, n, m.0);
      }
    }
  }

  lemma OneMoreMember(members: seq<(string, Json)>, n: nat, k: string)
    requires 0 < n <= |members|
    ensures Has(members, n, k) <==> k == members[n - 1].0 || Has(members, n - 1, k)
    ensures Has(members, n, k)
            ==> LastOf(members, n, k) == if k == members[n - 1].0 then members[n - 1].1 else LastOf(members, n - 1, k)
  {
  }

  /** Values have one canonical form if and only if they denote the same JSON:
      reordering keys, or dropping an overwritten repeat, changes none, and
      anything else does. */
  lemma {:induction false} SameIffOneCanonicalForm(a: Json, b: Json)
    ensures Same(a, b) <==> Canonical(a) == Canonical(b)
    decreases a, 1
  {
    match (a, b)
    case (List(s), List(t)) =>
      if |s| == |t| {
        forall i | 0 <= i < |s| ensures Same(s[i], t[i]) <==> Canonical(s[i]) == Canonical(t[i]) {
          SameIffOneCanonicalForm(s[i], t[i]);
        }
        var (cs, ct) := (Canonical(a).items, Canonical(b).items);
        assert cs == ct <==> forall i :: 0 <= i < |s| ==> cs[i] == ct[i];
        assert forall i :: 0 <= i < |s| ==> cs[i] == Canonical(s[i]) && ct[i] == Canonical(t[i]);
      } else {
        assert |Canonical(a).items| != |Canonical(b).items|;
      }
    case (Object(s), Object(t)) =>
      SameIffOneCanonicalList(s, t);
    case _ =>
  }

  lemma {:induction false} SameIffOneCanonicalList(a: seq<(string, Json)>, b: seq<(string, Json)>)
    ensures SameMembers(a, b) <==> CanonicalMembers(a, |a|) == CanonicalMembers(b, |b|)
    decreases Object(a), 0
  {
    forall k | Has(a, |a|, k) && Has(b, |b|, k)
      ensures var (x, y) := (LastOf(a, |a|, k), LastOf(b, |b|, k)); Same(x, y) <==> Canonical(x) == Canonical(y)
    {
      SameIffOneCanonicalForm(LastOf(a, |a|, k), LastOf(b, |b|, k));
    }
    SameIffSameAnswers(a, b);
    AnswersDecideTheList(a, b);
  }

  /** Both member lists answer every key with one canonical form, or both with none. */
  ghost predicate SameAnswers(a: seq<(string, Json)>, b: seq<(string, Json)>)
  {
    forall k ::
      && (Has(a, |a|, k) <==> Has(b, |b|, k))
      && (Has(a, |a|, k) ==> Canonical(LastOf(a, |a|, k)) == Canonical(LastOf(b, |b|, k)))
  }

  lemma {:induction false} SameIffSameAnswers(a: seq<(string, Json)>, b: seq<(string, Json)>)
    requires forall k :: Has(a, |a|, k) && Has(b, |b|, k)
                         ==> (Same(LastOf(a, |a|, k), LastOf(b, |b|, k))
                              <==> Canonical(LastOf(a, |a|, k)) == Canonical(LastOf(b, |b|, k)))
    ensures SameMembers(a, b) <==> SameAnswers(a, b)
  {
  }

  lemma {:induction false} AnswersDecideTheList(a: seq<(string, Json)>, b: seq<(string, Json)>)
    ensures SameAnswers(a, b) <==> CanonicalMembers(a, |a|) == CanonicalMembers(b, |b|)
  {
    var ca, cb := CanonicalMembers(a, |a|), CanonicalMembers(b, |b|);
    CanonicalMembersAnswer(a, |a|);
    CanonicalMembersAnswer(b, |b|);
    if SameAnswers(a, b) {
      forall m ensures m in ca <==> m in cb {
        assert m in ca <==> Has(a, |a|, m.0) && m.1 == Canonical(LastOf(a, |a|, m.0));
        assert m in cb <==> Has(b, |b|, m.0) && m.1 == Canonical(LastOf(b, |b|, m.0));
      }
      SortedMembersAreUnique(ca, cb);
    }
    if ca == cb {
      forall k
        ensures (Has(a, |a|, k) <==> Has(b, |b|, k))
                && (Has(a, |a|, k) ==> Canonical(LastOf(a, |a|, k)) == Canonical(LastOf(b, |b|, k)))
      {
        AnswerIsMember(a, b, k);
        AnswerIsMember(b, a, k);
      }
    }
  }

  lemma {:induction false} AnswerIsMember(a: seq<(string, Json)>, b: seq<(string, Json)>, k: string)
    requires CanonicalMembers(a, |a|) == CanonicalMembers(b, |b|)
    ensures Has(a, |a|, k)
            ==> Has(b, |b|, k) && Canonical(LastOf(a, |a|, k)) == Canonical(LastOf(b, |b|, k))
  {
    CanonicalMembersAnswer(a, |a|);
    CanonicalMembersAnswer(b, |b|);
    if Has(a, |a|, k) {
      var m := (k, Canonical(LastOf(a, |a|, k)));
      assert m in CanonicalMembers(a, |a|);
    }
  }

  lemma SortedMembersAreUnique(a: seq<(string, Json)>, b: seq<(string, Json)>)
    requires Increasing(a, KeyLess) && Increasing(b, KeyLess) && forall m :: m in a <==> m in b
    ensures a == b
  {
    assert Elements(a) == Elements(b);
    KeyLessIsAsymmetric();
    IncreasingIsUnique(a, b, KeyLess);
  }

  lemma KeyLessIsAsymmetric()
    ensures Asymmetric(KeyLess)
  {
    forall a, b ensures !(KeyLess(a, b) && KeyLess(b, a)) {
      StringLessTotal(a.0, b.0);
    }
  }

  // ----- ids --------------------------------------------------------------

  const ID_LENGTH := 36

  predicate DashAt(i: nat) { i == 8 || i == 13 || i == 18 || i == 23 }

  predicate IsHex(c: char) { '0' <= c <= '9' || 'a' <= c <= 'f' || 'A' <= c <= 'F' }

  function ToLowerHex(c: char): char { if 'A' <= c <= 'F' then 'a' + (c - 'A') else c }

  function Lowered(s: string): string { seq(|s|, i requires 0 <= i < |s| => ToLowerHex(s[i])) }

  /** The shape of a UUID, in either case. */
  predicate IdShaped(s: string)
  {
    |s| == ID_LENGTH && forall i :: 0 <= i < |s| ==> if DashAt(i) then s[i] == '-' else IsHex(s[i])
  }

  /** The one text a UUID column gives back. */
  predicate CanonicalId(s: string)
  {
    |s| == ID_LENGTH &&
    forall i :: 0 <= i < |s| ==> if DashAt(i) then s[i] == '-' else '0' <= s[i] <= '9' || 'a' <= s[i] <= 'f'
  }

  lemma CanonicalIffLowered(s: string)
    requires IdShaped(s)
    ensures CanonicalId(s) <==> Lowered(s) == s
    ensures CanonicalId(Lowered(s))
  {
    if Lowered(s) == s {
      forall i | 0 <= i < |s| ensures s[i] == ToLowerHex(s[i]) {
        assert Lowered(s)[i] == s[i];
      }
    }
  }

  /** The ids of a row that UUID columns take: the credential's may be absent. */
  predicate StorableIds(e: Entry)
  {
    && IdShaped(e.eventId) && IdShaped(e.tenantId) && IdShaped(e.actorId) && IdShaped(e.resourceId)
    && (e.credentialId == "" || IdShaped(e.credentialId))
  }

  predicate CanonicalIds(e: Entry)
  {
    && CanonicalId(e.eventId) && CanonicalId(e.tenantId) && CanonicalId(e.actorId) && CanonicalId(e.resourceId)
    && (e.credentialId == "" || CanonicalId(e.credentialId))
  }

  function WithLoweredIds(e: Entry): Entry
  {
    e.(eventId := Lowered(e.eventId), tenantId := Lowered(e.tenantId), actorId := Lowered(e.actorId),
       resourceId := Lowered(e.resourceId), credentialId := Lowered(e.credentialId))
  }

  /** The columns leave the ids alone exactly when they are in lower case. */
  lemma CanonicalIdsStay(e: Entry)
    requires StorableIds(e)
    ensures WithLoweredIds(e) == e <==> CanonicalIds(e)
    ensures CanonicalIds(WithLoweredIds(e))
  {
    CanonicalIffLowered(e.eventId);
    CanonicalIffLowered(e.tenantId);
    CanonicalIffLowered(e.actorId);
    CanonicalIffLowered(e.resourceId);
    if e.credentialId != "" {
      CanonicalIffLowered(e.credentialId);
    }
  }

  // ----- through the table ------------------------------------------------

  /** `row` is what the table gives back for the inserted `written`: the ids as
      UUIDs in lower case, the instant at the column's resolution, the object with
      its keys in any order. */
  ghost predicate StoredAs(written: Entry, row: Entry)
  {
    && StorableIds(written)
    && row == WithLoweredIds(written).(occurredAt := row.occurredAt, details := row.details)
    && row.occurredAt == Truncate(written.occurredAt)
    && (written.details == row.details
        || (written.details.Members? && row.details.Members?
            && SameMembers(written.details.members, row.details.members)))
  }

  /** The hashed fields of a row of the current contract come back as they were
      written exactly when its ids were in lower case; then the hash is computable
      from the stored row alone. */
  lemma HashSurvivesStorage(h: Primitives, written: Entry, row: Entry)
    requires StoredAs(written, row)
    ensures CanonicalIds(written) ==> ComputeHash(h, DEPLOYED, row) == ComputeHash(h, DEPLOYED, written)
    ensures HashesCredential(written.hashVersion) ==>
              (Fields(h, DEPLOYED, row) == Fields(h, DEPLOYED, written) <==> CanonicalIds(written))
  {
    if written.details != row.details {
      SameIffOneCanonicalList(written.details.members, row.details.members);
    }
    CanonicalIdsStay(written);
    if HashesCredential(written.hashVersion) && Fields(h, DEPLOYED, row) == Fields(h, DEPLOYED, written) {
      SameFieldsSameIds(h, written, row);
    }
  }

  lemma SameFieldsSameIds(h: Primitives, a: Entry, b: Entry)
    requires HashesCredential(a.hashVersion) && HashesCredential(b.hashVersion)
    requires Fields(h, DEPLOYED, a) == Fields(h, DEPLOYED, b)
    ensures a.eventId == b.eventId && a.tenantId == b.tenantId && a.actorId == b.actorId
    ensures a.resourceId == b.resourceId && a.credentialId == b.credentialId
  {
    var (fa, fb) := (Fields(h, DEPLOYED, a), Fields(h, DEPLOYED, b));
    assert fa[1] == a.eventId && fa[2] == a.tenantId && fa[4] == a.actorId && fa[7] == a.resourceId;
    assert fb[1] == b.eventId && fb[2] == b.tenantId && fb[4] == b.actorId && fb[7] == b.resourceId;
    assert fa[12] == a.credentialId && fb[12] == b.credentialId;
  }

  /** A newer contract leaves the hashed text of a row alone exactly when the
      row names a contract this build already knows: version 0, "not selected",
      reads as the newest one and is the only known version to change. */
  lemma NewerContractKeepsRow(h: Primitives, later: Later, e: Entry)
    ensures (forall newer: Entry -> seq<string> :: Fields(h, later + [newer], e) == Fields(h, later, e))
            <==> e.hashVersion != 0 && e.hashVersion <= Current(later)
  {
    forall newer: Entry -> seq<string>
      ensures LaterFields(later + [newer], e) == LaterFields(later, e) +
              (if e.hashVersion == 0 || e.hashVersion > Current(later) then newer(e) else [])
    {
      assert (later + [newer])[..|later|] == later;
    }
    var one: Entry -> seq<string> := _ => ["x"];
    if e.hashVersion == 0 || e.hashVersion > Current(later) {
      assert |Fields(h, later + [one], e)| == |Fields(h, later, e)| + 1;
    }
  }
}
