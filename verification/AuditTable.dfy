/** What the binding theorems ask of rows that come out of the audit table: the
    columns settle every hashed field but two. */
module AuditTable {
  import opened Text
  import opened AuditHash
  import opened AuditVerify
  import opened AuditBinding
  import opened AuditRecorder

  /** Hashes, instants and quoted strings hold no newline. */
  ghost predicate PlainPrimitives(h: Primitives)
  {
    && (forall s :: Free(h.sha256Hex(s), '\n'))
    && (forall s :: Free(h.quote(s), '\n'))
    && (forall n :: Free(h.layout(n), '\n'))
  }

  predicate OneLine(text: string) { Free(text, '\n') }

  /** The scalars of a value are single lines, as json.Marshal renders them. */
  ghost predicate PlainJson(j: Json) { ScalarsAre(j, OneLine) }

  ghost predicate PlainMembers(members: seq<(string, Json)>) { MemberScalarsAre(members, OneLine) }

  ghost predicate PlainDetails(d: Details)
  {
    match d
    case Absent => true
    case Members(members) => PlainMembers(members)
    case NotAnObject(raw) => Free(raw, '\n')
  }

  /** A row as the columns hold it: UUIDs, checked envelope columns, a hash of one line. */
  ghost predicate TableRow(e: Entry)
  {
    CanonicalIds(e) && EnvelopeChecks(e) && Free(e.hash, '\n') && PlainDetails(e.details)
  }

  // ----- details ----------------------------------------------------------

  lemma {:induction false} JoinIsFree(parts: seq<string>, sep: char, c: char)
    requires AllFree(parts, c) && sep != c
    ensures Free(Join(parts, sep), c)
  {
    if |parts| > 1 {
      JoinIsFree(parts[1..], sep, c);
    }
  }

  lemma {:induction false} EncodingIsPlain(h: Primitives, j: Json)
    requires PlainPrimitives(h) && PlainJson(j)
    ensures Free(Encode(h, j), '\n')
    decreases j, 1
  {
    match j
    case Scalar(_) =>
    case List(items) =>
      var parts := seq(|items|, i requires 0 <= i < |items| => Encode(h, items[i]));
      forall i | 0 <= i < |items| ensures Free(parts[i], '\n') {
        EncodingIsPlain(h, items[i]);
      }
      JoinIsFree(parts, ',', '\n');
    case Object(members) =>
      EncodedMembersArePlain(h, members);
  }

  lemma {:induction false} EncodedMembersArePlain(h: Primitives, members: seq<(string, Json)>)
    requires PlainPrimitives(h) && PlainMembers(members)
    ensures Free(EncodeMembers(h, members), '\n')
    decreases Object(members), 0
  {
    var parts := seq(|members|, i requires 0 <= i < |members| =>
                       h.quote(members[i].0) + ":" + Encode(h, members[i].1));
    forall i | 0 <= i < |members| ensures Free(parts[i], '\n') {
      EncodingIsPlain(h, members[i].1);
    }
    JoinIsFree(parts, ',', '\n');
  }

  lemma DetailsArePlain(h: Primitives, d: Details)
    requires PlainPrimitives(h) && PlainDetails(d)
    ensures Free(Recanonicalize(h, d), '\n')
  {
    match d
    case Absent =>
      EncodedMembersArePlain(h, []);
    case Members(members) =>
      CanonicalMembersKeepScalars(members, |members|, OneLine);
      EncodedMembersArePlain(h, CanonicalMembers(members, |members|));
    case NotAnObject(_) =>
  }

  // ----- rows and chains --------------------------------------------------

  lemma IdIsPlain(s: string)
    requires s == "" || CanonicalId(s)
    ensures Free(s, '\n')
  {
  }

  /** A row of the table behind a one-line link is newline-free if and only if its
      action and its resource type are. */
  lemma RowIsPlainIff(h: Primitives, e: Entry)
    requires PlainPrimitives(h) && TableRow(e) && Free(e.prevHash, '\n')
    ensures AllFree(Fields(h, DEPLOYED, e), '\n') <==> Free(e.action, '\n') && Free(e.resourceType, '\n')
  {
    IdIsPlain(e.eventId);
    IdIsPlain(e.tenantId);
    IdIsPlain(e.actorId);
    IdIsPlain(e.resourceId);
    IdIsPlain(e.requestId);
    IdIsPlain(e.credentialId);
    DetailsArePlain(h, e.details);
    assert Free(FormatInt(e.seqNo), '\n');
    var fields := Fields(h, DEPLOYED, e);
    assert fields[5] == e.action && fields[6] == e.resourceType;
  }

  ghost predicate TableRows(entries: seq<Entry>) { forall i :: 0 <= i < |entries| ==> TableRow(entries[i]) }

  /** From row `k` on the two free texts of a row hold no newline. */
  ghost predicate PlainActions(entries: seq<Entry>, k: nat)
  {
    forall i :: k <= i < |entries| ==> Free(entries[i].action, '\n') && Free(entries[i].resourceType, '\n')
  }

  /** For an accepted chain out of the table that is the whole newline condition. */
  lemma ChainIsNewlineFreeIff(h: Primitives, entries: seq<Entry>, k: nat)
    requires PlainPrimitives(h) && TableRows(entries) && SoundFrom(h, DEPLOYED, entries, k)
    ensures NewlineFree(h, entries, k) <==> PlainActions(entries, k)
  {
    forall i | k <= i < |entries|
      ensures AllFree(Fields(h, DEPLOYED, entries[i]), '\n')
              <==> Free(entries[i].action, '\n') && Free(entries[i].resourceType, '\n')
    {
      assert Linked(entries, i);
      RowIsPlainIff(h, entries[i]);
    }
  }

  /** One head of two chains out of the table binds everything that is not excused,
      or exhibits a collision, when no action or resource type holds a newline. */
  lemma TableHeadBinds(h: Primitives, a: seq<Entry>, k: nat, b: seq<Entry>, m: nat) returns (i: nat, j: nat)
    requires PlainPrimitives(h) && TableRows(a) && TableRows(b)
    requires k < |a| && m < |b| && SoundFrom(h, DEPLOYED, a, k) && SoundFrom(h, DEPLOYED, b, m)
    requires PlainActions(a, k) && PlainActions(b, m) && Head(a) == Head(b)
    ensures Bound(h, a, k, b, m, i, j)
  {
    ChainIsNewlineFreeIff(h, a, k);
    ChainIsNewlineFreeIff(h, b, m);
    i, j := HeadBindsRecomputable(h, a, k, b, m);
  }
}
