/** The recipe that every exported segment publishes (platform/audit/worm): the
    names of the hashed fields by version, and what a segment carries for each. */
module AuditRecipe {
  import opened Text
  import opened AuditHash

  datatype Field =
    | PrevHash | EventId | TenantId | Seq | ActorId | Action | ResourceType | ResourceId | OccurredAt | RequestId
    | DetailsJson | CredentialKind | CredentialId

  const ENTRY_HASH_FIELDS := [
    PrevHash, EventId, TenantId, Seq, ActorId, Action, ResourceType, ResourceId, OccurredAt, RequestId, DetailsJson
  ]

  const CREDENTIAL_HASH_FIELDS := [CredentialKind, CredentialId]

  /** The list of a version; that of the newest one when the entry states none. */
  function FieldsFor(version: int): seq<Field>
  {
    ENTRY_HASH_FIELDS + (if version == 0 || version > 2 then CREDENTIAL_HASH_FIELDS else [])
  }

  /** The text a segment carries for a field of a row. */
  function Carried(h: Primitives, e: Entry, field: Field): string
  {
    match field
    case PrevHash => e.prevHash
    case EventId => e.eventId
    case TenantId => e.tenantId
    case Seq => FormatInt(e.seqNo)
    case ActorId => e.actorId
    case Action => e.action
    case ResourceType => e.resourceType
    case ResourceId => e.resourceId
    case OccurredAt => h.layout(e.occurredAt / 1000)
    case RequestId => e.requestId
    case DetailsJson => CanonicalText(h, e.details)
    case CredentialKind => e.credentialKind
    case CredentialId => e.credentialId
  }

  /** Details as a segment carries them: the canonical form of the stored value, an
      empty column as an empty object, anything but an object as it is. */
  function CanonicalText(h: Primitives, d: Details): string
  {
    match d
    case Absent => "{}"
    case Members(members) => Encode(h, Canonical(Object(members)))
    case NotAnObject(raw) => raw
  }

  /** What an independent reader hashes for an entry of a segment. */
  function HashInput(h: Primitives, e: Entry): string
  {
    var names := FieldsFor(e.hashVersion);
    Join(seq(|names|, i requires 0 <= i < |names| => Carried(h, e, names[i])), '\n')
  }

  lemma CarriedDetails(h: Primitives, d: Details)
    ensures CanonicalText(h, d) == Recanonicalize(h, d)
  {
    assert EncodeMembers(h, []) == "{" + "" + "}";
  }

  /** Following the published recipe on what a segment carries reproduces the text
      whose hash the row stores, under every version. */
  lemma RecipeReproducesHash(h: Primitives, e: Entry)
    ensures HashInput(h, e) == Preimage(h, DEPLOYED, e)
    ensures h.sha256Hex(HashInput(h, e)) == ComputeHash(h, DEPLOYED, e)
  {
    var names := FieldsFor(e.hashVersion);
    CarriedDetails(h, e.details);
    TruncateCutsMicroseconds(e.occurredAt);
    assert seq(|names|, i requires 0 <= i < |names| => Carried(h, e, names[i])) == Fields(h, DEPLOYED, e);
  }
}
