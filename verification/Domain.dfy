/** The vocabulary of the archive: identities, locations, revisions, events and outcomes. */
module Domain {
  import opened Wrappers

  /** Largest value SQLite's signed 64-bit columns hold. */
  const I64_MAX: int := 0x7FFF_FFFF_FFFF_FFFF

  /** Largest value of Rust's `u64`. */
  const U64_MAX: int := 0xFFFF_FFFF_FFFF_FFFF

  newtype byte = x: int | 0 <= x < 256

  type Digest = seq<byte>

  /** Rows are named by their position in their table: a new row's name is always fresh. */
  type RecordId = nat
  type RevisionId = nat
  type SubscriptionId = nat
  type DeliveryId = nat

  /** Event identities and lease tokens are drawn from one counter that only grows. */
  type Uuid = nat

  type Millis = int

  datatype RecordIdentity = RecordIdentity(
    producerId: nat,
    agentNamespace: string,
    sessionId: string,
    recordKind: string,
    recordKey: string)

  datatype LogicalLocation = LogicalLocation(rootRole: string, sourceRelativePath: string)

  datatype CanonicalRevision = CanonicalRevision(byteLength: nat, digest: Digest)

  /** Cheap file metadata: it decides whether bytes are hashed, and whether they moved while being read. */
  datatype SourceFingerprint = SourceFingerprint(
    byteLength: nat,
    modifiedSeconds: int,
    modifiedNanoseconds: nat,
    device: Option<nat>,
    inode: Option<nat>)

  /** The 256-bit digest is a parameter: nothing here depends on what it computes. */
  type Hasher = seq<byte> -> Digest

  function RevisionOfBytes(hash: Hasher, bytes: seq<byte>): CanonicalRevision {
    CanonicalRevision(|bytes|, hash(bytes))
  }

  datatype RecordState = Active | Tombstoned

  datatype EventKind = RevisionCommitted | LocationChanged | RecordTombstoned | RecordRestored

  datatype DeliveryOutcome = OutcomeAcknowledged | OutcomeSuperseded | OutcomeIgnoredByPolicy | OutcomeDeadLettered
  {
    predicate AdvancesRecordOrder() {
      !OutcomeDeadLettered?
    }
  }

  datatype ArchiveEvent = ArchiveEvent(
    id: Uuid,
    sequence: nat,
    recordId: RecordId,
    recordVersion: nat,
    kind: EventKind,
    revisionId: Option<RevisionId>,
    location: Option<LogicalLocation>,
    committedAtMs: Millis)
}
