/** Source scans, stability observations, ownership, tombstone candidates and the scrub cursor. */
module Sources {
  import opened Wrappers
  import opened Domain
  import opened Backoff
  import opened Tables
  import opened Ledger
  import opened Queue

  type SourceId = string

  datatype SourceRegistration = SourceRegistration(
    sourceId: SourceId,
    producerId: nat,
    identitySchemaName: string,
    identitySchemaVersion: nat)

  datatype SourceRow = SourceRow(
    registration: SourceRegistration,
    nextGeneration: nat,
    lastCompleteGeneration: nat)

  datatype SourceScan = SourceScan(sourceId: SourceId, generation: nat)

  datatype ObservationRow = ObservationRow(
    fingerprint: SourceFingerprint,
    unchangedObservations: nat,
    hashAdmitted: bool,
    lastSeenGeneration: nat)

  datatype OwnerRow = OwnerRow(sourceId: SourceId, lastSeenGeneration: nat)

  datatype MissingRow = MissingRow(sourceId: SourceId, firstMissingAtMs: Millis, completeGuardedScans: nat)

  datatype ScrubRow = ScrubRow(cursor: Option<LogicalLocation>, completedCycles: nat, lastCompletedAtMs: Option<Millis>)

  datatype GraceFields = GraceFields(minCompleteScans: nat, minElapsedMs: nat)

  /** `TombstoneGrace::new` refuses zero scans. */
  type TombstoneGrace = g: GraceFields | 0 < g.minCompleteScans witness GraceFields(2, 0)

  datatype SourceObservation = SourceObservation(unchangedObservations: nat, needsHash: bool)

  datatype SourceTables = SourceTables(
    sources: map<SourceId, SourceRow>,
    observations: map<(SourceId, LogicalLocation), ObservationRow>,
    owners: map<RecordId, OwnerRow>,
    missing: map<RecordId, MissingRow>,
    scrubs: map<SourceId, ScrubRow>)

  /** The whole database. */
  datatype Db = Db(store: Store, tables: SourceTables)

  const EMPTY_DB := Db(EMPTY_STORE, SourceTables(map[], map[], map[], map[], map[]))

  datatype CatalogError = SourceRegistrationConflict | SourceScanConflict | Corrupt

  // ---------- Generations ----------

  function BeginSourceScan(db: Db, registration: SourceRegistration): (Db, Result<SourceScan, CatalogError>) {
    var id := registration.sourceId;
    var sources := db.tables.sources;
    if id !in sources then
      (db.(tables := db.tables.(sources := sources[id := SourceRow(registration, 1, 0)])), Ok(SourceScan(id, 1)))
    else if sources[id].registration != registration then (db, Err(SourceRegistrationConflict))
    else
      var generation := sources[id].nextGeneration + 1;
      (db.(tables := db.tables.(sources := sources[id := sources[id].(nextGeneration := generation)])),
       Ok(SourceScan(id, generation)))
  }

  /** The newest generation of its source, and not completed yet. */
  predicate IsCurrentScan(tables: SourceTables, scan: SourceScan) {
    && scan.sourceId in tables.sources
    && scan.generation == tables.sources[scan.sourceId].nextGeneration
    && scan.generation > tables.sources[scan.sourceId].lastCompleteGeneration
  }

  // ---------- Stability ----------

  function ObserveSourceFingerprint(db: Db, scan: SourceScan, location: LogicalLocation, fingerprint: SourceFingerprint)
    : (Db, Result<SourceObservation, CatalogError>)
  {
    if !IsCurrentScan(db.tables, scan) then (db, Err(SourceScanConflict))
    else
      var key := (scan.sourceId, location);
      var observations := db.tables.observations;
      var row := if key in observations && observations[key].fingerprint == fingerprint
                 then observations[key].(unchangedObservations := observations[key].unchangedObservations + 1,
                                         lastSeenGeneration := scan.generation)
                 else ObservationRow(fingerprint, 1, false, scan.generation);
      (db.(tables := db.tables.(observations := observations[key := row])),
       Ok(SourceObservation(row.unchangedObservations, !row.hashAdmitted)))
  }

  function MarkSourceFingerprintHashed(db: Db, scan: SourceScan, location: LogicalLocation)
    : (Db, Result<(), CatalogError>)
  {
    var key := (scan.sourceId, location);
    var observations := db.tables.observations;
    if !IsCurrentScan(db.tables, scan) then (db, Err(SourceScanConflict))
    else if key !in observations || observations[key].lastSeenGeneration != scan.generation then
      (db, Err(SourceScanConflict))
    else
      (db.(tables := db.tables.(observations := observations[key := observations[key].(hashAdmitted := true)])), Ok(()))
  }

  // ---------- Presence ----------

  /** Ownership never changes hands, and being seen clears any tombstone candidacy. */
  function BindSourceRecord(db: Db, scan: SourceScan, r: RecordId): (Db, Result<(), CatalogError>) {
    var owners := db.tables.owners;
    if r in owners && owners[r].sourceId != scan.sourceId then (db, Err(SourceRegistrationConflict))
    else
      (db.(tables := db.tables.(owners := owners[r := OwnerRow(scan.sourceId, scan.generation)],
                                missing := db.tables.missing - {r})),
       Ok(()))
  }

  function MarkSourceRecordSeen(db: Db, scan: SourceScan, registration: SourceRegistration, identity: RecordIdentity)
    : (Db, Result<(), CatalogError>)
  {
    var found := FindRecord(db.store.records, identity);
    if identity.producerId != registration.producerId then (db, Err(SourceRegistrationConflict))
    else if !IsCurrentScan(db.tables, scan) then (db, Err(SourceScanConflict))
    else if found.None? then (db, Ok(()))
    else BindSourceRecord(db, scan, found.value)
  }

  /** Three transactions: the generation is checked, the record observed, and then marked seen. */
  function ObservePresentFromSource(db: Db, scan: SourceScan, registration: SourceRegistration, identity: RecordIdentity,
                                    location: LogicalLocation, revision: CanonicalRevision, nowMs: Millis)
    : (Db, Result<(), CatalogError>)
  {
    if identity.producerId != registration.producerId then (db, Err(SourceRegistrationConflict))
    else if !IsCurrentScan(db.tables, scan) then (db, Err(SourceScanConflict))
    else
      var observed := db.(store := ObservePresent(db.store, identity, location, revision, nowMs));
      MarkSourceRecordSeen(observed, scan, registration, identity)
  }

  // ---------- Completion ----------

  predicate IsMissing(tables: SourceTables, scan: SourceScan, r: RecordId) {
    && r in tables.owners
    && tables.owners[r].sourceId == scan.sourceId
    && tables.owners[r].lastSeenGeneration < scan.generation
  }

  /** The saturating difference, read as an unsigned number. */
  function ElapsedMs(firstMs: Millis, nowMs: Millis): nat {
    if nowMs <= firstMs then 0 else Min(nowMs - firstMs, I64_MAX)
  }

  /** The candidate row of a missing record once this completion is counted. */
  function CountMissing(tables: SourceTables, scan: SourceScan, r: RecordId, nowMs: Millis): MissingRow {
    if r in tables.missing
    then tables.missing[r].(sourceId := scan.sourceId,
                            completeGuardedScans := tables.missing[r].completeGuardedScans + 1)
    else MissingRow(scan.sourceId, nowMs, 1)
  }

  predicate GraceMet(row: MissingRow, grace: TombstoneGrace, nowMs: Millis) {
    && row.completeGuardedScans >= grace.minCompleteScans
    && ElapsedMs(row.firstMissingAtMs, nowMs) >= grace.minElapsedMs
  }

  /** This completion exhausts the grace of a missing record. */
  predicate CrossesAt(db: Db, scan: SourceScan, grace: TombstoneGrace, nowMs: Millis, r: RecordId) {
    IsMissing(db.tables, scan, r) && GraceMet(CountMissing(db.tables, scan, r, nowMs), grace, nowMs)
  }

  function ProcessMissing(db: Db, scan: SourceScan, grace: TombstoneGrace, nowMs: Millis, r: RecordId): Db
    requires r < |db.store.records|
  {
    var row := CountMissing(db.tables, scan, r, nowMs);
    if GraceMet(row, grace, nowMs) then
      db.(store := TombstoneRecord(db.store, r, nowMs), tables := db.tables.(missing := db.tables.missing - {r}))
    else
      db.(tables := db.tables.(missing := db.tables.missing[r := row]))
  }

  /** Processes the missing records among the first `n`. */
  function ProcessUpTo(db: Db, scan: SourceScan, grace: TombstoneGrace, nowMs: Millis, n: nat): (t: Db)
    requires n <= |db.store.records|
    ensures |t.store.records| == |db.store.records| && t.tables.owners == db.tables.owners
    ensures t.tables.sources == db.tables.sources && t.tables.observations == db.tables.observations
    ensures t.tables.scrubs == db.tables.scrubs
  {
    if n == 0 then db
    else
      var earlier := ProcessUpTo(db, scan, grace, nowMs, n - 1);
      if IsMissing(db.tables, scan, n - 1) then ProcessMissing(earlier, scan, grace, nowMs, n - 1) else earlier
  }

  function CloseGeneration(tables: SourceTables, scan: SourceScan): SourceTables
    requires scan.sourceId in tables.sources
  {
    tables.(sources := tables.sources[scan.sourceId :=
                         tables.sources[scan.sourceId].(lastCompleteGeneration := scan.generation)],
            observations := map key | key in tables.observations
                                && !(key.0 == scan.sourceId && tables.observations[key].lastSeenGeneration < scan.generation)
                              :: tables.observations[key])
  }

  function CompleteSourceScan(db: Db, scan: SourceScan, grace: Option<TombstoneGrace>, nowMs: Millis)
    : (Db, Result<(), CatalogError>)
  {
    if !IsCurrentScan(db.tables, scan) then (db, Err(SourceScanConflict))
    else
      var processed := if grace.None? then db
                       else ProcessUpTo(db, scan, grace.value, nowMs, |db.store.records|);
      (processed.(tables := CloseGeneration(processed.tables, scan)), Ok(()))
  }

  // ---------- Scrubbing ----------

  function ScrubProgress(tables: SourceTables, sourceId: SourceId): ScrubRow {
    if sourceId in tables.scrubs then tables.scrubs[sourceId] else ScrubRow(None, 0, None)
  }

  function AdvanceSourceScrub(db: Db, sourceId: SourceId, nextAfter: Option<LogicalLocation>, nowMs: Millis)
    : (Db, Result<(), CatalogError>)
  {
    if sourceId !in db.tables.sources then (db, Err(SourceScanConflict))
    else
      var prior := ScrubProgress(db.tables, sourceId);
      var row := if nextAfter.Some? then prior.(cursor := nextAfter)
                 else ScrubRow(None, prior.completedCycles + 1, Some(nowMs));
      (db.(tables := db.tables.(scrubs := db.tables.scrubs[sourceId := row])), Ok(()))
  }

  /** A scrub updates only records its source owns, and touches neither presence nor candidacy. */
  function ScrubOwns(db: Db, sourceId: SourceId, identity: RecordIdentity): bool {
    var found := FindRecord(db.store.records, identity);
    found.Some? && found.value in db.tables.owners && db.tables.owners[found.value].sourceId == sourceId
  }

  // ---------- Runs over the whole database ----------

  datatype DbOp =
    | OnStore(op: Op)
    | BeginScan(registration: SourceRegistration)
    | ObserveFingerprint(scan: SourceScan, location: LogicalLocation, fingerprint: SourceFingerprint)
    | MarkHashed(scan: SourceScan, location: LogicalLocation)
    | MarkSeen(scan: SourceScan, registration: SourceRegistration, identity: RecordIdentity)
    | CompleteScan(scan: SourceScan, grace: Option<TombstoneGrace>, nowMs: Millis)
    | AdvanceScrub(sourceId: SourceId, nextAfter: Option<LogicalLocation>, nowMs: Millis)
    | ObserveScrubbed(sourceId: SourceId, identity: RecordIdentity, location: LogicalLocation,
                      revision: CanonicalRevision, nowMs: Millis)

  function ApplyDb(db: Db, op: DbOp): Db {
    match op
    case OnStore(storeOp) => db.(store := Apply(db.store, storeOp))
    case BeginScan(registration) => BeginSourceScan(db, registration).0
    case ObserveFingerprint(scan, location, fingerprint) => ObserveSourceFingerprint(db, scan, location, fingerprint).0
    case MarkHashed(scan, location) => MarkSourceFingerprintHashed(db, scan, location).0
    case MarkSeen(scan, registration, identity) => MarkSourceRecordSeen(db, scan, registration, identity).0
    case CompleteScan(scan, grace, nowMs) => CompleteSourceScan(db, scan, grace, nowMs).0
    case AdvanceScrub(sourceId, nextAfter, nowMs) => AdvanceSourceScrub(db, sourceId, nextAfter, nowMs).0
    case ObserveScrubbed(sourceId, identity, location, revision, nowMs) =>
      if ScrubOwns(db, sourceId, identity)
      then db.(store := ObservePresent(db.store, identity, location, revision, nowMs)) else db
  }

  function RunDb(db: Db, ops: seq<DbOp>): Db
    decreases |ops|
  {
    if ops == [] then db else RunDb(ApplyDb(db, ops[0]), ops[1..])
  }

  // ---------- Every source transaction is a run of store transactions ----------

  /** The tombstones a completion commits among the first `n` records, as store transactions. */
  function TombstonesUpTo(db: Db, scan: SourceScan, grace: TombstoneGrace, nowMs: Millis, n: nat): seq<Op>
    requires n <= |db.store.records|
  {
    if n == 0 then []
    else
      TombstonesUpTo(db, scan, grace, nowMs, n - 1) +
      if CrossesAt(db, scan, grace, nowMs, n - 1)
      then [Tombstone(db.store.records[n - 1].identity, nowMs)] else []
  }

  function StoreOps(db: Db, op: DbOp): seq<Op> {
    match op
    case OnStore(storeOp) => [storeOp]
    case CompleteScan(scan, grace, nowMs) =>
      if IsCurrentScan(db.tables, scan) && grace.Some?
      then TombstonesUpTo(db, scan, grace.value, nowMs, |db.store.records|) else []
    case ObserveScrubbed(sourceId, identity, location, revision, nowMs) =>
      if ScrubOwns(db, sourceId, identity) then [Observe(identity, location, revision, nowMs)] else []
    case _ => []
  }

  function StoreTrace(db: Db, ops: seq<DbOp>): seq<Op>
    decreases |ops|
  {
    if ops == [] then [] else StoreOps(db, ops[0]) + StoreTrace(ApplyDb(db, ops[0]), ops[1..])
  }

  lemma {:induction false} RunAppend(s: Store, a: seq<Op>, b: seq<Op>)
    ensures Run(s, a + b) == Run(Run(s, a), b)
    decreases |a|
  {
    if a == [] {
      assert a + b == b;
    } else {
      assert (a + b)[1..] == a[1..] + b;
      RunAppend(Apply(s, a[0]), a[1..], b);
    }
  }

  /** The first records processed leave the later candidates alone, and every identity where it was. */
  lemma {:induction false} ProcessUpToFrame(db: Db, scan: SourceScan, grace: TombstoneGrace, nowMs: Millis, n: nat)
    requires n <= |db.store.records|
    ensures var t := ProcessUpTo(db, scan, grace, nowMs, n);
            && (forall q :: n <= q < |db.store.records| ==> t.store.records[q] == db.store.records[q])
            && (forall q :: 0 <= q < |db.store.records| ==> t.store.records[q].identity == db.store.records[q].identity)
            && (forall q :: n <= q ==> (q in t.tables.missing <==> q in db.tables.missing))
            && (forall q :: n <= q && q in db.tables.missing ==> t.tables.missing[q] == db.tables.missing[q])
    decreases n
  {
    if n > 0 {
      ProcessUpToFrame(db, scan, grace, nowMs, n - 1);
    }
  }

  lemma ProcessUpToNext(db: Db, scan: SourceScan, grace: TombstoneGrace, nowMs: Millis, n: nat)
    requires 0 < n <= |db.store.records|
    ensures var earlier := ProcessUpTo(db, scan, grace, nowMs, n - 1);
            && ProcessUpTo(db, scan, grace, nowMs, n).store
               == (if CrossesAt(db, scan, grace, nowMs, n - 1)
                   then TombstoneRecord(earlier.store, n - 1, nowMs) else earlier.store)
            && earlier.store.records[n - 1] == db.store.records[n - 1]
  {
    ProcessUpToFrame(db, scan, grace, nowMs, n - 1);
    var earlier := ProcessUpTo(db, scan, grace, nowMs, n - 1);
    assert CountMissing(earlier.tables, scan, n - 1, nowMs) == CountMissing(db.tables, scan, n - 1, nowMs);
  }

  lemma RunSingle(s: Store, op: Op)
    ensures Run(s, [op]) == Apply(s, op)
  {
    assert Run(s, [op]) == Run(Apply(s, op), []);
  }

  lemma TombstoneByIdentity(s: Store, ops: seq<Op>, mid: Store, r: RecordId, identity: RecordIdentity, nowMs: Millis)
    requires mid == Run(s, ops) && LedgerInv(mid)
    requires r < |mid.records| && mid.records[r].identity == identity
    ensures TombstoneRecord(mid, r, nowMs) == Run(s, ops + [Tombstone(identity, nowMs)])
    ensures LedgerInv(TombstoneRecord(mid, r, nowMs))
  {
    RunAppend(s, ops, [Tombstone(identity, nowMs)]);
    RunSingle(mid, Tombstone(identity, nowMs));
    FindKnown(mid, r);
    TombstoneKeepsLedger(mid, r, nowMs);
  }

  lemma {:induction false} ProcessUpToKeepsLedger(db: Db, scan: SourceScan, grace: TombstoneGrace, nowMs: Millis, n: nat)
    requires LedgerInv(db.store) && n <= |db.store.records|
    ensures LedgerInv(ProcessUpTo(db, scan, grace, nowMs, n).store)
    decreases n
  {
    if n > 0 {
      ProcessUpToKeepsLedger(db, scan, grace, nowMs, n - 1);
      ProcessUpToNext(db, scan, grace, nowMs, n);
      TombstoneKeepsLedger(ProcessUpTo(db, scan, grace, nowMs, n - 1).store, n - 1, nowMs);
    }
  }

  lemma {:induction false} ProcessUpToIsRun(db: Db, scan: SourceScan, grace: TombstoneGrace, nowMs: Millis, n: nat)
    requires LedgerInv(db.store) && n <= |db.store.records|
    ensures ProcessUpTo(db, scan, grace, nowMs, n).store == Run(db.store, TombstonesUpTo(db, scan, grace, nowMs, n))
    decreases n
  {
    if n > 0 {
      var ops := TombstonesUpTo(db, scan, grace, nowMs, n - 1);
      ProcessUpToIsRun(db, scan, grace, nowMs, n - 1);
      ProcessUpToNext(db, scan, grace, nowMs, n);
      if CrossesAt(db, scan, grace, nowMs, n - 1) {
        ProcessUpToKeepsLedger(db, scan, grace, nowMs, n - 1);
        TombstoneByIdentity(db.store, ops, ProcessUpTo(db, scan, grace, nowMs, n - 1).store, n - 1,
                            db.store.records[n - 1].identity, nowMs);
      } else {
        assert TombstonesUpTo(db, scan, grace, nowMs, n) == ops;
      }
    }
  }

  lemma ApplyDbIsStoreRun(db: Db, op: DbOp)
    requires LedgerInv(db.store)
    ensures ApplyDb(db, op).store == Run(db.store, StoreOps(db, op))
  {
    match op
    case OnStore(storeOp) => RunSingle(db.store, storeOp);
    case CompleteScan(scan, grace, nowMs) =>
      if grace.Some? {
        ProcessUpToIsRun(db, scan, grace.value, nowMs, |db.store.records|);
      }
    case ObserveScrubbed(sourceId, identity, location, revision, nowMs) =>
      RunSingle(db.store, Observe(identity, location, revision, nowMs));
    case _ =>
  }

  /** Whatever sources do, the ledger and the queue only see a run of their own transactions. */
  lemma {:induction false} SourceRunsAreStoreRuns(db: Db, ops: seq<DbOp>)
    requires LedgerInv(db.store)
    ensures RunDb(db, ops).store == Run(db.store, StoreTrace(db, ops))
    ensures LedgerInv(RunDb(db, ops).store)
    decreases |ops|
  {
    if ops != [] {
      ApplyDbIsStoreRun(db, ops[0]);
      RunKeepsLedger(db.store, StoreOps(db, ops[0]));
      SourceRunsAreStoreRuns(ApplyDb(db, ops[0]), ops[1..]);
      RunAppend(db.store, StoreOps(db, ops[0]), StoreTrace(ApplyDb(db, ops[0]), ops[1..]));
    }
  }

  /** So every invariant of the ledger and of the delivery queue holds in every state of the whole database. */
  lemma ReachableDatabasesAreSound(ops: seq<DbOp>)
    ensures StoreInv(RunDb(EMPTY_DB, ops).store)
  {
    SourceRunsAreStoreRuns(EMPTY_DB, ops);
    RunKeepsStore(EMPTY_STORE, StoreTrace(EMPTY_DB, ops));
  }
}
