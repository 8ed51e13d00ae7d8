/** What each transaction of a source does to its tables, column by column, and what it refuses. */
module SourceEffects {
  import opened Wrappers
  import opened Domain
  import opened Tables
  import opened Sources
  import opened Grace

  /** The source's newest generation, still open. */
  predicate Open(db: Db, scan: SourceScan) {
    && scan.sourceId in db.tables.sources
    && var row := db.tables.sources[scan.sourceId];
    scan.generation == row.nextGeneration && row.lastCompleteGeneration < scan.generation
  }

  /** A source is registered once; each sweep of it gets the next generation, and a different registration is refused. */
  lemma BeginningTakesEffect(db: Db, registration: SourceRegistration)
    ensures var (t, r) := BeginSourceScan(db, registration);
            var id, sources := registration.sourceId, db.tables.sources;
            if id in sources && sources[id].registration != registration then t == db && r == Err(SourceRegistrationConflict)
            else
              var generation := if id in sources then sources[id].nextGeneration + 1 else 1;
              var completed := if id in sources then sources[id].lastCompleteGeneration else 0;
              && r == Ok(SourceScan(id, generation))
              && t == db.(tables := db.tables.(sources := sources[id := SourceRow(registration, generation, completed)]))
  {
  }

  /** The same fingerprint once more is counted and keeps its admission; any other starts over, unadmitted. */
  lemma ObservingTakesEffect(db: Db, scan: SourceScan, location: LogicalLocation, fingerprint: SourceFingerprint)
    ensures var (t, r) := ObserveSourceFingerprint(db, scan, location, fingerprint);
            if !Open(db, scan) then t == db && r == Err(SourceScanConflict)
            else
              var key, rows := (scan.sourceId, location), db.tables.observations;
              var again := key in rows && rows[key].fingerprint == fingerprint;
              var count := if again then rows[key].unchangedObservations + 1 else 1;
              var admitted := again && rows[key].hashAdmitted;
              && r == Ok(SourceObservation(count, !admitted))
              && t == db.(tables := db.tables.(observations :=
                        rows[key := ObservationRow(fingerprint, count, admitted, scan.generation)]))
  {
  }

  /** Only a fingerprint seen in the open generation can be admitted. */
  lemma AdmittingTakesEffect(db: Db, scan: SourceScan, location: LogicalLocation)
    ensures var (t, r) := MarkSourceFingerprintHashed(db, scan, location);
            var key, rows := (scan.sourceId, location), db.tables.observations;
            if !Open(db, scan) || key !in rows || rows[key].lastSeenGeneration != scan.generation then
              t == db && r == Err(SourceScanConflict)
            else
              && r == Ok(())
              && t == db.(tables := db.tables.(observations :=
                        rows[key := ObservationRow(rows[key].fingerprint, rows[key].unchangedObservations, true,
                                                   scan.generation)]))
  {
  }

  /** A sighting binds the record, if there is one, and ends its candidacy; another source's record is refused. */
  lemma SeeingTakesEffect(db: Db, scan: SourceScan, registration: SourceRegistration, identity: RecordIdentity)
    ensures var (t, r) := MarkSourceRecordSeen(db, scan, registration, identity);
            var found, owners := FindRecord(db.store.records, identity), db.tables.owners;
            if identity.producerId != registration.producerId then t == db && r == Err(SourceRegistrationConflict)
            else if !Open(db, scan) then t == db && r == Err(SourceScanConflict)
            else if found.None? then t == db && r == Ok(())
            else if found.value in owners && owners[found.value].sourceId != scan.sourceId then
              t == db && r == Err(SourceRegistrationConflict)
            else
              && r == Ok(())
              && t == db.(tables := db.tables.(owners := owners[found.value := OwnerRow(scan.sourceId, scan.generation)],
                                               missing := map q | q in db.tables.missing && q != found.value
                                                            :: db.tables.missing[q]))
  {
    var found := FindRecord(db.store.records, identity);
    if found.Some? {
      assert db.tables.missing - {found.value}
             == map q | q in db.tables.missing && q != found.value :: db.tables.missing[q];
    }
  }

  /** Checked against the generation and the producer before the ledger is touched, and seen only after it. */
  lemma ObservingPresentTakesEffect(db: Db, scan: SourceScan, registration: SourceRegistration, identity: RecordIdentity,
                                    location: LogicalLocation, revision: CanonicalRevision, nowMs: Millis)
    ensures var (t, r) := ObservePresentFromSource(db, scan, registration, identity, location, revision, nowMs);
            if identity.producerId != registration.producerId then t == db && r == Err(SourceRegistrationConflict)
            else if !Open(db, scan) then t == db && r == Err(SourceScanConflict)
            else
              && t.store == ObservePresent(db.store, identity, location, revision, nowMs)
              && (t, r) == MarkSourceRecordSeen(db.(store := t.store), scan, registration, identity)
  {
  }

  // ---------- Completion ----------

  /** Owned by the source, and not seen in this generation. */
  predicate Unseen(db: Db, scan: SourceScan, r: RecordId) {
    && r in db.tables.owners && db.tables.owners[r].sourceId == scan.sourceId
    && db.tables.owners[r].lastSeenGeneration < scan.generation
  }

  /** The misses of this record, this one included, are enough and reach far enough back. */
  predicate GraceRanOut(db: Db, grace: TombstoneGrace, nowMs: Millis, r: RecordId) {
    var count := if r in db.tables.missing then db.tables.missing[r].completeGuardedScans + 1 else 1;
    var first := if r in db.tables.missing then db.tables.missing[r].firstMissingAtMs else nowMs;
    grace.minCompleteScans <= count && WaitedOut(grace, first, nowMs)
  }

  /** What a guarded completion does to record `r`: nothing, one more miss, or a tombstone. */
  predicate Completed(db: Db, t: Db, scan: SourceScan, grace: TombstoneGrace, nowMs: Millis, r: RecordId)
    requires r < |db.store.records|
  {
    && r < |t.store.records|
    && if !Unseen(db, scan, r) then
         && t.store.records[r] == db.store.records[r] && (r in t.tables.missing <==> r in db.tables.missing)
         && (r in db.tables.missing ==> t.tables.missing[r] == db.tables.missing[r])
       else if !GraceRanOut(db, grace, nowMs, r) then
         && t.store.records[r] == db.store.records[r] && r in t.tables.missing
         && t.tables.missing[r] == (if r in db.tables.missing
                                    then MissingRow(scan.sourceId, db.tables.missing[r].firstMissingAtMs,
                                                    db.tables.missing[r].completeGuardedScans + 1)
                                    else MissingRow(scan.sourceId, nowMs, 1))
       else
         && t.store.records[r].state == Tombstoned && r !in t.tables.missing
         && (db.store.records[r].state == Tombstoned ==> t.store.records[r] == db.store.records[r])
  }

  lemma GraceIsPlain(row: MissingRow, grace: TombstoneGrace, nowMs: Millis)
    ensures GraceMet(row, grace, nowMs) <==>
            grace.minCompleteScans <= row.completeGuardedScans && WaitedOut(grace, row.firstMissingAtMs, nowMs)
  {
  }

  /** The generation is closed, what it did not see of the source's observations is dropped, and the rest stands. */
  predicate Closed(db: Db, t: Db, scan: SourceScan) {
    && scan.sourceId in db.tables.sources && scan.sourceId in t.tables.sources
    && t.tables.sources == db.tables.sources[scan.sourceId := t.tables.sources[scan.sourceId]]
    && t.tables.sources[scan.sourceId]
       == SourceRow(db.tables.sources[scan.sourceId].registration, scan.generation, scan.generation)
    && t.tables.owners == db.tables.owners && t.tables.scrubs == db.tables.scrubs
    && t.tables.observations == map key | key in db.tables.observations
                                   && (key.0 != scan.sourceId
                                       || db.tables.observations[key].lastSeenGeneration >= scan.generation)
                                 :: db.tables.observations[key]
  }

  /** Only an open generation can be completed, and completing it closes it. Without guarded deletion nothing else changes. */
  lemma CompletingTakesEffect(db: Db, scan: SourceScan, grace: Option<TombstoneGrace>, nowMs: Millis)
    ensures var (t, r) := CompleteSourceScan(db, scan, grace, nowMs);
            if !Open(db, scan) then t == db && r == Err(SourceScanConflict)
            else
              && r == Ok(()) && Closed(db, t, scan) && |t.store.records| == |db.store.records|
              && (grace.None? ==> t.store == db.store && t.tables.missing == db.tables.missing)
              && (grace.Some? ==> forall q :: 0 <= q < |db.store.records| ==>
                                    Completed(db, t, scan, grace.value, nowMs, q))
  {
    if Open(db, scan) && grace.Some? {
      var t := CompleteSourceScan(db, scan, grace, nowMs).0;
      forall q | 0 <= q < |db.store.records| ensures Completed(db, t, scan, grace.value, nowMs, q) {
        ProcessUpToAt(db, scan, grace.value, nowMs, |db.store.records|, q);
        GraceIsPlain(CountMissing(db.tables, scan, q, nowMs), grace.value, nowMs);
      }
    }
  }

  // ---------- Scrubbing ----------

  /** Moving the cursor, or clearing it, which counts a cycle and its time; an unknown source has no cursor. */
  lemma AdvancingTakesEffect(db: Db, sourceId: SourceId, nextAfter: Option<LogicalLocation>, nowMs: Millis)
    ensures var (t, r) := AdvanceSourceScrub(db, sourceId, nextAfter, nowMs);
            if sourceId !in db.tables.sources then t == db && r == Err(SourceScanConflict)
            else
              var known := sourceId in db.tables.scrubs;
              var cycles := if known then db.tables.scrubs[sourceId].completedCycles else 0;
              var last := if known then db.tables.scrubs[sourceId].lastCompletedAtMs else None;
              && r == Ok(())
              && t == db.(tables := db.tables.(scrubs := db.tables.scrubs[sourceId :=
                        if nextAfter.Some? then ScrubRow(nextAfter, cycles, last) else ScrubRow(None, cycles + 1, Some(nowMs))]))
  {
  }

  /** A scrub observes only a record that exists and that its own source owns. */
  lemma ScrubObservingTakesEffect(db: Db, sourceId: SourceId, identity: RecordIdentity, location: LogicalLocation,
                                  revision: CanonicalRevision, nowMs: Millis)
    ensures var t, found := ApplyDb(db, ObserveScrubbed(sourceId, identity, location, revision, nowMs)),
                            FindRecord(db.store.records, identity);
            if found.Some? && found.value in db.tables.owners && db.tables.owners[found.value].sourceId == sourceId
            then t == db.(store := ObservePresent(db.store, identity, location, revision, nowMs))
            else t == db
  {
  }

  // ---------- Whole runs ----------

  /** Superseded by a newer generation, or completed. */
  predicate Outdated(db: Db, scan: SourceScan) {
    && scan.sourceId in db.tables.sources
    && var row := db.tables.sources[scan.sourceId];
    scan.generation < row.nextGeneration || scan.generation <= row.lastCompleteGeneration
  }

  /** A transaction of this sweep. */
  predicate OfScan(op: DbOp, scan: SourceScan) {
    match op
    case ObserveFingerprint(other, _, _) => other == scan
    case MarkHashed(other, _) => other == scan
    case MarkSeen(other, _, _) => other == scan
    case CompleteScan(other, _, _) => other == scan
    case _ => false
  }

  lemma OutdatedStays(db: Db, op: DbOp, scan: SourceScan)
    requires Outdated(db, scan)
    ensures Outdated(ApplyDb(db, op), scan) && (OfScan(op, scan) ==> ApplyDb(db, op) == db)
  {
  }

  /** Once a sweep is superseded or completed, nothing it tries has any effect, in any later state. */
  lemma {:induction false} OutdatedScansDoNothing(db: Db, ops: seq<DbOp>, scan: SourceScan, op: DbOp)
    requires Outdated(db, scan) && OfScan(op, scan)
    ensures ApplyDb(RunDb(db, ops), op) == RunDb(db, ops)
    decreases |ops|
  {
    if ops == [] {
      OutdatedStays(db, op, scan);
    } else {
      OutdatedStays(db, ops[0], scan);
      OutdatedScansDoNothing(ApplyDb(db, ops[0]), ops[1..], scan, op);
    }
  }

  /** A source keeps its registration for ever, and its generations only grow. */
  predicate SameSource(db: Db, t: Db, id: SourceId)
    requires id in db.tables.sources
  {
    && id in t.tables.sources && t.tables.sources[id].registration == db.tables.sources[id].registration
    && db.tables.sources[id].nextGeneration <= t.tables.sources[id].nextGeneration
  }

  lemma SourceStands(db: Db, op: DbOp, id: SourceId)
    requires id in db.tables.sources
    ensures SameSource(db, ApplyDb(db, op), id)
  {
  }

  lemma {:induction false} RegistrationsStand(db: Db, ops: seq<DbOp>, id: SourceId)
    requires id in db.tables.sources
    ensures SameSource(db, RunDb(db, ops), id)
    decreases |ops|
  {
    if ops != [] {
      SourceStands(db, ops[0], id);
      RegistrationsStand(ApplyDb(db, ops[0]), ops[1..], id);
    }
  }

  /** Whatever happens, a record once bound to a source stays bound to it. */
  lemma {:induction false} OwnersNeverChange(db: Db, ops: seq<DbOp>, r: RecordId)
    requires r in db.tables.owners
    ensures var t := RunDb(db, ops);
            r in t.tables.owners && t.tables.owners[r].sourceId == db.tables.owners[r].sourceId
    decreases |ops|
  {
    if ops != [] {
      OwnerStays(db, ops[0], r);
      OwnersNeverChange(ApplyDb(db, ops[0]), ops[1..], r);
    }
  }

  lemma OwnerStays(db: Db, op: DbOp, r: RecordId)
    requires r in db.tables.owners
    ensures var t := ApplyDb(db, op);
            r in t.tables.owners && t.tables.owners[r].sourceId == db.tables.owners[r].sourceId
  {
  }
}
