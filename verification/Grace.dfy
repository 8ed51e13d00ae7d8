/** Absence becomes a tombstone exactly when the configured grace has run out. */
module Grace {
  import opened Wrappers
  import opened Domain
  import opened Tables
  import opened Ledger
  import opened Sources

  // ---------- The history of one record, kept apart from the tables ----------

  /**
   * Who first saw the record, in which generations it was seen, and the times of the guarded completions that
   * missed it since it was last seen or last ran out of grace.
   */
  datatype History = History(owner: Option<SourceId>, seenIn: set<nat>, misses: seq<Millis>)

  const NO_HISTORY := History(None, {}, [])

  /** The record was seen: the transaction that says so names its identity and is accepted. */
  predicate Sees(db: Db, op: DbOp, r: RecordId) {
    && op.MarkSeen? && MarkSourceRecordSeen(db, op.scan, op.registration, op.identity).1.Ok?
    && FindRecord(db.store.records, op.identity) == Some(r)
  }

  /** A guarded completion of the record's source, for a generation in which nobody saw it. */
  predicate Misses(db: Db, h: History, op: DbOp) {
    && op.CompleteScan? && op.grace.Some? && CompleteSourceScan(db, op.scan, op.grace, op.nowMs).1.Ok?
    && h.owner == Some(op.scan.sourceId) && op.scan.generation !in h.seenIn
  }

  /** So many milliseconds have passed since, as far as 63 bits can tell. */
  predicate WaitedOut(grace: TombstoneGrace, sinceMs: Millis, nowMs: Millis) {
    grace.minElapsedMs <= I64_MAX && (grace.minElapsedMs == 0 || sinceMs + grace.minElapsedMs <= nowMs)
  }

  /** Enough completions missed the record, and the first of them is long enough ago. */
  predicate OutOfGrace(misses: seq<Millis>, grace: TombstoneGrace, nowMs: Millis)
    requires misses != []
  {
    |misses| >= grace.minCompleteScans && WaitedOut(grace, misses[0], nowMs)
  }

  function Remember(db: Db, h: History, op: DbOp, r: RecordId): History {
    if Sees(db, op, r) then History(Some(op.scan.sourceId), h.seenIn + {op.scan.generation}, [])
    else if Misses(db, h, op) then
      var misses := h.misses + [op.nowMs];
      h.(misses := if OutOfGrace(misses, op.grace.value, op.nowMs) then [] else misses)
    else h
  }

  function HistoryOf(db: Db, h: History, ops: seq<DbOp>, r: RecordId): History
    decreases |ops|
  {
    if ops == [] then h else HistoryOf(ApplyDb(db, ops[0]), Remember(db, h, ops[0], r), ops[1..], r)
  }

  // ---------- The tables agree with the history ----------

  predicate TablesOk(db: Db) {
    && (forall r :: r in db.tables.owners ==> r < |db.store.records|)
    && (forall r :: r in db.tables.missing ==> r in db.tables.owners)
  }

  predicate Agrees(db: Db, h: History, r: RecordId) {
    && (r in db.tables.owners <==> h.owner.Some?)
    && (h.owner.None? ==> h.seenIn == {})
    && (r in db.tables.owners ==>
          var owner := db.tables.owners[r];
          && owner.sourceId == h.owner.value && owner.sourceId in db.tables.sources
          && owner.lastSeenGeneration in h.seenIn
          && owner.lastSeenGeneration <= db.tables.sources[owner.sourceId].nextGeneration
          && forall g :: g in h.seenIn ==> g <= owner.lastSeenGeneration)
    && (r in db.tables.missing <==> h.misses != [])
    && (r in db.tables.missing ==>
          && r in db.tables.owners
          && db.tables.missing[r].completeGuardedScans == |h.misses|
          && db.tables.missing[r].firstMissingAtMs == h.misses[0])
  }

  /** What a completion does to one record, given its owner and candidate rows before it. */
  lemma {:induction false} ProcessUpToAt(db: Db, scan: SourceScan, grace: TombstoneGrace, nowMs: Millis, n: nat, r: RecordId)
    requires n <= |db.store.records| && r < |db.store.records|
    ensures var t := ProcessUpTo(db, scan, grace, nowMs, n);
            var row := CountMissing(db.tables, scan, r, nowMs);
            if r < n && IsMissing(db.tables, scan, r) then
              if GraceMet(row, grace, nowMs) then
                && r !in t.tables.missing
                && t.store.records[r].state == Tombstoned
                && (db.store.records[r].state == Tombstoned ==> t.store.records[r] == db.store.records[r])
              else
                && r in t.tables.missing && t.tables.missing[r] == row
                && t.store.records[r] == db.store.records[r]
            else
              && t.store.records[r] == db.store.records[r]
              && (r in t.tables.missing <==> r in db.tables.missing)
              && (r in t.tables.missing ==> t.tables.missing[r] == db.tables.missing[r])
    decreases n
  {
    if n > 0 {
      ProcessUpToAt(db, scan, grace, nowMs, n - 1, r);
      ProcessUpToFrame(db, scan, grace, nowMs, n - 1);
    }
  }

  function EventsFor(events: seq<ArchiveEvent>, r: RecordId): seq<EventKind> {
    if events == [] then []
    else
      var n := |events| - 1;
      EventsFor(events[..n], r) + if events[n].recordId == r then [events[n].kind] else []
  }

  lemma EventsForAppend(events: seq<ArchiveEvent>, e: ArchiveEvent, r: RecordId)
    ensures EventsFor(events + [e], r) == EventsFor(events, r) + if e.recordId == r then [e.kind] else []
  {
    assert (events + [e])[..|events|] == events;
  }

  /** Tombstoning a record emits one event, for that record, exactly when it was active. */
  lemma TombstoneEmits(s: Store, q: RecordId, nowMs: Millis, from: nat, r: RecordId)
    requires q < |s.records| && from <= |s.events|
    ensures var t := TombstoneRecord(s, q, nowMs);
            && s.events <= t.events
            && EventsFor(t.events[from..], r)
               == EventsFor(s.events[from..], r)
                  + if q == r && s.records[q].state == Active then [RecordTombstoned] else []
  {
    if s.records[q].state == Active {
      var e := NextEvent(s, q, RecordTombstoned, s.records[q].currentRevisionId, s.records[q].location, nowMs);
      assert (s.events + [e])[from..] == s.events[from..] + [e];
      EventsForAppend(s.events[from..], e, r);
    }
  }

  /** The first `n` records processed emitted one tombstone for `r` if it is among them, active and out of grace. */
  predicate EmittedUpTo(db: Db, t: Store, scan: SourceScan, grace: TombstoneGrace, nowMs: Millis, n: nat, r: RecordId)
    requires r < |db.store.records|
  {
    && db.store.events <= t.events
    && EventsFor(t.events[|db.store.events|..], r)
       == if r < n && CrossesAt(db, scan, grace, nowMs, r) && db.store.records[r].state == Active
          then [RecordTombstoned] else []
  }

  lemma EmittedOn(db: Db, earlier: Store, t: Store, scan: SourceScan, grace: TombstoneGrace, nowMs: Millis, n: nat,
                  r: RecordId)
    requires r < |db.store.records| && n < |earlier.records| == |db.store.records|
    requires earlier.records[n] == db.store.records[n]
    requires EmittedUpTo(db, earlier, scan, grace, nowMs, n, r)
    requires t == if CrossesAt(db, scan, grace, nowMs, n) then TombstoneRecord(earlier, n, nowMs) else earlier
    ensures EmittedUpTo(db, t, scan, grace, nowMs, n + 1, r)
  {
    TombstoneEmits(earlier, n, nowMs, |db.store.events|, r);
  }

  lemma {:induction false} ProcessUpToEvents(db: Db, scan: SourceScan, grace: TombstoneGrace, nowMs: Millis, n: nat,
                                             r: RecordId)
    requires n <= |db.store.records| && r < |db.store.records|
    ensures EmittedUpTo(db, ProcessUpTo(db, scan, grace, nowMs, n).store, scan, grace, nowMs, n, r)
    decreases n
  {
    if n == 0 {
      NothingEmitted(db, scan, grace, nowMs, r);
    } else {
      ProcessUpToEvents(db, scan, grace, nowMs, n - 1, r);
      ProcessUpToNext(db, scan, grace, nowMs, n);
      EmittedOn(db, ProcessUpTo(db, scan, grace, nowMs, n - 1).store, ProcessUpTo(db, scan, grace, nowMs, n).store, scan,
                grace, nowMs, n - 1, r);
    }
  }

  lemma NothingEmitted(db: Db, scan: SourceScan, grace: TombstoneGrace, nowMs: Millis, r: RecordId)
    requires r < |db.store.records|
    ensures EmittedUpTo(db, db.store, scan, grace, nowMs, 0, r)
  {
  }

  lemma CompletionAgrees(db: Db, h: History, op: DbOp, r: RecordId)
    requires TablesOk(db) && Agrees(db, h, r) && op.CompleteScan?
    ensures Agrees(ApplyDb(db, op), Remember(db, h, op, r), r)
  {
    if IsCurrentScan(db.tables, op.scan) && op.grace.Some? && r < |db.store.records| {
      ProcessUpToAt(db, op.scan, op.grace.value, op.nowMs, |db.store.records|, r);
    }
    if IsCurrentScan(db.tables, op.scan) && op.grace.Some? && r >= |db.store.records| {
      ProcessUpToFrame(db, op.scan, op.grace.value, op.nowMs, |db.store.records|);
    }
  }

  lemma ApplyDbAgrees(db: Db, h: History, op: DbOp, r: RecordId)
    requires TablesOk(db) && Agrees(db, h, r)
    ensures Agrees(ApplyDb(db, op), Remember(db, h, op, r), r)
  {
    match op
    case CompleteScan(_, _, _) => CompletionAgrees(db, h, op, r);
    case MarkSeen(_, _, _) => SightingAgrees(db, h, op, r);
    case _ =>
  }

  lemma SightingAgrees(db: Db, h: History, op: DbOp, r: RecordId)
    requires TablesOk(db) && Agrees(db, h, r) && op.MarkSeen?
    ensures Agrees(ApplyDb(db, op), Remember(db, h, op, r), r)
  {
  }

  lemma ApplyDbKeepsTables(db: Db, op: DbOp)
    requires LedgerInv(db.store) && TablesOk(db)
    ensures TablesOk(ApplyDb(db, op)) && |db.store.records| <= |ApplyDb(db, op).store.records|
  {
    match op
    case OnStore(storeOp) =>
      RecordsOnlyGrow(db.store, storeOp);
    case CompleteScan(scan, grace, nowMs) =>
      if grace.Some? {
        ProcessUpToOwned(db, scan, grace.value, nowMs, |db.store.records|);
      }
    case ObserveScrubbed(sourceId, identity, location, revision, nowMs) =>
      RecordsOnlyGrow(db.store, Observe(identity, location, revision, nowMs));
    case _ =>
  }

  lemma RecordsOnlyGrow(s: Store, op: Op)
    requires LedgerInv(s)
    ensures |s.records| <= |Apply(s, op).records|
  {
    if op.Observe? {
      ObservationKeepsLedger(s, op.identity, op.location, op.revision, op.nowMs);
    }
  }

  lemma {:induction false} ProcessUpToOwned(db: Db, scan: SourceScan, grace: TombstoneGrace, nowMs: Millis, n: nat)
    requires n <= |db.store.records| && TablesOk(db)
    ensures forall r :: r in ProcessUpTo(db, scan, grace, nowMs, n).tables.missing ==> r in db.tables.owners
    decreases n
  {
    if n > 0 {
      ProcessUpToOwned(db, scan, grace, nowMs, n - 1);
    }
  }

  lemma {:induction false} HistoryAgrees(db: Db, h: History, ops: seq<DbOp>, r: RecordId)
    requires LedgerInv(db.store) && TablesOk(db) && Agrees(db, h, r)
    ensures LedgerInv(RunDb(db, ops).store) && TablesOk(RunDb(db, ops))
    ensures Agrees(RunDb(db, ops), HistoryOf(db, h, ops, r), r)
    decreases |ops|
  {
    if ops != [] {
      ApplyDbAgrees(db, h, ops[0], r);
      ApplyDbKeepsTables(db, ops[0]);
      SourceRunsAreStoreRuns(db, [ops[0]]);
      assert RunDb(db, [ops[0]]) == RunDb(ApplyDb(db, ops[0]), []);
      HistoryAgrees(ApplyDb(db, ops[0]), Remember(db, h, ops[0], r), ops[1..], r);
    }
  }

  /**
   * After any run, completing a scan emits an event for a record exactly when the record is active and this
   * completion is the one that exhausts the grace counted by its history; the event is then the one tombstone.
   */
  lemma TombstoneGraceIsExact(ops: seq<DbOp>, r: RecordId, scan: SourceScan, grace: Option<TombstoneGrace>, nowMs: Millis)
    requires r < |RunDb(EMPTY_DB, ops).store.records|
    ensures var db := RunDb(EMPTY_DB, ops);
            var h := HistoryOf(EMPTY_DB, NO_HISTORY, ops, r);
            var t := ApplyDb(db, CompleteScan(scan, grace, nowMs));
            && db.store.events <= t.store.events
            && (EventsFor(t.store.events[|db.store.events|..], r) ==
                if && db.store.records[r].state == Active
                   && Misses(db, h, CompleteScan(scan, grace, nowMs))
                   && OutOfGrace(h.misses + [nowMs], grace.value, nowMs)
                then [RecordTombstoned] else [])
  {
    HistoryAgrees(EMPTY_DB, NO_HISTORY, ops, r);
    CompletionIsExact(RunDb(EMPTY_DB, ops), HistoryOf(EMPTY_DB, NO_HISTORY, ops, r), r, scan, grace, nowMs);
  }

  lemma CompletionIsExact(db: Db, h: History, r: RecordId, scan: SourceScan, grace: Option<TombstoneGrace>, nowMs: Millis)
    requires Agrees(db, h, r) && r < |db.store.records|
    ensures var t := ApplyDb(db, CompleteScan(scan, grace, nowMs));
            && db.store.events <= t.store.events
            && (EventsFor(t.store.events[|db.store.events|..], r) ==
                if && db.store.records[r].state == Active
                   && Misses(db, h, CompleteScan(scan, grace, nowMs))
                   && OutOfGrace(h.misses + [nowMs], grace.value, nowMs)
                then [RecordTombstoned] else [])
  {
    if IsCurrentScan(db.tables, scan) && grace.Some? {
      ProcessUpToEvents(db, scan, grace.value, nowMs, |db.store.records|, r);
      CandidacyIsHistory(db, h, scan, grace.value, nowMs, r);
    }
  }

  lemma CandidacyIsHistory(db: Db, h: History, scan: SourceScan, grace: TombstoneGrace, nowMs: Millis, r: RecordId)
    requires Agrees(db, h, r) && IsCurrentScan(db.tables, scan)
    ensures IsMissing(db.tables, scan, r) <==> Misses(db, h, CompleteScan(scan, Some(grace), nowMs))
    ensures IsMissing(db.tables, scan, r) ==>
              (GraceMet(CountMissing(db.tables, scan, r, nowMs), grace, nowMs)
               <==> OutOfGrace(h.misses + [nowMs], grace, nowMs))
  {
  }
}
