/** A successful sweep leaves every file it accepted committed, and its hash admitted. */
module SweepCommits {
  import opened Wrappers
  import opened Domain
  import opened Tables
  import opened Ledger
  import opened Sources
  import opened Scan
  import opened Honesty
  import opened SweepEffects
  import opened SweepReports

  // ---------- What is accepted ----------

  /** Accepted from one of the first `n` candidates. */
  predicate AmongFirst(a: Admission, candidates: seq<Candidate>, n: nat)
    requires n <= |candidates|
  {
    exists i :: 0 <= i < n && a.record == candidates[i].record
  }

  predicate AcceptedApart(accepted: seq<Admission>, candidates: seq<Candidate>, n: nat)
    requires n <= |candidates|
  {
    && (forall k :: 0 <= k < |accepted| ==> AmongFirst(accepted[k], candidates, n))
    && (forall k, l :: 0 <= k < l < |accepted| ==> accepted[k].record.identity != accepted[l].record.identity)
  }

  lemma AcceptingApart(t: Tally, u: Tally, scan: SourceScan, config: SourceConfig, candidates: seq<Candidate>, n: nat)
    requires n < |candidates| && !DuplicateIdentity(candidates) && AcceptedApart(t.accepted, candidates, n)
    requires TallyFollows(t, u, scan, config, candidates[n])
    ensures AcceptedApart(u.accepted, candidates, n + 1)
  {
    forall k | 0 <= k < |t.accepted|
      ensures AmongFirst(t.accepted[k], candidates, n + 1)
      ensures t.accepted[k].record.identity != candidates[n].record.identity
    {
      assert AmongFirst(t.accepted[k], candidates, n);
    }
    AcceptedIsNew(t, scan, config, candidates[n]);
    if u.accepted != t.accepted {
      assert AmongFirst(u.accepted[|t.accepted|], candidates, n + 1);
    }
  }

  /** No two accepted files claim one identity. */
  lemma PreparedApart(db: Db, config: SourceConfig, pass: ScanPass)
    requires Prepare(db, config, pass).error.None?
    ensures AcceptedApart(Prepare(db, config, pass).accepted, CandidatesOf(pass), |CandidatesOf(pass)|)
  {
    var candidates, t := CandidatesOf(pass), FirstTally(db, config.registration, pass);
    var scan := NextScan(db, config.registration);
    PreparedByLoop(db, config, pass);
    var us := TalliesOf(t, scan, config, candidates);
    for n := 0 to |candidates|
      invariant AcceptedApart(us[n].accepted, candidates, n)
    {
      assert TallyFollows(us[n], us[n + 1], scan, config, candidates[n]);
      AcceptingApart(us[n], us[n + 1], scan, config, candidates, n);
    }
  }

  // ---------- What is committed ----------

  /** The record is active where and as accepted, seen in this generation, and its fingerprint admitted. */
  predicate CommittedAs(db: Db, scan: SourceScan, a: Admission) {
    var found, key := FindRecord(db.store.records, a.record.identity), (scan.sourceId, a.record.location);
    && found.Some? && PresentAs(db.store, found.value, a.record.location, a.revision)
    && found.value in db.tables.owners && db.tables.owners[found.value] == OwnerRow(scan.sourceId, scan.generation)
    && key in db.tables.observations && db.tables.observations[key].hashAdmitted
    && db.tables.observations[key].lastSeenGeneration == scan.generation
  }

  /** A commit that does not fail: the observation, the sighting and the admission. */
  predicate CommitsAs(db: Db, t: Db, scan: SourceScan, a: Admission) {
    var found, key := FindRecord(t.store.records, a.record.identity), (scan.sourceId, a.record.location);
    && IsCurrentScan(t.tables, scan) && found.Some?
    && t.store == ObservePresent(db.store, a.record.identity, a.record.location, a.revision, a.commitMs)
    && t.tables.owners == db.tables.owners[found.value := OwnerRow(scan.sourceId, scan.generation)]
    && key in db.tables.observations && db.tables.observations[key].lastSeenGeneration == scan.generation
    && t.tables.observations == AdmitHash(db.tables.observations, key)
  }

  /** Its first part: observed, and then seen. */
  predicate SeenAs(db: Db, t: Db, scan: SourceScan, a: Admission) {
    var found := FindRecord(t.store.records, a.record.identity);
    && IsCurrentScan(t.tables, scan) && found.Some?
    && t.store == ObservePresent(db.store, a.record.identity, a.record.location, a.revision, a.commitMs)
    && t.tables.owners == db.tables.owners[found.value := OwnerRow(scan.sourceId, scan.generation)]
    && t.tables.observations == db.tables.observations
  }

  lemma BindingIs(db: Db, scan: SourceScan, registration: SourceRegistration, identity: RecordIdentity, r: RecordId)
    requires FindRecord(db.store.records, identity) == Some(r)
    requires MarkSourceRecordSeen(db, scan, registration, identity).1.Ok?
    ensures var t := MarkSourceRecordSeen(db, scan, registration, identity).0;
            && IsCurrentScan(t.tables, scan) && t.store == db.store
            && t.tables.owners == db.tables.owners[r := OwnerRow(scan.sourceId, scan.generation)]
            && t.tables.observations == db.tables.observations
  {
  }

  lemma SightingIs(db: Db, scan: SourceScan, registration: SourceRegistration, a: Admission)
    requires ObservePresentFromSource(db, scan, registration, a.record.identity, a.record.location, a.revision,
                                      a.commitMs).1.Ok?
    requires FindRecord(ObservePresent(db.store, a.record.identity, a.record.location, a.revision,
                                       a.commitMs).records, a.record.identity).Some?
    ensures SeenAs(db, ObservePresentFromSource(db, scan, registration, a.record.identity, a.record.location, a.revision,
                                                a.commitMs).0, scan, a)
  {
    var observed := ObservePresent(db.store, a.record.identity, a.record.location, a.revision, a.commitMs);
    BindingIs(db.(store := observed), scan, registration, a.record.identity,
              FindRecord(observed.records, a.record.identity).value);
  }

  lemma AdmissionIs(db: Db, seen: Db, scan: SourceScan, a: Admission)
    requires SeenAs(db, seen, scan, a) && MarkSourceFingerprintHashed(seen, scan, a.record.location).1.Ok?
    ensures CommitsAs(db, MarkSourceFingerprintHashed(seen, scan, a.record.location).0, scan, a)
  {
  }

  lemma CommitIs(t: Commits, u: Commits, scan: SourceScan, registration: SourceRegistration, a: Admission)
    requires CommitFollows(t, u, scan, registration, a) && u.error.None?
    requires FindRecord(ObservePresent(t.db.store, a.record.identity, a.record.location, a.revision,
                                       a.commitMs).records, a.record.identity).Some?
    ensures CommitsAs(t.db, u.db, scan, a)
  {
    var seen := ObservePresentFromSource(t.db, scan, registration, a.record.identity, a.record.location, a.revision,
                                         a.commitMs).0;
    SightingIs(t.db, scan, registration, a);
    AdmissionIs(t.db, seen, scan, a);
  }

  lemma CommitTakesEffect(db: Db, t: Db, scan: SourceScan, a: Admission)
    requires LedgerInv(db.store) && CommitsAs(db, t, scan, a)
    ensures LedgerInv(t.store) && CommittedAs(t, scan, a)
  {
    ObservationTakesEffect(db.store, a.record.identity, a.record.location, a.revision, a.commitMs);
  }

  lemma CommitLeavesOthers(db: Db, t: Db, scan: SourceScan, a: Admission, other: Admission)
    requires LedgerInv(db.store) && CommitsAs(db, t, scan, a)
    requires CommittedAs(db, scan, other) && other.record.identity != a.record.identity
    ensures CommittedAs(t, scan, other)
  {
    ObservationLeavesOthers(db.store, a.record.identity, a.record.location, a.revision, a.commitMs,
                            other.record.identity);
  }

  predicate AllCommitted(db: Db, scan: SourceScan, accepted: seq<Admission>, n: nat)
    requires n <= |accepted|
  {
    forall k :: 0 <= k < n ==> CommittedAs(db, scan, accepted[k])
  }

  lemma NoErrorSoFar(us: seq<Commits>, db: Db, scan: SourceScan, registration: SourceRegistration,
                     accepted: seq<Admission>, n: nat)
    requires CommitRun(us, db, scan, registration, accepted) && n <= |accepted| && us[|accepted|].error.None?
    ensures us[n].error.None?
  {
    for i := |accepted| downto n
      invariant us[i].error.None?
    {
      assert CommitFollows(us[i], us[i + 1], scan, registration, accepted[i]);
    }
  }

  lemma CommitStepIs(us: seq<Commits>, db: Db, scan: SourceScan, registration: SourceRegistration,
                     accepted: seq<Admission>, n: nat)
    requires CommitRun(us, db, scan, registration, accepted) && n < |accepted| && us[|accepted|].error.None?
    requires LedgerInv(us[n].db.store)
    ensures CommitsAs(us[n].db, us[n + 1].db, scan, accepted[n])
  {
    var a := accepted[n];
    NoErrorSoFar(us, db, scan, registration, accepted, n + 1);
    assert CommitFollows(us[n], us[n + 1], scan, registration, a);
    ObservationTakesEffect(us[n].db.store, a.record.identity, a.record.location, a.revision, a.commitMs);
    CommitIs(us[n], us[n + 1], scan, registration, a);
  }

  lemma CommittedOneMore(db: Db, t: Db, scan: SourceScan, accepted: seq<Admission>, n: nat)
    requires n < |accepted| && LedgerInv(db.store) && CommitsAs(db, t, scan, accepted[n])
    requires AllCommitted(db, scan, accepted, n)
    requires forall k :: 0 <= k < n ==> accepted[k].record.identity != accepted[n].record.identity
    ensures LedgerInv(t.store) && AllCommitted(t, scan, accepted, n + 1)
  {
    CommitTakesEffect(db, t, scan, accepted[n]);
    forall k | 0 <= k < n ensures CommittedAs(t, scan, accepted[k]) {
      CommitLeavesOthers(db, t, scan, accepted[n], accepted[k]);
    }
  }

  lemma {:induction false} CommitsAll(db: Db, scan: SourceScan, registration: SourceRegistration,
                                      accepted: seq<Admission>)
    requires LedgerInv(db.store) && CommitUpTo(db, scan, registration, accepted, |accepted|).error.None?
    requires forall k, l :: 0 <= k < l < |accepted| ==> accepted[k].record.identity != accepted[l].record.identity
    ensures var t := CommitUpTo(db, scan, registration, accepted, |accepted|).db;
            LedgerInv(t.store) && AllCommitted(t, scan, accepted, |accepted|)
  {
    var us := CommitsOf(db, scan, registration, accepted);
    for n := 0 to |accepted|
      invariant LedgerInv(us[n].db.store) && AllCommitted(us[n].db, scan, accepted, n)
    {
      CommitStepIs(us, db, scan, registration, accepted, n);
      CommittedOneMore(us[n].db, us[n + 1].db, scan, accepted, n);
    }
  }

  lemma CompletionKeepsCommitted(db: Db, scan: SourceScan, grace: Option<TombstoneGrace>, nowMs: Millis, a: Admission)
    requires LedgerInv(db.store) && IsCurrentScan(db.tables, scan) && CommittedAs(db, scan, a)
    ensures CommittedAs(CompleteSourceScan(db, scan, grace, nowMs).0, scan, a)
  {
    var t := CompleteSourceScan(db, scan, grace, nowMs).0;
    var r := FindRecord(db.store.records, a.record.identity).value;
    CompletionFrame(db, scan, grace, nowMs);
    SeenRecordsStand(db, scan, grace, nowMs, r);
    FindKnown(t.store, r);
  }

  /**
   * After a sweep that succeeds, every file it accepted has its record active where it was found, at the revision that
   * was hashed, owned by the source, and its fingerprint admitted; and the generation is closed.
   */
  lemma SuccessfulSweepsCommitAll(db: Db, config: SourceConfig, pass: ScanPass)
    requires LedgerInv(db.store) && Succeeds(db, config, pass)
    ensures var t, scan := ScanOnce(db, config, pass).db, NextScan(db, config.registration);
            var accepted := Prepare(db, config, pass).accepted;
            && AllCommitted(t, scan, accepted, |accepted|)
            && scan.sourceId in t.tables.sources
            && t.tables.sources[scan.sourceId].lastCompleteGeneration == scan.generation
  {
    var scan, prepared := NextScan(db, config.registration), Prepare(db, config, pass);
    var accepted := prepared.accepted;
    PreparedApart(db, config, pass);
    PreparedKeepsStore(db, config, pass);
    CommitsAll(prepared.db, scan, config.registration, accepted);
    var committed := CommitUpTo(prepared.db, scan, config.registration, accepted, |accepted|).db;
    forall k | 0 <= k < |accepted| ensures CommittedAs(ScanOnce(db, config, pass).db, scan, accepted[k]) {
      CompletionKeepsCommitted(committed, scan, config.grace, pass.completeMs, accepted[k]);
    }
  }

  lemma PreparedKeepsStore(db: Db, config: SourceConfig, pass: ScanPass)
    ensures Prepare(db, config, pass).db.store == db.store
  {
    PreparingOnlyObserves(db, config, pass);
  }
}
