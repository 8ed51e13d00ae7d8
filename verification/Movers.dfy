/**
 * Two short histories that strand a file: it is swept at home and moves away, the move is noticed by a sweep that crashes
 * after its first commit, or by a scrub, and the file moves back before any sweep completes.
 */
module Movers {
  import opened Wrappers
  import opened Domain
  import opened Ledger
  import opened Sources
  import opened Files
  import opened Scan
  import opened Honesty
  import opened Crashes
  import opened Converge
  import opened Visits
  import opened Convergence
  import opened Stranding
  import opened Quiescence

  // ---------- What a sweep of one file leaves ----------

  lemma BeginningIsSound(db: Db, registration: SourceRegistration)
    requires Sound(db, registration)
    ensures var (begun, started) := BeginSourceScan(db, registration);
            && started == Ok(NextScan(db, registration)) && Sound(begun, registration)
            && IsCurrentScan(begun.tables, started.value)
            && begun.tables.observations == db.tables.observations
  {
  }

  lemma OnlyCandidate(config: SourceConfig, world: World, f: FileCandidate, candidates: seq<Candidate>)
    requires CandidatesAre(config, world, {f}, candidates) && IsRecord(world, f)
    ensures |candidates| == 1 && candidates[0].file == f
  {
    assert FoundIn(candidates, f);
    assert candidates[0].file == f && candidates[|candidates| - 1].file == f;
  }

  // ---------- One file ----------

  const PRINT := SourceFingerprint(8, 0, 0, None, Some(1))
  const HOME := FileCandidate(LogicalLocation("sessions", "home"), PRINT)
  const AWAY := FileCandidate(LogicalLocation("sessions", "away"), PRINT)
  const SESSION := RecordIdentity(0, "agent", "session", "transcript", "key")
  const REVISION := CanonicalRevision(8, [])

  /** Wherever the file goes it keeps its fingerprint, its record and its bytes. */
  const ONE_FILE := World((l, f) => if f == PRINT then Some((SESSION, REVISION)) else None, (l, f) => true)

  const CONFIG: SourceConfig := ConfigFields(SourceRegistration("source", 0, "codex-rollout", 1), None, 1, 100, None)

  /** A sweep that meets one file and nothing else. */
  function PassOver(f: FileCandidate): ScanPass {
    var parse := ParseOf(ONE_FILE, f);
    ScanPass(true, Some([ScanEntry(f, First(PRINT, parse), Second(PRINT, parse, Hashed(REVISION, PRINT)), 0)]), true, 0)
  }

  lemma PassOverIsQuiet(f: FileCandidate)
    requires f.fingerprint == PRINT
    ensures Quiet(CONFIG, ONE_FILE, {f}, PassOver(f)) && WellFormed(ONE_FILE, {f})
    ensures Wanted(CONFIG, ONE_FILE, {f}) == {f}
  {
    assert QuietEntry(CONFIG, ONE_FILE, PassOver(f).listing.value[0]);
    assert PassOver(f).listing.value[0].file == f;
  }

  /** A scrub visit that reads the file where it is. */
  function VisitTo(f: FileCandidate): DbOp { ObserveScrubbed("source", SESSION, f.location, REVISION, 0) }

  /** The file was swept at home; it went away, and the sweep that found it there crashed after its first commit. */
  const CRASHED_AWAY: seq<Past> := [Ran(PassOver(HOME)), CrashedLate(PassOver(AWAY), 1, BetweenCommits)]

  /** The file was swept at home; it went away, and a scrub visited it there. */
  const SCRUBBED_AWAY: seq<Past> := [Ran(PassOver(HOME)), Scrubbed(VisitTo(AWAY))]

  /**
   * With the file back home unchanged, sweep after sweep succeeds, and one would have been enough; yet the file is only
   * active as read if a scrub has mended it, as a single visit at once would have done.
   */
  predicate StrandsHome(db: Db, steps: seq<Past>) {
    && Wanted(CONFIG, ONE_FILE, {HOME}) == {HOME} && CONFIG.minObservations - 1 + |{HOME}| == 1
    && AllSucceed(db, CONFIG, steps) && Stranded(db, CONFIG, ONE_FILE, HOME)
    && (ActiveAsRead(Happened(db, CONFIG, steps).store, ONE_FILE, HOME) ==> Mended(db, CONFIG, ONE_FILE, steps, HOME))
    && Mended(db, CONFIG, ONE_FILE, [Scrubbed(VisitTo(HOME))], HOME)
  }

  lemma SweptAtHome() returns (db: Db)
    ensures db == ScanOnce(EMPTY_DB, CONFIG, PassOver(HOME)).db
    ensures Honest(db, CONFIG.registration, ONE_FILE)
    ensures Admitted(db, CONFIG.registration.sourceId, HOME)
    ensures Settled(db.store, ONE_FILE, HOME.location, PRINT)
    ensures ScrubOwns(db, CONFIG.registration.sourceId, SESSION)
  {
    db := ScanOnce(EMPTY_DB, CONFIG, PassOver(HOME)).db;
    var pass := PassOver(HOME);
    PassOverIsQuiet(HOME);
    NewDatabaseIsHonest(CONFIG.registration, ONE_FILE);
    QuietSweepsSucceed(EMPTY_DB, CONFIG, ONE_FILE, {HOME}, pass);
    ScanSweepsOnce(EMPTY_DB, CONFIG, ONE_FILE, {HOME}, pass);
    OneSweepIs(EMPTY_DB, CONFIG, pass);
    assert !Stranded(EMPTY_DB, CONFIG, ONE_FILE, HOME);
    WantedFilesBecomeActive(EMPTY_DB, CONFIG, ONE_FILE, {HOME}, [Ran(pass)]);
    assert HOME in Wanted(CONFIG, ONE_FILE, {HOME}) && HOME !in Pending(db, CONFIG, ONE_FILE, {HOME});
    AdmittedIsSettled(db, CONFIG, ONE_FILE, HOME);
    SweptFilesAreOwned(EMPTY_DB, CONFIG, ONE_FILE, {HOME}, pass, HOME);
  }

  lemma OneSweepIs(db: Db, config: SourceConfig, pass: ScanPass)
    requires Succeeds(db, config, pass)
    ensures Happened(db, config, [Ran(pass)]) == ScanOnce(db, config, pass).db
    ensures PassesOf([Ran(pass)]) == [pass] && AllSucceed(db, config, [Ran(pass)])
  {
    var steps := [Ran(pass)];
    assert steps[..0] == [];
    assert PassesOf(steps[..0]) == [];
  }

  lemma SweepAwayReachesItsCommits(db: Db, pass: ScanPass)
    requires pass == PassOver(AWAY) && Honest(db, CONFIG.registration, ONE_FILE)
    ensures var candidates := CandidatesOf(pass);
            && PassTruthful(CONFIG, ONE_FILE, pass) && Prepare(db, CONFIG, pass).error.None?
            && |candidates| == 1 && QuietCandidate(CONFIG, ONE_FILE, candidates[0]) && candidates[0].file == AWAY
            && (Ready(db, CONFIG, candidates[0]) ==> Prepare(db, CONFIG, pass).accepted != [])
  {
    PassOverIsQuiet(AWAY);
    QuietIsTruthful(CONFIG, ONE_FILE, {AWAY}, pass);
    QuietSweepsSucceed(db, CONFIG, ONE_FILE, {AWAY}, pass);
    ScanKeepsHonesty(db, CONFIG, pass, ONE_FILE);
    QuietlyPrepared(db, CONFIG, ONE_FILE, {AWAY}, pass);
    OnlyCandidate(CONFIG, ONE_FILE, AWAY, CandidatesOf(pass));
  }

  /** The sweep that finds the file away accepts it, and keeps the old fingerprint as it was until it completes. */
  lemma AcceptedAway(db: Db, pass: ScanPass) returns (a: Admission)
    requires pass == PassOver(AWAY) && Honest(db, CONFIG.registration, ONE_FILE)
    requires Admitted(db, CONFIG.registration.sourceId, HOME) && Settled(db.store, ONE_FILE, HOME.location, PRINT)
    ensures var prepared := Prepare(db, CONFIG, pass);
            && PassTruthful(CONFIG, ONE_FILE, pass) && prepared.error.None?
            && Admitted(prepared.db, CONFIG.registration.sourceId, HOME)
            && prepared.accepted != [] && prepared.accepted[0] == a
            && a.record == ParsedRecord(SESSION, AWAY.location)
  {
    SweepAwayReachesItsCommits(db, pass);
    KeptWhilePreparing(db, pass, CandidatesOf(pass));
    if Admitted(db, CONFIG.registration.sourceId, AWAY) {
      AdmittedIsSettled(db, CONFIG, ONE_FILE, AWAY);
    }
    ReadyToCommit(db, CONFIG, pass, ONE_FILE);
    a := Prepare(db, CONFIG, pass).accepted[0];
    assert AdmissionFrom(a, ONE_FILE, CandidatesOf(pass));
  }

  lemma KeptWhilePreparing(db: Db, pass: ScanPass, candidates: seq<Candidate>)
    requires Honest(db, CONFIG.registration, ONE_FILE) && Prepare(db, CONFIG, pass).error.None?
    requires candidates == CandidatesOf(pass) && |candidates| == 1 && candidates[0].file == AWAY
    requires candidates[0].record.location == AWAY.location
    requires Admitted(db, CONFIG.registration.sourceId, HOME)
    ensures Admitted(Prepare(db, CONFIG, pass).db, CONFIG.registration.sourceId, HOME)
  {
    var t, scan := FirstTally(db, CONFIG.registration, pass), NextScan(db, CONFIG.registration);
    PreparedIsObserved(db, CONFIG, pass, ONE_FILE);
    BeginningIsSound(db, CONFIG.registration);
    SeeingCounts(db, t.db, scan.sourceId, HOME);
    ObservingKeepsAdmitted(t, ObserveOne(t, scan, CONFIG, candidates[0]), scan, CONFIG, candidates[0], HOME);
    assert ObserveUpTo(t, scan, CONFIG, candidates, 1) == ObserveOne(t, scan, CONFIG, candidates[0]);
  }

  lemma DisplacedIsStranded(before: Db, t: Db, scan: SourceScan, a: Admission)
    requires scan.sourceId == CONFIG.registration.sourceId && Admitted(before, scan.sourceId, HOME)
    requires a.record == ParsedRecord(SESSION, AWAY.location)
    requires OnlyAdmits(before, t, scan) && DisplacedExactly(before, t.store, scan.sourceId, ONE_FILE, [a])
    ensures Stranded(t, CONFIG, ONE_FILE, HOME)
  {
    var key := (scan.sourceId, HOME.location);
    assert [a][0] == a && Displaces(before, ONE_FILE, a, key);
    assert !LeftInPlace(before, ONE_FILE, [a], key);
  }

  lemma AfterFirstCommit(db: Db, config: SourceConfig, pass: ScanPass)
    requires Prepare(db, config, pass).error.None? && Prepare(db, config, pass).accepted != []
    ensures var prepared := Prepare(db, config, pass);
            CrashedCommits(db, config, pass, 1, BetweenCommits)
            == CommitUpTo(prepared.db, NextScan(db, config.registration), config.registration, prepared.accepted, 1).db
  {
  }

  lemma FirstCommitStrands(before: Db, scan: SourceScan, candidates: seq<Candidate>, accepted: seq<Admission>)
    requires scan.sourceId == CONFIG.registration.sourceId && Admitted(before, scan.sourceId, HOME)
    requires accepted != [] && accepted[0].record == ParsedRecord(SESSION, AWAY.location)
    requires AllTruthful(CONFIG, ONE_FILE, candidates) && !DuplicateIdentity(candidates)
    requires AdmissionsFrom(accepted, ONE_FILE, candidates) && Trusted(before, scan.sourceId, ONE_FILE)
    requires Sweeping(before, scan, CONFIG.registration, candidates, |candidates|)
    ensures var t := CommitUpTo(before, scan, CONFIG.registration, accepted, 1).db;
            && Sound(t, CONFIG.registration) && Stranded(t, CONFIG, ONE_FILE, HOME)
            && ScrubOwns(t, CONFIG.registration.sourceId, SESSION)
  {
    CommitsDisplace(before, scan, CONFIG, ONE_FILE, candidates, accepted, 1);
    assert accepted[..1] == [accepted[0]];
    DisplacedIsStranded(before, CommitUpTo(before, scan, CONFIG.registration, accepted, 1).db, scan, accepted[0]);
    FirstCommitOwns(before, scan, candidates, accepted);
  }

  lemma FirstCommitOwns(before: Db, scan: SourceScan, candidates: seq<Candidate>, accepted: seq<Admission>)
    requires scan.sourceId == CONFIG.registration.sourceId
    requires accepted != [] && accepted[0].record == ParsedRecord(SESSION, AWAY.location)
    requires AllTruthful(CONFIG, ONE_FILE, candidates) && !DuplicateIdentity(candidates)
    requires AdmissionsFrom(accepted, ONE_FILE, candidates) && Trusted(before, scan.sourceId, ONE_FILE)
    requires Sweeping(before, scan, CONFIG.registration, candidates, |candidates|)
    ensures ScrubOwns(CommitUpTo(before, scan, CONFIG.registration, accepted, 1).db, CONFIG.registration.sourceId, SESSION)
  {
    var a := accepted[0];
    var us := CommitsUpTo(before, scan, CONFIG.registration, accepted, 1);
    assert AdmissionFrom(a, ONE_FILE, candidates);
    assert CommitFollows(us[0], us[1], scan, CONFIG.registration, a);
    CommitStep(us, before, scan, CONFIG, ONE_FILE, candidates, accepted, 0);
    CommitStores(us[0], us[1], scan, CONFIG, ONE_FILE, candidates, a);
    ObservationTakesEffect(before.store, SESSION, AWAY.location, a.revision, a.commitMs);
    var i :| 0 <= i < |candidates| && a.record == candidates[i].record;
    SeenIsOwned(us[1].db, scan, CONFIG.registration, candidates, i);
  }

  lemma CrashStrands(db: Db, pass: ScanPass)
    requires pass == PassOver(AWAY) && Honest(db, CONFIG.registration, ONE_FILE)
    requires Admitted(db, CONFIG.registration.sourceId, HOME) && Settled(db.store, ONE_FILE, HOME.location, PRINT)
    ensures var t := CrashedCommits(db, CONFIG, pass, 1, BetweenCommits);
            && Sound(t, CONFIG.registration) && Stranded(t, CONFIG, ONE_FILE, HOME)
            && ScrubOwns(t, CONFIG.registration.sourceId, SESSION)
  {
    var scan, prepared := NextScan(db, CONFIG.registration), Prepare(db, CONFIG, pass);
    var _ := AcceptedAway(db, pass);
    ReadyToCommit(db, CONFIG, pass, ONE_FILE);
    FirstCommitStrands(prepared.db, scan, CandidatesOf(pass), prepared.accepted);
    AfterFirstCommit(db, CONFIG, pass);
  }

  lemma HistoriesAre(swept: Db)
    requires swept == ScanOnce(EMPTY_DB, CONFIG, PassOver(HOME)).db
    ensures Happened(EMPTY_DB, CONFIG, CRASHED_AWAY) == CrashedCommits(swept, CONFIG, PassOver(AWAY), 1, BetweenCommits)
    ensures Happened(EMPTY_DB, CONFIG, SCRUBBED_AWAY) == ApplyDb(swept, VisitTo(AWAY))
    ensures EachTruthful(CONFIG, ONE_FILE, CRASHED_AWAY) && EachTruthful(CONFIG, ONE_FILE, SCRUBBED_AWAY)
  {
    PassOverIsQuiet(HOME);
    PassOverIsQuiet(AWAY);
    QuietIsTruthful(CONFIG, ONE_FILE, {HOME}, PassOver(HOME));
    QuietIsTruthful(CONFIG, ONE_FILE, {AWAY}, PassOver(AWAY));
    assert CRASHED_AWAY[..1] == [Ran(PassOver(HOME))] && SCRUBBED_AWAY[..1] == [Ran(PassOver(HOME))];
    assert [Ran(PassOver(HOME))][..0] == [];
    assert Happened(EMPTY_DB, CONFIG, [Ran(PassOver(HOME))]) == swept;
  }

  lemma StrandedAtHome(db: Db, steps: seq<Past>)
    requires Sound(db, CONFIG.registration) && Stranded(db, CONFIG, ONE_FILE, HOME)
    requires ScrubOwns(db, CONFIG.registration.sourceId, SESSION)
    requires EachQuiet(CONFIG, ONE_FILE, {HOME}, steps)
    ensures StrandsHome(db, steps)
  {
    PassOverIsQuiet(HOME);
    WellFormedSweepsSucceed(db, CONFIG, ONE_FILE, {HOME}, steps);
    StrandedUntilMended(db, CONFIG, ONE_FILE, {HOME}, steps, HOME);
    if !Mended(db, CONFIG, ONE_FILE, steps, HOME) {
      StrandedForGood(db, CONFIG, ONE_FILE, {HOME}, steps, HOME);
    }
    var visits := [Scrubbed(VisitTo(HOME))];
    assert visits[..0] == [] && MendedBy(Happened(db, CONFIG, visits[..0]), CONFIG, ONE_FILE, visits[0], HOME);
  }

  lemma OneCrashStrandsTheFile(steps: seq<Past>)
    requires EachQuiet(CONFIG, ONE_FILE, {HOME}, steps)
    ensures EachTruthful(CONFIG, ONE_FILE, CRASHED_AWAY)
    ensures StrandsHome(Happened(EMPTY_DB, CONFIG, CRASHED_AWAY), steps)
  {
    var swept := SweptAtHome();
    CrashStrands(swept, PassOver(AWAY));
    HistoriesAre(swept);
    StrandedAtHome(Happened(EMPTY_DB, CONFIG, CRASHED_AWAY), steps);
  }

  lemma VisitStrands(db: Db)
    requires Honest(db, CONFIG.registration, ONE_FILE) && ScrubOwns(db, CONFIG.registration.sourceId, SESSION)
    requires Admitted(db, CONFIG.registration.sourceId, HOME) && Settled(db.store, ONE_FILE, HOME.location, PRINT)
    ensures var t := ApplyDb(db, VisitTo(AWAY));
            && Sound(t, CONFIG.registration) && Stranded(t, CONFIG, ONE_FILE, HOME)
            && ScrubOwns(t, CONFIG.registration.sourceId, SESSION)
  {
    var t := ApplyDb(db, VisitTo(AWAY));
    OwnOpKeepsSound(db, VisitTo(AWAY), CONFIG.registration);
    ScrubTouchesNoObservation(db, VisitTo(AWAY));
    SeeingCounts(db, t, CONFIG.registration.sourceId, HOME);
    ObservationMatters(db.store, ONE_FILE, HOME.location, PRINT, Admission(ParsedRecord(SESSION, AWAY.location), REVISION, 0));
    VisitAddsNone(db, VisitTo(AWAY));
    SameOwner(db, t, CONFIG.registration.sourceId, SESSION);
  }

  lemma OneScrubStrandsTheFile(steps: seq<Past>)
    requires EachQuiet(CONFIG, ONE_FILE, {HOME}, steps)
    ensures EachTruthful(CONFIG, ONE_FILE, SCRUBBED_AWAY)
    ensures StrandsHome(Happened(EMPTY_DB, CONFIG, SCRUBBED_AWAY), steps)
  {
    var swept := SweptAtHome();
    VisitStrands(swept);
    HistoriesAre(swept);
    StrandedAtHome(Happened(EMPTY_DB, CONFIG, SCRUBBED_AWAY), steps);
  }
}
