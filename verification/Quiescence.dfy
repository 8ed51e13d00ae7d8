/** What sweeps of an unchanging tree do to the records it does not name, and that in the end they do nothing. */
module Quiescence {
  import opened Wrappers
  import opened Domain
  import opened Tables
  import opened Ledger
  import opened Sources
  import opened Grace
  import opened Files
  import opened Scan
  import opened Honesty
  import opened Crashes
  import opened Converge
  import opened Visits
  import opened Convergence
  import opened Stranding
  import opened SweepRuns

  /** Some file of the tree holds the record with this identity. */
  predicate Named(world: World, tree: set<FileCandidate>, identity: RecordIdentity) {
    exists f :: f in tree && IsRecord(world, f) && world.holds(f.location, f.fingerprint).value.0 == identity
  }

  lemma CandidatesAreNamed(config: SourceConfig, world: World, tree: set<FileCandidate>, candidates: seq<Candidate>, i: nat)
    requires CandidatesAre(config, world, tree, candidates) && i < |candidates|
    ensures Named(world, tree, candidates[i].record.identity)
  {
    assert QuietCandidate(config, world, candidates[i]);
    assert candidates[i].file in tree;
  }

  lemma AdmissionsAreNamed(config: SourceConfig, world: World, tree: set<FileCandidate>, candidates: seq<Candidate>, a: Admission)
    requires CandidatesAre(config, world, tree, candidates) && AdmissionFrom(a, world, candidates)
    ensures Named(world, tree, a.record.identity)
  {
    var i :| 0 <= i < |candidates| && a.record == candidates[i].record;
    CandidatesAreNamed(config, world, tree, candidates, i);
  }

  // ---------- A record the tree does not name ----------

  /** The record, its owner and its candidacy are as they were. */
  predicate LeavesRecord(db: Db, t: Db, r: RecordId) {
    && r < |db.store.records| <= |t.store.records|
    && t.store.records[r] == db.store.records[r]
    && (r in t.tables.owners <==> r in db.tables.owners)
    && (r in db.tables.owners ==> t.tables.owners[r] == db.tables.owners[r])
    && (r in t.tables.missing <==> r in db.tables.missing)
    && (r in db.tables.missing ==> t.tables.missing[r] == db.tables.missing[r])
  }

  lemma ObservingLeavesRecord(t: Tally, u: Tally, scan: SourceScan, config: SourceConfig, c: Candidate, r: RecordId)
    requires TallyFollows(t, u, scan, config, c) && r < |t.db.store.records|
    requires t.db.store.records[r].identity != c.record.identity
    ensures LeavesRecord(t.db, u.db, r)
  {
  }

  lemma SweepLeavesRecord(us: seq<Tally>, t: Tally, scan: SourceScan, config: SourceConfig, candidates: seq<Candidate>,
                          r: RecordId)
    requires Tallies(us, t, scan, config, candidates) && r < |t.db.store.records|
    requires forall i :: 0 <= i < |candidates| ==> t.db.store.records[r].identity != candidates[i].record.identity
    ensures LeavesRecord(t.db, us[|candidates|].db, r)
  {
    for n := 0 to |candidates|
      invariant LeavesRecord(t.db, us[n].db, r)
    {
      assert TallyFollows(us[n], us[n + 1], scan, config, candidates[n]);
      ObservingLeavesRecord(us[n], us[n + 1], scan, config, candidates[n], r);
    }
  }

  /** Marking another identity's record seen leaves this one. */
  lemma SeeingLeavesRecord(db: Db, s: Store, scan: SourceScan, registration: SourceRegistration, identity: RecordIdentity,
                           r: RecordId)
    requires r < |db.store.records| <= |s.records| && s.records[r] == db.store.records[r]
    requires s.records[r].identity != identity
    ensures LeavesRecord(db, MarkSourceRecordSeen(db.(store := s), scan, registration, identity).0, r)
  {
  }

  lemma ObservationKeepsRecord(s: Store, a: Admission, r: RecordId)
    requires LedgerInv(s) && r < |s.records| && s.records[r].identity != a.record.identity
    ensures var t := ObservePresent(s, a.record.identity, a.record.location, a.revision, a.commitMs);
            |s.records| <= |t.records| && t.records[r] == s.records[r]
  {
    FindKnown(s, r);
    ObservationKeepsLedger(s, a.record.identity, a.record.location, a.revision, a.commitMs);
  }

  lemma ObservationLeavesRecord(db: Db, scan: SourceScan, registration: SourceRegistration, a: Admission, r: RecordId)
    requires LedgerInv(db.store) && r < |db.store.records| && db.store.records[r].identity != a.record.identity
    ensures LeavesRecord(db, ObservePresentFromSource(db, scan, registration, a.record.identity, a.record.location,
                                                      a.revision, a.commitMs).0, r)
  {
    ObservationKeepsRecord(db.store, a, r);
    SeeingLeavesRecord(db, ObservePresent(db.store, a.record.identity, a.record.location, a.revision, a.commitMs), scan,
                       registration, a.record.identity, r);
  }

  /** Admitting the hash touches only an observation. */
  lemma CommitTables(t: Commits, scan: SourceScan, registration: SourceRegistration, a: Admission)
    requires t.error.None?
    ensures var u := CommitOne(t, scan, registration, a).db;
            var observed := ObservePresentFromSource(t.db, scan, registration, a.record.identity, a.record.location,
                                                     a.revision, a.commitMs).0;
            u.store == observed.store && u.tables.owners == observed.tables.owners
            && u.tables.missing == observed.tables.missing
  {
  }

  lemma CommittingLeavesRecord(t: Commits, u: Commits, scan: SourceScan, registration: SourceRegistration, a: Admission,
                               r: RecordId)
    requires CommitFollows(t, u, scan, registration, a) && LedgerInv(t.db.store) && r < |t.db.store.records|
    requires t.db.store.records[r].identity != a.record.identity
    ensures LeavesRecord(t.db, u.db, r)
  {
    if t.error.None? {
      ObservationLeavesRecord(t.db, scan, registration, a, r);
      CommitTables(t, scan, registration, a);
    }
  }

  /** Every identity is still where it was, and whatever was added is named by the tree. */
  predicate OnlyNamedAdded(s: Store, t: Store, world: World, tree: set<FileCandidate>) {
    && |s.records| <= |t.records|
    && (forall r :: 0 <= r < |s.records| ==> t.records[r].identity == s.records[r].identity)
    && (forall r :: |s.records| <= r < |t.records| ==> Named(world, tree, t.records[r].identity))
  }

  lemma ObservationAddsNamed(s: Store, world: World, tree: set<FileCandidate>, a: Admission)
    requires LedgerInv(s) && Named(world, tree, a.record.identity)
    ensures OnlyNamedAdded(s, ObservePresent(s, a.record.identity, a.record.location, a.revision, a.commitMs), world, tree)
  {
    ObservationKeepsLedger(s, a.record.identity, a.record.location, a.revision, a.commitMs);
  }

  /** What a sweep's commits leave of a record the tree does not name, and what they add. */
  lemma CommitsLeaveRecord(us: seq<Commits>, db: Db, scan: SourceScan, config: SourceConfig, world: World,
                           tree: set<FileCandidate>, candidates: seq<Candidate>, accepted: seq<Admission>, r: RecordId)
    requires CommitRun(us, db, scan, config.registration, accepted)
    requires CandidatesAre(config, world, tree, candidates) && AdmissionsFrom(accepted, world, candidates)
    requires LedgerInv(db.store) && r < |db.store.records| && !Named(world, tree, db.store.records[r].identity)
    ensures LeavesRecord(db, us[|accepted|].db, r)
  {
    for n := 0 to |accepted|
      invariant LedgerInv(us[n].db.store) && LeavesRecord(db, us[n].db, r)
    {
      assert CommitFollows(us[n], us[n + 1], scan, config.registration, accepted[n]);
      AdmissionsAreNamed(config, world, tree, candidates, accepted[n]);
      CommittingLeavesRecord(us[n], us[n + 1], scan, config.registration, accepted[n], r);
      CommitKeepsLedgerInv(us[n], scan, config.registration, accepted[n]);
    }
  }

  lemma CommitAddsNamed(s: Store, t: Commits, u: Commits, scan: SourceScan, config: SourceConfig, world: World,
                        tree: set<FileCandidate>, a: Admission)
    requires CommitFollows(t, u, scan, config.registration, a) && Named(world, tree, a.record.identity)
    requires LedgerInv(t.db.store) && OnlyNamedAdded(s, t.db.store, world, tree)
    ensures LedgerInv(u.db.store) && OnlyNamedAdded(s, u.db.store, world, tree)
  {
    CommitKeepsLedgerInv(t, scan, config.registration, a);
    CommitStoreIs(t, scan, config.registration, a);
    ObservationAddsNamed(t.db.store, world, tree, a);
    AddsNamedTransitively(s, t.db.store, u.db.store, world, tree);
  }

  lemma AddsNamedTransitively(a: Store, b: Store, c: Store, world: World, tree: set<FileCandidate>)
    requires OnlyNamedAdded(a, b, world, tree) && (c == b || OnlyNamedAdded(b, c, world, tree))
    ensures OnlyNamedAdded(a, c, world, tree)
  {
  }

  lemma CommitsAddNamed(us: seq<Commits>, db: Db, scan: SourceScan, config: SourceConfig, world: World,
                        tree: set<FileCandidate>, candidates: seq<Candidate>, accepted: seq<Admission>)
    requires CommitRun(us, db, scan, config.registration, accepted)
    requires CandidatesAre(config, world, tree, candidates) && AdmissionsFrom(accepted, world, candidates)
    requires LedgerInv(db.store)
    ensures OnlyNamedAdded(db.store, us[|accepted|].db.store, world, tree)
  {
    for n := 0 to |accepted|
      invariant LedgerInv(us[n].db.store) && OnlyNamedAdded(db.store, us[n].db.store, world, tree)
    {
      assert CommitFollows(us[n], us[n + 1], scan, config.registration, accepted[n]);
      AdmissionsAreNamed(config, world, tree, candidates, accepted[n]);
      CommitAddsNamed(db.store, us[n], us[n + 1], scan, config, world, tree, accepted[n]);
    }
  }

  // ---------- A sweep, up to its completion ----------

  lemma LeavesTransitively(a: Db, b: Db, c: Db, r: RecordId)
    requires LeavesRecord(a, b, r) && LeavesRecord(b, c, r)
    ensures LeavesRecord(a, c, r)
  {
  }

  function CommittedSweep(db: Db, config: SourceConfig, pass: ScanPass): Commits {
    var prepared := Prepare(db, config, pass);
    CommitUpTo(prepared.db, NextScan(db, config.registration), config.registration, prepared.accepted,
               |prepared.accepted|)
  }

  /** Up to its completion, a quiet sweep leaves unnamed records alone and only adds named ones. */
  lemma CommittedLeavesRecord(db: Db, config: SourceConfig, world: World, tree: set<FileCandidate>, pass: ScanPass,
                              r: RecordId)
    requires Honest(db, config.registration, world) && Quiet(config, world, tree, pass)
    requires Prepare(db, config, pass).error.None?
    requires r < |db.store.records| && !Named(world, tree, db.store.records[r].identity)
    ensures LeavesRecord(db, CommittedSweep(db, config, pass).db, r)
  {
    var candidates, t := CandidatesOf(pass), FirstTally(db, config.registration, pass);
    var scan, prepared := NextScan(db, config.registration), Prepare(db, config, pass);
    QuietIsTruthful(config, world, tree, pass);
    QuietCandidates(config, world, tree, pass);
    PreparedIsObserved(db, config, pass, world);
    SweptSoFar(db, config, pass, world);
    BeginningSweeps(db, config.registration, world, candidates);
    forall i | 0 <= i < |candidates| ensures db.store.records[r].identity != candidates[i].record.identity {
      CandidatesAreNamed(config, world, tree, candidates, i);
    }
    var us := TalliesOf(t, scan, config, candidates);
    SweepLeavesRecord(us, t, scan, config, candidates, r);
    var cs := CommitsOf(prepared.db, scan, config.registration, prepared.accepted);
    CommitsLeaveRecord(cs, prepared.db, scan, config, world, tree, candidates, prepared.accepted, r);
    LeavesTransitively(db, t.db, prepared.db, r);
    LeavesTransitively(db, prepared.db, cs[|prepared.accepted|].db, r);
  }

  lemma CommittedAddsNamed(db: Db, config: SourceConfig, world: World, tree: set<FileCandidate>, pass: ScanPass)
    requires Honest(db, config.registration, world) && Quiet(config, world, tree, pass)
    requires Prepare(db, config, pass).error.None?
    ensures OnlyNamedAdded(db.store, CommittedSweep(db, config, pass).db.store, world, tree)
  {
    var scan, prepared := NextScan(db, config.registration), Prepare(db, config, pass);
    QuietIsTruthful(config, world, tree, pass);
    QuietCandidates(config, world, tree, pass);
    PreparedIsObserved(db, config, pass, world);
    SweptSoFar(db, config, pass, world);
    var cs := CommitsOf(prepared.db, scan, config.registration, prepared.accepted);
    CommitsAddNamed(cs, prepared.db, scan, config, world, tree, CandidatesOf(pass), prepared.accepted);
  }

  // ---------- Absence turns into a tombstone ----------

  /** What completing at `nowMs` does to a record its generation did not see. */
  predicate Missed(db: Db, t: Db, scan: SourceScan, grace: TombstoneGrace, nowMs: Millis, r: RecordId) {
    var row := CountMissing(db.tables, scan, r, nowMs);
    && r < |db.store.records| <= |t.store.records|
    && t.store.records[r].identity == db.store.records[r].identity
    && (db.store.records[r].state == Tombstoned ==> t.store.records[r].state == Tombstoned)
    && (GraceMet(row, grace, nowMs) ==> t.store.records[r].state == Tombstoned)
    && (!GraceMet(row, grace, nowMs) ==> r in t.tables.missing && t.tables.missing[r] == row)
  }

  lemma CompletionMisses(db: Db, scan: SourceScan, grace: TombstoneGrace, nowMs: Millis, r: RecordId)
    requires LedgerInv(db.store) && IsCurrentScan(db.tables, scan) && IsMissing(db.tables, scan, r)
    requires r < |db.store.records|
    ensures Missed(db, CompleteSourceScan(db, scan, Some(grace), nowMs).0, scan, grace, nowMs, r)
  {
    ProcessUpToAt(db, scan, grace, nowMs, |db.store.records|, r);
    CompletionFrame(db, scan, Some(grace), nowMs);
  }

  /** A successful guarded sweep of the tree misses every record the tree does not name. */
  lemma ScanMisses(db: Db, config: SourceConfig, grace: TombstoneGrace, world: World, tree: set<FileCandidate>,
                   pass: ScanPass, r: RecordId)
    requires Honest(db, config.registration, world) && Quiet(config, world, tree, pass) && Succeeds(db, config, pass)
    requires config.grace == Some(grace) && r in db.tables.owners
    requires r < |db.store.records| && !Named(world, tree, db.store.records[r].identity)
    ensures Missed(db, ScanOnce(db, config, pass).db, NextScan(db, config.registration), grace, pass.completeMs, r)
  {
    var scan, committed := NextScan(db, config.registration), CommittedSweep(db, config, pass);
    QuietIsTruthful(config, world, tree, pass);
    CommittedHonestly(db, config, pass, world);
    CommittedLeavesRecord(db, config, world, tree, pass, r);
    assert db.tables.owners[r].lastSeenGeneration <= Generation(db, config.registration.sourceId);
    CompletionMisses(committed.db, scan, grace, pass.completeMs, r);
    assert CountMissing(committed.db.tables, scan, r, pass.completeMs) == CountMissing(db.tables, scan, r, pass.completeMs);
  }

  /** Tombstoned, or a candidate counted at least `k` times whose first miss is no later than `sinceMs`. */
  predicate Fading(db: Db, r: RecordId, k: nat, sinceMs: Millis) {
    r < |db.store.records| &&
    (|| db.store.records[r].state == Tombstoned
     || (k == 0 && r !in db.tables.missing)
     || (r in db.tables.missing && db.tables.missing[r].completeGuardedScans >= k
         && db.tables.missing[r].firstMissingAtMs <= sinceMs))
  }

  lemma FadingOn(db: Db, t: Db, scan: SourceScan, grace: TombstoneGrace, nowMs: Millis, r: RecordId, k: nat, sinceMs: Millis)
    requires Fading(db, r, k, sinceMs) && Missed(db, t, scan, grace, nowMs, r)
    requires k == 0 ==> nowMs <= sinceMs
    ensures Fading(t, r, k + 1, sinceMs)
    ensures k + 1 >= grace.minCompleteScans && WaitedOut(grace, sinceMs, nowMs) ==>
              t.store.records[r].state == Tombstoned
  {
  }

  /** A visit to a file of the tree leaves a record that the tree does not name. */
  lemma VisitLeavesRecord(db: Db, config: SourceConfig, world: World, tree: set<FileCandidate>, visit: DbOp, r: RecordId)
    requires LedgerInv(db.store) && ScrubWork(visit, config.registration.sourceId) && VisitsTree(world, tree, visit)
    requires r < |db.store.records| && !Named(world, tree, db.store.records[r].identity)
    ensures LeavesRecord(db, ApplyDb(db, visit), r)
  {
    if visit.ObserveScrubbed? {
      var f :| f in tree && VisitOf(world, visit, f);
      var a := Admission(ParsedRecord(visit.identity, visit.location), visit.revision, visit.nowMs);
      assert visit.identity != db.store.records[r].identity;
      ObservationKeepsRecord(db.store, a, r);
    }
  }

  /** Nor does it add any record. */
  lemma VisitAddsNone(db: Db, visit: DbOp)
    requires LedgerInv(db.store) && (visit.AdvanceScrub? || visit.ObserveScrubbed?)
    ensures var t := ApplyDb(db, visit).store;
            && |t.records| == |db.store.records|
            && forall r :: 0 <= r < |t.records| ==> t.records[r].identity == db.store.records[r].identity
  {
    if visit.ObserveScrubbed? {
      ObservationKeepsLedger(db.store, visit.identity, visit.location, visit.revision, visit.nowMs);
    }
  }

  /** A quiet step leaves an unnamed record its identity and its owner, if it has one. */
  lemma QuietStepKeepsOwner(db: Db, config: SourceConfig, world: World, tree: set<FileCandidate>, step: Past, r: RecordId)
    requires Honest(db, config.registration, world) && QuietStep(config, world, tree, step)
    requires step.Ran? ==> Succeeds(db, config, step.pass)
    requires r < |db.store.records| && !Named(world, tree, db.store.records[r].identity)
    ensures var t := Happen(db, config, step);
            && r < |t.store.records| && t.store.records[r].identity == db.store.records[r].identity
            && (r in t.tables.owners <==> r in db.tables.owners)
  {
    if step.Ran? {
      ScanKeepsOwner(db, config, world, tree, step.pass, r);
    } else if step.Worked? {
      QueueWorkKeepsRecords(db.store, step.op);
    } else {
      VisitLeavesRecord(db, config, world, tree, step.visit, r);
    }
  }

  lemma ScanKeepsOwner(db: Db, config: SourceConfig, world: World, tree: set<FileCandidate>, pass: ScanPass, r: RecordId)
    requires Honest(db, config.registration, world) && Quiet(config, world, tree, pass) && Succeeds(db, config, pass)
    requires r < |db.store.records| && !Named(world, tree, db.store.records[r].identity)
    ensures var t := ScanOnce(db, config, pass).db;
            && r < |t.store.records| && t.store.records[r].identity == db.store.records[r].identity
            && (r in t.tables.owners <==> r in db.tables.owners)
  {
    var scan, committed := NextScan(db, config.registration), CommittedSweep(db, config, pass);
    QuietIsTruthful(config, world, tree, pass);
    CommittedHonestly(db, config, pass, world);
    CommittedLeavesRecord(db, config, world, tree, pass, r);
    CompletionFrame(committed.db, scan, config.grace, pass.completeMs);
  }

  /** An owned record the tree does not name fades further with every guarded sweep. */
  lemma QuietStepFades(db: Db, config: SourceConfig, grace: TombstoneGrace, world: World, tree: set<FileCandidate>,
                       step: Past, r: RecordId, k: nat, sinceMs: Millis)
    requires Honest(db, config.registration, world) && QuietStep(config, world, tree, step)
    requires step.Ran? ==> Succeeds(db, config, step.pass)
    requires config.grace == Some(grace) && r in db.tables.owners
    requires Fading(db, r, k, sinceMs) && !Named(world, tree, db.store.records[r].identity)
    requires step.Ran? && k == 0 ==> step.pass.completeMs <= sinceMs
    ensures Fading(Happen(db, config, step), r, if step.Ran? then k + 1 else k, sinceMs)
    ensures step.Ran? && k + 1 >= grace.minCompleteScans && WaitedOut(grace, sinceMs, step.pass.completeMs) ==>
              Happen(db, config, step).store.records[r].state == Tombstoned
    ensures !step.Ran? ==> Happen(db, config, step).store.records[r].state == db.store.records[r].state
  {
    if step.Ran? {
      ScanMisses(db, config, grace, world, tree, step.pass, r);
      FadingOn(db, Happen(db, config, step), NextScan(db, config.registration), grace, step.pass.completeMs, r, k, sinceMs);
    } else if step.Worked? {
      QueueWorkKeepsRecords(db.store, step.op);
    } else {
      VisitLeavesRecord(db, config, world, tree, step.visit, r);
    }
  }

  /** Enough sweeps, the last one late enough. */
  predicate GraceOver(grace: TombstoneGrace, passes: seq<ScanPass>, sinceMs: Millis) {
    && passes != [] && |passes| >= grace.minCompleteScans
    && WaitedOut(grace, sinceMs, passes[|passes| - 1].completeMs)
  }

  /** How an unnamed record stands after these sweeps: no owner, as before, or fading, and tombstoned by the end. */
  predicate Faded(db: Db, t: Db, grace: TombstoneGrace, world: World, tree: set<FileCandidate>, passes: seq<ScanPass>,
                  r: RecordId, sinceMs: Millis) {
    && r < |t.store.records| && !Named(world, tree, t.store.records[r].identity)
    && (r in t.tables.owners <==> r in db.tables.owners)
    && (r in db.tables.owners ==>
          && Fading(t, r, |passes|, sinceMs)
          && (GraceOver(grace, passes, sinceMs) ==> t.store.records[r].state == Tombstoned))
  }

  lemma FadesOn(db: Db, mid: Db, config: SourceConfig, grace: TombstoneGrace, world: World, tree: set<FileCandidate>,
                passes: seq<ScanPass>, step: Past, r: RecordId, sinceMs: Millis)
    requires Honest(mid, config.registration, world) && QuietStep(config, world, tree, step)
    requires step.Ran? ==> Succeeds(mid, config, step.pass)
    requires config.grace == Some(grace) && Faded(db, mid, grace, world, tree, passes, r, sinceMs)
    requires step.Ran? && passes == [] ==> step.pass.completeMs <= sinceMs
    ensures Faded(db, Happen(mid, config, step), grace, world, tree,
                  passes + if step.Ran? then [step.pass] else [], r, sinceMs)
  {
    QuietStepKeepsOwner(mid, config, world, tree, step, r);
    if r in mid.tables.owners {
      QuietStepFades(mid, config, grace, world, tree, step, r, |passes|, sinceMs);
    }
    assert !step.Ran? ==> passes + [] == passes;
  }

  predicate StartsBy(passes: seq<ScanPass>, sinceMs: Millis) {
    passes != [] ==> passes[0].completeMs <= sinceMs
  }

  lemma EarlierPasses(steps: seq<Past>, sinceMs: Millis)
    requires steps != [] && StartsBy(PassesOf(steps), sinceMs)
    ensures var last, earlier := steps[|steps| - 1], PassesOf(steps[..|steps| - 1]);
            && StartsBy(earlier, sinceMs)
            && (last.Ran? && earlier == [] ==> last.pass.completeMs <= sinceMs)
            && PassesOf(steps) == earlier + if last.Ran? then [last.pass] else []
  {
    var earlier := PassesOf(steps[..|steps| - 1]);
    assert earlier != [] ==> PassesOf(steps)[0] == earlier[0];
  }

  /** The last of these steps, taken from where the earlier ones led. */
  lemma LastQuietStep(db: Db, config: SourceConfig, world: World, tree: set<FileCandidate>, steps: seq<Past>)
    returns (mid: Db, step: Past)
    requires Honest(db, config.registration, world) && Apart(world, tree) && steps != []
    requires EachQuiet(config, world, tree, steps) && AllSucceed(db, config, steps)
    ensures mid == Happened(db, config, steps[..|steps| - 1]) && step == steps[|steps| - 1]
    ensures Happened(db, config, steps) == Happen(mid, config, step)
    ensures EachQuiet(config, world, tree, steps[..|steps| - 1]) && AllSucceed(db, config, steps[..|steps| - 1])
    ensures Honest(mid, config.registration, world) && QuietStep(config, world, tree, step)
    ensures step.Ran? ==> Succeeds(mid, config, step.pass)
  {
    var n := |steps| - 1;
    mid, step := Happened(db, config, steps[..n]), steps[n];
    StepsKeepSchedule(db, config, world, tree, steps[..n]);
  }

  lemma {:induction false} StepsFade(db: Db, config: SourceConfig, grace: TombstoneGrace, world: World,
                                     tree: set<FileCandidate>, steps: seq<Past>, r: RecordId, sinceMs: Millis)
    requires Honest(db, config.registration, world) && Apart(world, tree) && config.grace == Some(grace)
    requires EachQuiet(config, world, tree, steps) && AllSucceed(db, config, steps)
    requires StartsBy(PassesOf(steps), sinceMs)
    requires Fading(db, r, 0, sinceMs) && !Named(world, tree, db.store.records[r].identity)
    ensures Faded(db, Happened(db, config, steps), grace, world, tree, PassesOf(steps), r, sinceMs)
    decreases |steps|
  {
    if steps == [] {
      NotYetFaded(db, grace, world, tree, r, sinceMs);
    } else {
      var mid, step := LastQuietStep(db, config, world, tree, steps);
      EarlierPasses(steps, sinceMs);
      StepsFade(db, config, grace, world, tree, steps[..|steps| - 1], r, sinceMs);
      FadesOn(db, mid, config, grace, world, tree, PassesOf(steps[..|steps| - 1]), step, r, sinceMs);
    }
  }

  lemma NotYetFaded(db: Db, grace: TombstoneGrace, world: World, tree: set<FileCandidate>, r: RecordId, sinceMs: Millis)
    requires Fading(db, r, 0, sinceMs) && !Named(world, tree, db.store.records[r].identity)
    ensures Faded(db, db, grace, world, tree, [], r, sinceMs)
  {
  }

  /** Every record the source owns and the tree does not name is tombstoned. */
  predicate OthersTombstoned(db: Db, world: World, tree: set<FileCandidate>) {
    forall r :: r in db.tables.owners && r < |db.store.records| ==>
      Named(world, tree, db.store.records[r].identity) || db.store.records[r].state == Tombstoned
  }

  lemma ScanAddsNamed(db: Db, config: SourceConfig, world: World, tree: set<FileCandidate>, pass: ScanPass)
    requires Honest(db, config.registration, world) && Quiet(config, world, tree, pass) && Succeeds(db, config, pass)
    ensures OnlyNamedAdded(db.store, ScanOnce(db, config, pass).db.store, world, tree)
  {
    var scan, committed := NextScan(db, config.registration), CommittedSweep(db, config, pass);
    QuietIsTruthful(config, world, tree, pass);
    CommittedHonestly(db, config, pass, world);
    CommittedAddsNamed(db, config, world, tree, pass);
    CompletionFrame(committed.db, scan, config.grace, pass.completeMs);
  }

  lemma QuietStepAddsNamed(s: Store, db: Db, config: SourceConfig, world: World, tree: set<FileCandidate>, step: Past)
    requires Honest(db, config.registration, world) && QuietStep(config, world, tree, step)
    requires step.Ran? ==> Succeeds(db, config, step.pass)
    requires OnlyNamedAdded(s, db.store, world, tree)
    ensures OnlyNamedAdded(s, Happen(db, config, step).store, world, tree)
  {
    if step.Ran? {
      ScanAddsNamed(db, config, world, tree, step.pass);
      AddsNamedTransitively(s, db.store, Happen(db, config, step).store, world, tree);
    } else if step.Worked? {
      QueueWorkKeepsRecords(db.store, step.op);
    } else {
      VisitAddsNone(db, step.visit);
    }
  }

  lemma {:induction false} StepsAddNamed(db: Db, config: SourceConfig, world: World, tree: set<FileCandidate>,
                                         steps: seq<Past>)
    requires Honest(db, config.registration, world) && Apart(world, tree)
    requires EachQuiet(config, world, tree, steps) && AllSucceed(db, config, steps)
    ensures OnlyNamedAdded(db.store, Happened(db, config, steps).store, world, tree)
    decreases |steps|
  {
    if steps != [] {
      var n := |steps| - 1;
      StepsAddNamed(db, config, world, tree, steps[..n]);
      StepsKeepSchedule(db, config, world, tree, steps[..n]);
      QuietStepAddsNamed(db.store, Happened(db, config, steps[..n]), config, world, tree, steps[n]);
    }
  }

  /** No recorded first miss lies after this instant. */
  predicate MissesBy(db: Db, sinceMs: Millis) {
    forall r :: r in db.tables.missing ==> db.tables.missing[r].firstMissingAtMs <= sinceMs
  }

  /** The sweeps alone exhaust the grace: enough of them, over a long enough time, since any earlier miss at least. */
  predicate GraceRunsOut(db: Db, grace: TombstoneGrace, passes: seq<ScanPass>) {
    passes != [] && MissesBy(db, passes[0].completeMs) && GraceOver(grace, passes, passes[0].completeMs)
  }

  lemma StepsTombstoneOthers(db: Db, config: SourceConfig, grace: TombstoneGrace, world: World,
                             tree: set<FileCandidate>, steps: seq<Past>)
    requires Honest(db, config.registration, world) && Apart(world, tree) && config.grace == Some(grace)
    requires EachQuiet(config, world, tree, steps) && AllSucceed(db, config, steps)
    requires GraceRunsOut(db, grace, PassesOf(steps))
    ensures OthersTombstoned(Happened(db, config, steps), world, tree)
  {
    var t := Happened(db, config, steps);
    StepsAddNamed(db, config, world, tree, steps);
    forall r | r in t.tables.owners && r < |t.store.records| && !Named(world, tree, t.store.records[r].identity)
      ensures t.store.records[r].state == Tombstoned
    {
      StepsFade(db, config, grace, world, tree, steps, r, PassesOf(steps)[0].completeMs);
    }
  }

  lemma SameNames(world: World, w: World, tree: set<FileCandidate>, identity: RecordIdentity)
    requires w.holds == world.holds
    ensures Named(w, tree, identity) <==> Named(world, tree, identity)
  {
    assert forall f: FileCandidate :: IsRecord(w, f) == IsRecord(world, f);
  }

  /** Whatever is stranded, guarded sweeps that run out the grace tombstone every owned record the tree does not name. */
  lemma OthersBecomeTombstoned(db: Db, config: SourceConfig, grace: TombstoneGrace, world: World,
                               tree: set<FileCandidate>, steps: seq<Past>)
    requires Sound(db, config.registration) && config.grace == Some(grace)
    requires EachQuiet(config, world, tree, steps) && AllSucceed(db, config, steps)
    requires GraceRunsOut(db, grace, PassesOf(steps))
    ensures OthersTombstoned(Happened(db, config, steps), world, tree)
  {
    var w, t := Blind(world), Happened(db, config, steps);
    SoundIsBlindlyHonest(db, config.registration, world);
    SameSteps(config, world, w, tree, steps);
    StepsTombstoneOthers(db, config, grace, w, tree, steps);
    forall r | r in t.tables.owners && r < |t.store.records| && !Named(world, tree, t.store.records[r].identity)
      ensures t.store.records[r].state == Tombstoned
    {
      SameNames(world, w, tree, t.store.records[r].identity);
    }
  }

  // ---------- Silence ----------

  /** Nothing is left to hash, and where deletion is guarded nothing is left to tombstone. */
  predicate Converged(db: Db, config: SourceConfig, world: World, tree: set<FileCandidate>) {
    && Honest(db, config.registration, world)
    && Pending(db, config, world, tree) == {}
    && (config.grace.Some? ==> OthersTombstoned(db, world, tree))
  }

  lemma NothingIsAccepted(db: Db, config: SourceConfig, world: World, tree: set<FileCandidate>, pass: ScanPass)
    requires Honest(db, config.registration, world) && Pending(db, config, world, tree) == {}
    requires Quiet(config, world, tree, pass) && Prepare(db, config, pass).error.None?
    ensures Prepare(db, config, pass).accepted == []
  {
    QuietlyPrepared(db, config, world, tree, pass);
    var accepted, candidates := Prepare(db, config, pass).accepted, CandidatesOf(pass);
    forall i | 0 <= i < |candidates| ensures !Ready(db, config, candidates[i]) {
      assert QuietCandidate(config, world, candidates[i]);
      assert candidates[i].file !in Pending(db, config, world, tree);
    }
    assert accepted != [] ==> AcceptedFrom(accepted[0], db, config, candidates);
  }

  /** What the generation has not seen, the tree does not name. */
  lemma MissingAreUnnamed(db: Db, scan: SourceScan, registration: SourceRegistration, config: SourceConfig, world: World,
                          tree: set<FileCandidate>, candidates: seq<Candidate>, r: RecordId)
    requires Sweeping(db, scan, registration, candidates, |candidates|) && CandidatesAre(config, world, tree, candidates)
    requires r < |db.store.records| && IsMissing(db.tables, scan, r)
    ensures !Named(world, tree, db.store.records[r].identity)
  {
    FindKnown(db.store, r);
    forall f | f in tree && IsRecord(world, f)
      ensures world.holds(f.location, f.fingerprint).value.0 != db.store.records[r].identity
    {
      assert FoundIn(candidates, f);
      var i :| 0 <= i < |candidates| && candidates[i].file == f;
      assert QuietCandidate(config, world, candidates[i]);
      assert SeenBy(db, scan, candidates[i].record.identity);
    }
  }

  lemma {:induction false} ProcessingTombstonedIsSilent(db: Db, scan: SourceScan, grace: TombstoneGrace, nowMs: Millis, n: nat)
    requires n <= |db.store.records|
    requires forall r :: 0 <= r < |db.store.records| && IsMissing(db.tables, scan, r) ==>
               db.store.records[r].state == Tombstoned
    ensures ProcessUpTo(db, scan, grace, nowMs, n).store == db.store
    decreases n
  {
    if n > 0 {
      ProcessingTombstonedIsSilent(db, scan, grace, nowMs, n - 1);
      ProcessUpToNext(db, scan, grace, nowMs, n);
    }
  }

  lemma MissingAreTombstoned(db: Db, config: SourceConfig, world: World, tree: set<FileCandidate>, pass: ScanPass)
    requires Converged(db, config, world, tree) && config.grace.Some? && Quiet(config, world, tree, pass)
    requires Prepare(db, config, pass).error.None?
    ensures var scan, t := NextScan(db, config.registration), Prepare(db, config, pass).db;
            forall r :: 0 <= r < |t.store.records| && IsMissing(t.tables, scan, r) ==> t.store.records[r].state == Tombstoned
  {
    var scan, t := NextScan(db, config.registration), Prepare(db, config, pass).db;
    QuietIsTruthful(config, world, tree, pass);
    QuietCandidates(config, world, tree, pass);
    ReadyToCommit(db, config, pass, world);
    PreparingKeepsHonesty(db, config, pass, world);
    forall r | 0 <= r < |t.store.records| && IsMissing(t.tables, scan, r)
      ensures t.store.records[r].state == Tombstoned
    {
      MissingAreUnnamed(t, scan, config.registration, config, world, tree, CandidatesOf(pass), r);
      PreparingKeepsOwner(db, config, world, tree, pass, r);
    }
  }

  lemma PreparingKeepsOwner(db: Db, config: SourceConfig, world: World, tree: set<FileCandidate>, pass: ScanPass,
                            r: RecordId)
    requires Honest(db, config.registration, world) && Quiet(config, world, tree, pass)
    requires Prepare(db, config, pass).error.None?
    requires r < |db.store.records| && !Named(world, tree, db.store.records[r].identity)
    ensures LeavesRecord(db, Prepare(db, config, pass).db, r)
  {
    var candidates, t := CandidatesOf(pass), FirstTally(db, config.registration, pass);
    QuietCandidates(config, world, tree, pass);
    PreparedIsObserved(db, config, pass, world);
    BeginningSweeps(db, config.registration, world, candidates);
    forall i | 0 <= i < |candidates| ensures db.store.records[r].identity != candidates[i].record.identity {
      CandidatesAreNamed(config, world, tree, candidates, i);
    }
    var us := TalliesOf(t, NextScan(db, config.registration), config, candidates);
    SweepLeavesRecord(us, t, NextScan(db, config.registration), config, candidates, r);
    LeavesTransitively(db, t.db, Prepare(db, config, pass).db, r);
  }

  /** A sweep of a converged source emits nothing: neither the ledger nor any delivery changes. */
  lemma ConvergedSweepIsSilent(db: Db, config: SourceConfig, world: World, tree: set<FileCandidate>, pass: ScanPass)
    requires Converged(db, config, world, tree) && Quiet(config, world, tree, pass) && Succeeds(db, config, pass)
    ensures ScanOnce(db, config, pass).db.store == db.store
    ensures Converged(ScanOnce(db, config, pass).db, config, world, tree)
  {
    var scan, prepared := NextScan(db, config.registration), Prepare(db, config, pass);
    QuietIsTruthful(config, world, tree, pass);
    ScanKeepsHonesty(db, config, pass, world);
    PreparingKeepsHonesty(db, config, pass, world);
    NothingIsAccepted(db, config, world, tree, pass);
    if config.grace.Some? {
      MissingAreTombstoned(db, config, world, tree, pass);
      ProcessingTombstonedIsSilent(prepared.db, scan, config.grace.value, pass.completeMs, |prepared.db.store.records|);
      OthersStayTombstoned(db, config, world, tree, pass);
    }
    ScanSweepsOnce(db, config, world, tree, pass);
    PendingShrinks(db, ScanOnce(db, config, pass).db, config, world, tree, CandidatesOf(pass), 0);
  }

  lemma OthersStayTombstoned(db: Db, config: SourceConfig, world: World, tree: set<FileCandidate>, pass: ScanPass)
    requires Converged(db, config, world, tree) && config.grace.Some? && Quiet(config, world, tree, pass)
    requires Succeeds(db, config, pass) && ScanOnce(db, config, pass).db.store == db.store
    ensures OthersTombstoned(ScanOnce(db, config, pass).db, world, tree)
  {
    var t := ScanOnce(db, config, pass).db;
    forall r | r in t.tables.owners && r < |t.store.records| && !Named(world, tree, t.store.records[r].identity)
      ensures t.store.records[r].state == Tombstoned
    {
      ScanKeepsOwner(db, config, world, tree, pass, r);
    }
  }

  /** The work that is not the sweeps' own: what the queue was asked to do, and what scrub visits observed. */
  function WorkOf(db: Db, config: SourceConfig, steps: seq<Past>): seq<Op> {
    if steps == [] then []
    else
      var n := |steps| - 1;
      WorkOf(db, config, steps[..n]) + WorkBy(Happened(db, config, steps[..n]), steps[n])
  }

  function WorkBy(db: Db, step: Past): seq<Op> {
    match step
    case Worked(op) => [op]
    case Scrubbed(visit) => StoreOps(db, visit)
    case _ => []
  }

  lemma VisitKeepsOthersTombstoned(db: Db, config: SourceConfig, world: World, tree: set<FileCandidate>, visit: DbOp)
    requires LedgerInv(db.store) && ScrubWork(visit, config.registration.sourceId) && VisitsTree(world, tree, visit)
    requires OthersTombstoned(db, world, tree)
    ensures OthersTombstoned(ApplyDb(db, visit), world, tree)
  {
    var t := ApplyDb(db, visit);
    ScrubTouchesNoObservation(db, visit);
    VisitAddsNone(db, visit);
    forall r | r in t.tables.owners && r < |t.store.records| && !Named(world, tree, t.store.records[r].identity)
      ensures t.store.records[r].state == Tombstoned
    {
      VisitLeavesRecord(db, config, world, tree, visit, r);
    }
  }

  /** A step of a converged source does its own work, if any, and nothing else to ledger or queue. */
  lemma ConvergedStepIsSilent(db: Db, config: SourceConfig, world: World, tree: set<FileCandidate>, step: Past)
    requires Converged(db, config, world, tree) && Apart(world, tree) && QuietStep(config, world, tree, step)
    requires step.Ran? ==> Succeeds(db, config, step.pass)
    ensures Happen(db, config, step).store == Run(db.store, WorkBy(db, step))
    ensures Converged(Happen(db, config, step), config, world, tree)
  {
    match step
    case Ran(pass) => ConvergedSweepIsSilent(db, config, world, tree, pass);
    case Worked(op) =>
      BetweenSweeps(db, config, world, tree, step);
      QueueWorkKeepsRecords(db.store, op);
      SameObservationsSamePending(db, Happen(db, config, step), config, world, tree);
      RunSingle(db.store, op);
    case Scrubbed(visit) =>
      BetweenSweeps(db, config, world, tree, step);
      SameObservationsSamePending(db, Happen(db, config, step), config, world, tree);
      ApplyDbIsStoreRun(db, visit);
      if config.grace.Some? {
        VisitKeepsOthersTombstoned(db, config, world, tree, visit);
      }
    case _ =>
  }

  /** All that has happened to ledger and queue since `db` is this work, and the source is still converged. */
  predicate OnlyWorked(db: Db, t: Db, config: SourceConfig, world: World, tree: set<FileCandidate>, work: seq<Op>) {
    t.store == Run(db.store, work) && Converged(t, config, world, tree)
  }

  lemma WorksOn(db: Db, mid: Db, config: SourceConfig, world: World, tree: set<FileCandidate>, work: seq<Op>, step: Past)
    requires OnlyWorked(db, mid, config, world, tree, work) && Apart(world, tree) && QuietStep(config, world, tree, step)
    requires step.Ran? ==> Succeeds(mid, config, step.pass)
    ensures OnlyWorked(db, Happen(mid, config, step), config, world, tree, work + WorkBy(mid, step))
  {
    ConvergedStepIsSilent(mid, config, world, tree, step);
    RunAppend(db.store, work, WorkBy(mid, step));
  }

  /** Sweeps of a converged source are silent: only the work between them has any effect on ledger and queue. */
  lemma {:induction false} ConvergedSweepsAreSilent(db: Db, config: SourceConfig, world: World, tree: set<FileCandidate>,
                                                    steps: seq<Past>)
    requires Converged(db, config, world, tree) && Apart(world, tree)
    requires EachQuiet(config, world, tree, steps) && AllSucceed(db, config, steps)
    ensures OnlyWorked(db, Happened(db, config, steps), config, world, tree, WorkOf(db, config, steps))
    decreases |steps|
  {
    if steps != [] {
      var n := |steps| - 1;
      ConvergedSweepsAreSilent(db, config, world, tree, steps[..n]);
      WorksOn(db, Happened(db, config, steps[..n]), config, world, tree, WorkOf(db, config, steps[..n]), steps[n]);
    }
  }

  // ---------- Where it all leads ----------

  /** Each file within the limits is active as read, unless it was stranded at the start and no scrub mended it. */
  predicate ActiveButStranded(db: Db, config: SourceConfig, world: World, tree: set<FileCandidate>, steps: seq<Past>) {
    forall f :: f in Wanted(config, world, tree) ==>
      (ActiveAsRead(Happened(db, config, steps).store, world, f)
       <==> !Stranded(db, config, world, f) || Mended(db, config, world, steps, f))
  }

  /**
   * What an unchanging tree comes to: its files active, all but the stranded; where deletion is guarded and the grace
   * has run out, all else tombstoned; and from then on, or at once where deletion is disabled, sweeps that change
   * nothing.
   */
  predicate ComesToRest(db: Db, config: SourceConfig, world: World, tree: set<FileCandidate>, steps: seq<Past>,
                        more: seq<Past>) {
    var t := Happened(db, config, steps);
    && ActiveButStranded(db, config, world, tree, steps)
    && (config.grace.Some? && GraceRunsOut(db, config.grace.value, PassesOf(steps)) ==> OthersTombstoned(t, world, tree))
    && (config.grace.None? || GraceRunsOut(db, config.grace.value, PassesOf(steps)) ==>
          Happened(t, config, more).store == Run(t.store, WorkOf(t, config, more)))
  }

  lemma UnrivalledAmong(config: SourceConfig, world: World, tree: set<FileCandidate>, candidates: seq<Candidate>,
                        f: FileCandidate)
    requires CandidatesAre(config, world, tree, candidates) && !DuplicateIdentity(candidates)
    requires f in tree && IsRecord(world, f)
    ensures Unrivalled(world, tree, f)
  {
    assert FoundIn(candidates, f);
    var i :| 0 <= i < |candidates| && candidates[i].file == f;
    forall g | g in tree && IsRecord(world, g) && IdentityOf(world, g) == IdentityOf(world, f) ensures g == f {
      assert FoundIn(candidates, g);
      var j :| 0 <= j < |candidates| && candidates[j].file == g;
      assert QuietCandidate(config, world, candidates[i]) && QuietCandidate(config, world, candidates[j]);
    }
  }

  /** A sweep that succeeds met no two files of one identity. */
  lemma SuccessMeansUnrivalled(db: Db, config: SourceConfig, world: World, tree: set<FileCandidate>, pass: ScanPass,
                               f: FileCandidate)
    requires Quiet(config, world, tree, pass) && Prepare(db, config, pass).error.None?
    requires f in tree && IsRecord(world, f)
    ensures Unrivalled(world, tree, f)
  {
    PreparingSteps(db, config, pass);
    QuietCandidates(config, world, tree, pass);
    UnrivalledAmong(config, world, tree, CandidatesOf(pass), f);
  }

  lemma {:induction false} SomeSweepSucceeds(db: Db, config: SourceConfig, world: World, tree: set<FileCandidate>,
                                             steps: seq<Past>, f: FileCandidate)
    requires EachQuiet(config, world, tree, steps) && AllSucceed(db, config, steps)
    requires PassesOf(steps) != [] && f in tree && IsRecord(world, f)
    ensures Unrivalled(world, tree, f)
    decreases |steps|
  {
    var n := |steps| - 1;
    if PassesOf(steps[..n]) != [] {
      SomeSweepSucceeds(db, config, world, tree, steps[..n], f);
    } else {
      SuccessMeansUnrivalled(Happened(db, config, steps[..n]), config, world, tree, steps[n].pass, f);
    }
  }

  /** The record of a candidate is the source's own, once the sweep has seen it. */
  lemma SeenIsOwned(db: Db, scan: SourceScan, registration: SourceRegistration, candidates: seq<Candidate>, i: nat)
    requires Sweeping(db, scan, registration, candidates, |candidates|) && i < |candidates|
    requires FindRecord(db.store.records, candidates[i].record.identity).Some?
    ensures ScrubOwns(db, registration.sourceId, candidates[i].record.identity)
  {
    assert SeenBy(db, scan, candidates[i].record.identity);
  }

  lemma SameOwner(db: Db, t: Db, id: SourceId, identity: RecordIdentity)
    requires LedgerInv(db.store) && LedgerInv(t.store) && |t.store.records| == |db.store.records|
    requires forall r :: 0 <= r < |t.store.records| ==> t.store.records[r].identity == db.store.records[r].identity
    requires t.tables.owners == db.tables.owners
    ensures FindRecord(t.store.records, identity) == FindRecord(db.store.records, identity)
    ensures ScrubOwns(t, id, identity) <==> ScrubOwns(db, id, identity)
  {
    var found := FindRecord(db.store.records, identity);
    if found.Some? {
      FindKnown(t.store, found.value);
    }
  }

  /** After a successful sweep the source owns the record of every file it met, so that a scrub visit can mend it. */
  lemma SweptFilesAreOwned(db: Db, config: SourceConfig, world: World, tree: set<FileCandidate>, pass: ScanPass,
                           f: FileCandidate)
    requires Honest(db, config.registration, world) && Quiet(config, world, tree, pass) && Succeeds(db, config, pass)
    requires f in tree && IsRecord(world, f)
    ensures var t := ScanOnce(db, config, pass).db;
            FindRecord(t.store.records, IdentityOf(world, f)).Some?
            ==> ScrubOwns(t, config.registration.sourceId, IdentityOf(world, f))
  {
    var scan, committed := NextScan(db, config.registration), CommittedSweep(db, config, pass);
    QuietIsTruthful(config, world, tree, pass);
    QuietCandidates(config, world, tree, pass);
    CommittedHonestly(db, config, pass, world);
    CompletionFrame(committed.db, scan, config.grace, pass.completeMs);
    SameOwner(committed.db, ScanOnce(db, config, pass).db, config.registration.sourceId, IdentityOf(world, f));
    assert FoundIn(CandidatesOf(pass), f);
    var i :| 0 <= i < |CandidatesOf(pass)| && CandidatesOf(pass)[i].file == f;
    assert QuietCandidate(config, world, CandidatesOf(pass)[i]);
    if FindRecord(committed.db.store.records, IdentityOf(world, f)).Some? {
      SeenIsOwned(committed.db, scan, config.registration, CandidatesOf(pass), i);
    }
  }

  lemma {:induction false} QuietStepsKeepSound(db: Db, config: SourceConfig, world: World, tree: set<FileCandidate>,
                                               steps: seq<Past>)
    requires Sound(db, config.registration) && EachQuiet(config, world, tree, steps)
    ensures Sound(Happened(db, config, steps), config.registration)
    decreases |steps|
  {
    if steps != [] {
      var n := |steps| - 1;
      QuietStepsKeepSound(db, config, world, tree, steps[..n]);
      QuietStepKeepsSound(Happened(db, config, steps[..n]), config, world, tree, steps[n]);
    }
  }

  /**
   * From any sound state, after `m - 1 + n` successful sweeps of an unchanging tree with `n` files within the limits,
   * each of these is active at its own location with its own hash if and only if it was not stranded at the start, or
   * a scrub has mended it.
   */
  lemma WantedFilesBecomeActive(db: Db, config: SourceConfig, world: World, tree: set<FileCandidate>, steps: seq<Past>)
    requires Sound(db, config.registration)
    requires EachQuiet(config, world, tree, steps) && AllSucceed(db, config, steps)
    requires |PassesOf(steps)| >= config.minObservations - 1 + |Wanted(config, world, tree)|
    ensures Pending(Happened(db, config, steps), config, world, tree) == {}
    ensures ActiveButStranded(db, config, world, tree, steps)
  {
    var w, t := Blind(world), Happened(db, config, steps);
    SoundIsBlindlyHonest(db, config.registration, world);
    SameSteps(config, world, w, tree, steps);
    assert Wanted(config, w, tree) == Wanted(config, world, tree);
    NothingStaysPending(db, config, w, tree, steps);
    assert Pending(t, config, w, tree) == Pending(t, config, world, tree);
    forall f | f in Wanted(config, world, tree)
      ensures ActiveAsRead(t.store, world, f)
              <==> !Stranded(db, config, world, f) || Mended(db, config, world, steps, f)
    {
      assert f !in Pending(t, config, world, tree) && |Wanted(config, world, tree)| > 0;
      SomeSweepSucceeds(db, config, world, tree, steps, f);
      StrandedUntilMended(db, config, world, tree, steps, f);
    }
  }

  /** Once nothing is pending, and all else is tombstoned where deletion is guarded, sweeps add nothing. */
  lemma RestIsSilent(t: Db, config: SourceConfig, world: World, tree: set<FileCandidate>, more: seq<Past>)
    requires Sound(t, config.registration) && Pending(t, config, world, tree) == {}
    requires config.grace.Some? ==> OthersTombstoned(t, world, tree)
    requires EachQuiet(config, world, tree, more) && AllSucceed(t, config, more)
    ensures Happened(t, config, more).store == Run(t.store, WorkOf(t, config, more))
  {
    var w := Blind(world);
    SoundIsBlindlyHonest(t, config.registration, world);
    SameSteps(config, world, w, tree, more);
    assert Pending(t, config, w, tree) == Pending(t, config, world, tree);
    if config.grace.Some? {
      forall r | r in t.tables.owners && r < |t.store.records|
        ensures Named(w, tree, t.store.records[r].identity) || t.store.records[r].state == Tombstoned
      {
        SameNames(world, w, tree, t.store.records[r].identity);
      }
    }
    ConvergedSweepsAreSilent(t, config, w, tree, more);
  }

  lemma SoundSourcesConverge(db: Db, config: SourceConfig, world: World, tree: set<FileCandidate>, steps: seq<Past>,
                             more: seq<Past>)
    requires Sound(db, config.registration)
    requires EachQuiet(config, world, tree, steps) && EachQuiet(config, world, tree, more)
    requires AllSucceed(db, config, steps) && AllSucceed(Happened(db, config, steps), config, more)
    requires |PassesOf(steps)| >= config.minObservations - 1 + |Wanted(config, world, tree)|
    ensures ComesToRest(db, config, world, tree, steps, more)
  {
    WantedFilesBecomeActive(db, config, world, tree, steps);
    QuietStepsKeepSound(db, config, world, tree, steps);
    if config.grace.Some? && GraceRunsOut(db, config.grace.value, PassesOf(steps)) {
      OthersBecomeTombstoned(db, config, config.grace.value, world, tree, steps);
    }
    if config.grace.None? || GraceRunsOut(db, config.grace.value, PassesOf(steps)) {
      RestIsSilent(Happened(db, config, steps), config, world, tree, more);
    }
  }

  /**
   * A source, after any history whatever: sweeps of any trees that ran to the end, failed, or crashed anywhere, read
   * what was or was not there, with scrub visits of any kind among them. It then sweeps one unchanging tree whose
   * fingerprints determine its bytes, while deliveries go on and scrubs visit files of the tree. After `m - 1 + n`
   * successful sweeps its `n` files within the limits are active at their own locations with their own hashes, but for
   * those that were stranded and that no scrub mended, and the tree comes to rest.
   */
  lemma ReconciliationConverges(config: SourceConfig, world: World, history: seq<Past>, tree: set<FileCandidate>,
                                steps: seq<Past>, more: seq<Past>)
    requires EachQuiet(config, world, tree, steps) && EachQuiet(config, world, tree, more)
    requires var db := Happened(EMPTY_DB, config, history);
             AllSucceed(db, config, steps) && AllSucceed(Happened(db, config, steps), config, more)
    requires |PassesOf(steps)| >= config.minObservations - 1 + |Wanted(config, world, tree)|
    ensures ComesToRest(Happened(EMPTY_DB, config, history), config, world, tree, steps, more)
  {
    SweptSourcesAreSound(config, history);
    SoundSourcesConverge(Happened(EMPTY_DB, config, history), config, world, tree, steps, more);
  }

  lemma WellFormedSweepsSucceed(db: Db, config: SourceConfig, world: World, tree: set<FileCandidate>, steps: seq<Past>)
    requires Sound(db, config.registration) && EachQuiet(config, world, tree, steps)
    requires WellFormed(world, tree) && config.hashByteBudget <= U64_MAX
    ensures AllSucceed(db, config, steps)
  {
    var w := Blind(world);
    SoundIsBlindlyHonest(db, config.registration, world);
    SameSteps(config, world, w, tree, steps);
    assert WellFormed(w, tree) by {
      assert forall f: FileCandidate :: IsRecord(w, f) == IsRecord(world, f);
    }
    QuietSweepsAllSucceed(db, config, w, tree, steps);
  }

  /** On a tree with distinct identities and true lengths the sweeps succeed by themselves. */
  lemma WellFormedTreesConverge(config: SourceConfig, world: World, history: seq<Past>, tree: set<FileCandidate>,
                                steps: seq<Past>, more: seq<Past>)
    requires EachQuiet(config, world, tree, steps) && EachQuiet(config, world, tree, more)
    requires WellFormed(world, tree) && config.hashByteBudget <= U64_MAX
    requires |PassesOf(steps)| >= config.minObservations - 1 + |Wanted(config, world, tree)|
    ensures var db := Happened(EMPTY_DB, config, history);
            && AllSucceed(db, config, steps)
            && ComesToRest(db, config, world, tree, steps, more)
  {
    var db := Happened(EMPTY_DB, config, history);
    SweptSourcesAreSound(config, history);
    WellFormedSweepsSucceed(db, config, world, tree, steps);
    QuietStepsKeepSound(db, config, world, tree, steps);
    WellFormedSweepsSucceed(Happened(db, config, steps), config, world, tree, more);
    SoundSourcesConverge(db, config, world, tree, steps, more);
  }

  predicate AllActive(s: Store, config: SourceConfig, world: World, tree: set<FileCandidate>) {
    forall f :: f in Wanted(config, world, tree) ==> ActiveAsRead(s, world, f)
  }

  /**
   * After a truthful history in which no crash and no scrub visit displaced an admitted fingerprint, nothing is
   * stranded, so every file within the limits becomes active.
   */
  lemma HonestSourcesConverge(config: SourceConfig, world: World, history: seq<Past>, tree: set<FileCandidate>,
                              steps: seq<Past>)
    requires EachTruthful(config, world, history) && NothingStranded(EMPTY_DB, config, world, history)
    requires forall f :: f in Wanted(config, world, tree) ==> world.watched(f.location, f.fingerprint)
    requires EachQuiet(config, world, tree, steps) && AllSucceed(Happened(EMPTY_DB, config, history), config, steps)
    requires |PassesOf(steps)| >= config.minObservations - 1 + |Wanted(config, world, tree)|
    ensures AllActive(Happened(Happened(EMPTY_DB, config, history), config, steps).store, config, world, tree)
  {
    var db := Happened(EMPTY_DB, config, history);
    HistoryIsHonest(config, world, history);
    WantedFilesBecomeActive(db, config, world, tree, steps);
    forall f | f in Wanted(config, world, tree)
      ensures ActiveAsRead(Happened(db, config, steps).store, world, f)
    {
      if Stranded(db, config, world, f) {
        AdmittedIsSettled(db, config, world, f);
      }
    }
  }
}
