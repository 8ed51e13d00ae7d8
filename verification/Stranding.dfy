/**
 * What the exceptions to honesty cost: a file whose fingerprint stayed admitted while its record went elsewhere is never
 * hashed again, so no sweep brings its record back. Only a scrub does.
 */
module Stranding {
  import opened Wrappers
  import opened Domain
  import opened Tables
  import opened Ledger
  import opened Sources
  import opened Files
  import opened Scan
  import opened Honesty
  import opened Crashes
  import opened Converge
  import opened Visits
  import opened Convergence

  // ---------- Before the commits ----------

  /** Observing a candidate elsewhere, or the file itself, leaves its hash admitted; and the file is not accepted. */
  lemma ObservingKeepsAdmitted(t: Tally, u: Tally, scan: SourceScan, config: SourceConfig, c: Candidate, f: FileCandidate)
    requires TallyFollows(t, u, scan, config, c) && c.record.location == c.file.location
    requires c.file.location == f.location ==> c.file == f
    requires Admitted(t.db, scan.sourceId, f)
    ensures u.db.store == t.db.store && Admitted(u.db, scan.sourceId, f)
    ensures u.error.None? && (c.file == f || ObservedNow(t.db, scan, f.location)) ==> ObservedNow(u.db, scan, f.location)
    ensures c.file == f ==> u.accepted == t.accepted
  {
  }

  /** The sweep has kept the file's hash admitted, seen it if its turn has come, and accepted nothing of its identity. */
  predicate PassedOver(u: Tally, store: Store, scan: SourceScan, world: World, f: FileCandidate, seen: bool)
    requires IsRecord(world, f)
  {
    && u.db.store == store && Admitted(u.db, scan.sourceId, f)
    && (u.error.None? && seen ==> ObservedNow(u.db, scan, f.location))
    && (forall k :: 0 <= k < |u.accepted| ==> u.accepted[k].record.identity != IdentityOf(world, f))
  }

  lemma PassingOver(t: Tally, u: Tally, store: Store, scan: SourceScan, config: SourceConfig, world: World, c: Candidate,
                    f: FileCandidate, seen: bool)
    requires IsRecord(world, f) && TallyFollows(t, u, scan, config, c) && c.record.location == c.file.location
    requires c.file.location == f.location ==> c.file == f
    requires c.file != f ==> c.record.identity != IdentityOf(world, f)
    requires PassedOver(t, store, scan, world, f, seen)
    ensures PassedOver(u, store, scan, world, f, seen || c.file == f)
  {
    ObservingKeepsAdmitted(t, u, scan, config, c, f);
    AcceptedIsNew(t, scan, config, c);
    assert u.error.None? ==> t.error.None?;
  }

  lemma SweepPassesOver(us: seq<Tally>, t: Tally, scan: SourceScan, config: SourceConfig, world: World,
                        tree: set<FileCandidate>, candidates: seq<Candidate>, f: FileCandidate, j: nat)
    requires Tallies(us, t, scan, config, candidates) && CandidatesAre(config, world, tree, candidates)
    requires !DuplicateIdentity(candidates) && j < |candidates| && candidates[j].file == f
    requires Admitted(t.db, scan.sourceId, f) && t.accepted == []
    ensures IsRecord(world, f) && PassedOver(us[|candidates|], t.db.store, scan, world, f, true)
  {
    assert QuietCandidate(config, world, candidates[j]);
    for n := 0 to |candidates|
      invariant PassedOver(us[n], t.db.store, scan, world, f, j < n)
    {
      assert TallyFollows(us[n], us[n + 1], scan, config, candidates[n]);
      assert QuietCandidate(config, world, candidates[n]);
      assert n != j ==> candidates[n].record.identity != candidates[j].record.identity;
      PassingOver(us[n], us[n + 1], t.db.store, scan, config, world, candidates[n], f, j < n);
    }
  }

  // ---------- From the commits on ----------

  /** Between the transactions of a sweep that has already seen the file. */
  predicate StrandedNow(db: Db, scan: SourceScan, world: World, f: FileCandidate) {
    && LedgerInv(db.store) && !Settled(db.store, world, f.location, f.fingerprint)
    && Admitted(db, scan.sourceId, f) && ObservedNow(db, scan, f.location)
  }

  /** The first two transactions of a commit leave the observations alone. */
  lemma ObservationsStand(db: Db, scan: SourceScan, registration: SourceRegistration, a: Admission)
    ensures ObservePresentFromSource(db, scan, registration, a.record.identity, a.record.location, a.revision,
                                     a.commitMs).0.tables.observations == db.tables.observations
  {
  }

  /** A commit touches at most one observation, and only to admit its hash. */
  lemma CommitObservations(t: Commits, scan: SourceScan, registration: SourceRegistration, a: Admission)
    ensures var u, key := CommitOne(t, scan, registration, a).db, (scan.sourceId, a.record.location);
            || u.tables.observations == t.db.tables.observations
            || (key in t.db.tables.observations
                && u.tables.observations == AdmitHash(t.db.tables.observations, key))
  {
    ObservationsStand(t.db, scan, registration, a);
  }

  lemma UnsettledByOthers(s: Store, t: Store, world: World, a: Admission, f: FileCandidate)
    requires LedgerInv(s) && !Settled(s, world, f.location, f.fingerprint)
    requires IsRecord(world, f) && a.record.identity != IdentityOf(world, f)
    requires t == s || t == ObservePresent(s, a.record.identity, a.record.location, a.revision, a.commitMs)
    ensures LedgerInv(t) && !Settled(t, world, f.location, f.fingerprint)
  {
    ObservationTakesEffect(s, a.record.identity, a.record.location, a.revision, a.commitMs);
    ObservationMatters(s, world, f.location, f.fingerprint, a);
  }

  lemma AdmittingKeepsAdmitted(db: Db, u: Db, scan: SourceScan, l: LogicalLocation, f: FileCandidate)
    requires Admitted(db, scan.sourceId, f) && ObservedNow(db, scan, f.location)
    requires || u.tables.observations == db.tables.observations
             || ((scan.sourceId, l) in db.tables.observations
                 && u.tables.observations == AdmitHash(db.tables.observations, (scan.sourceId, l)))
    ensures Admitted(u, scan.sourceId, f) && ObservedNow(u, scan, f.location)
  {
  }

  lemma CommittingLeavesStranded(t: Commits, u: Commits, scan: SourceScan, config: SourceConfig, world: World,
                                 a: Admission, f: FileCandidate)
    requires CommitFollows(t, u, scan, config.registration, a) && StrandedNow(t.db, scan, world, f)
    requires IsRecord(world, f) && a.record.identity != IdentityOf(world, f)
    ensures StrandedNow(u.db, scan, world, f)
  {
    CommitStoreIs(t, scan, config.registration, a);
    UnsettledByOthers(t.db.store, u.db.store, world, a, f);
    CommitObservations(t, scan, config.registration, a);
    AdmittingKeepsAdmitted(t.db, u.db, scan, a.record.location, f);
  }

  lemma CommitsLeaveStranded(us: seq<Commits>, db: Db, scan: SourceScan, config: SourceConfig, world: World,
                             accepted: seq<Admission>, f: FileCandidate)
    requires CommitRun(us, db, scan, config.registration, accepted) && StrandedNow(db, scan, world, f)
    requires IsRecord(world, f)
    requires forall k :: 0 <= k < |accepted| ==> accepted[k].record.identity != IdentityOf(world, f)
    ensures StrandedNow(us[|accepted|].db, scan, world, f)
  {
    for n := 0 to |accepted|
      invariant StrandedNow(us[n].db, scan, world, f)
    {
      assert CommitFollows(us[n], us[n + 1], scan, config.registration, accepted[n]);
      CommittingLeavesStranded(us[n], us[n + 1], scan, config, world, accepted[n], f);
    }
  }

  /** A completion may tombstone the record, but revives none. */
  lemma {:induction false} ProcessingRevivesNone(db: Db, scan: SourceScan, grace: TombstoneGrace, nowMs: Millis, n: nat)
    requires n <= |db.store.records|
    ensures var t := ProcessUpTo(db, scan, grace, nowMs, n);
            forall r :: 0 <= r < |db.store.records| && t.store.records[r].state == Active ==>
              t.store.records[r] == db.store.records[r]
    decreases n
  {
    if n > 0 {
      ProcessingRevivesNone(db, scan, grace, nowMs, n - 1);
      ProcessUpToNext(db, scan, grace, nowMs, n);
    }
  }

  lemma CompletionRevivesNone(db: Db, scan: SourceScan, grace: Option<TombstoneGrace>, nowMs: Millis, world: World,
                              f: FileCandidate)
    requires LedgerInv(db.store) && IsCurrentScan(db.tables, scan)
    requires !Settled(db.store, world, f.location, f.fingerprint)
    ensures !Settled(CompleteSourceScan(db, scan, grace, nowMs).0.store, world, f.location, f.fingerprint)
  {
    var t := CompleteSourceScan(db, scan, grace, nowMs).0;
    CompletionFrame(db, scan, grace, nowMs);
    if grace.Some? {
      ProcessingRevivesNone(db, scan, grace.value, nowMs, |db.store.records|);
    }
    if Settled(t.store, world, f.location, f.fingerprint) {
      FindKnown(db.store, FindRecord(t.store.records, IdentityOf(world, f)).value);
    }
  }

  lemma CompletionLeavesStranded(db: Db, scan: SourceScan, config: SourceConfig, world: World, nowMs: Millis,
                                 f: FileCandidate)
    requires StrandedNow(db, scan, world, f) && scan.sourceId == config.registration.sourceId && IsRecord(world, f)
    ensures var t := CompleteSourceScan(db, scan, config.grace, nowMs).0;
            LedgerInv(t.store) && Stranded(t, config, world, f)
  {
    if IsCurrentScan(db.tables, scan) {
      CompletionFrame(db, scan, config.grace, nowMs);
      CompletionRevivesNone(db, scan, config.grace, nowMs, world, f);
    }
  }

  // ---------- Whole sweeps ----------

  /** How far a sweep gets before its commits: not at all, to its generation, or through its observing loop. */
  lemma PreparingSteps(db: Db, config: SourceConfig, pass: ScanPass)
    ensures var prepared, candidates := Prepare(db, config, pass), CandidatesOf(pass);
            var looped := ObserveUpTo(FirstTally(db, config.registration, pass), NextScan(db, config.registration), config,
                                      candidates, |candidates|);
            || (prepared.error.Some? && (prepared.db == db || prepared.db == BeginSourceScan(db, config.registration).0))
            || (pass.listing.Some? && !DuplicateIdentity(candidates)
                && prepared.db == looped.db && prepared.accepted == looped.accepted
                && (prepared.error.None? ==> looped.error.None?))
  {
  }

  lemma PreparingPassesOver(db: Db, config: SourceConfig, world: World, tree: set<FileCandidate>, pass: ScanPass,
                            f: FileCandidate)
    requires Quiet(config, world, tree, pass) && f in tree && IsRecord(world, f)
    requires Admitted(db, config.registration.sourceId, f)
    ensures var prepared, scan := Prepare(db, config, pass), NextScan(db, config.registration);
            && prepared.db.store == db.store && Admitted(prepared.db, scan.sourceId, f)
            && (prepared.error.None? ==> PassedOver(prepared, db.store, scan, world, f, true))
  {
    var candidates, t := CandidatesOf(pass), FirstTally(db, config.registration, pass);
    var scan, prepared := NextScan(db, config.registration), Prepare(db, config, pass);
    QuietCandidates(config, world, tree, pass);
    PreparingSteps(db, config, pass);
    SeeingCounts(db, t.db, scan.sourceId, f);
    if !DuplicateIdentity(candidates) {
      assert FoundIn(candidates, f);
      var j :| 0 <= j < |candidates| && candidates[j].file == f;
      var us := TalliesOf(t, scan, config, candidates);
      SweepPassesOver(us, t, scan, config, world, tree, candidates, f, j);
    }
  }

  /** A sweep that meets the file unchanged leaves it stranded, whether the sweep succeeds or fails. */
  lemma SweepLeavesStranded(db: Db, config: SourceConfig, world: World, tree: set<FileCandidate>, pass: ScanPass,
                            f: FileCandidate)
    requires Quiet(config, world, tree, pass) && f in tree
    requires LedgerInv(db.store) && Stranded(db, config, world, f)
    ensures LedgerInv(ScanOnce(db, config, pass).db.store) && Stranded(ScanOnce(db, config, pass).db, config, world, f)
  {
    var scan, prepared := NextScan(db, config.registration), Prepare(db, config, pass);
    PreparingPassesOver(db, config, world, tree, pass, f);
    if prepared.error.None? {
      var us := CommitsOf(prepared.db, scan, config.registration, prepared.accepted);
      CommitsLeaveStranded(us, prepared.db, scan, config, world, prepared.accepted, f);
      CompletionLeavesStranded(us[|prepared.accepted|].db, scan, config, world, pass.completeMs, f);
    }
  }

  // ---------- What a scrub mends ----------

  /** A scrub visit reads the file as it is, and the source owns its record. */
  predicate MendedBy(db: Db, config: SourceConfig, world: World, step: Past, f: FileCandidate) {
    && step.Scrubbed? && VisitOf(world, step.visit, f)
    && step.visit.sourceId == config.registration.sourceId && ScrubOwns(db, step.visit.sourceId, step.visit.identity)
  }

  /** One of the steps mends the file. */
  predicate Mended(db: Db, config: SourceConfig, world: World, steps: seq<Past>, f: FileCandidate) {
    steps != [] &&
    var n := |steps| - 1;
    || Mended(db, config, world, steps[..n], f)
    || MendedBy(Happened(db, config, steps[..n]), config, world, steps[n], f)
  }

  lemma VisitLeavesStranded(db: Db, config: SourceConfig, world: World, tree: set<FileCandidate>, visit: DbOp,
                            f: FileCandidate)
    requires ScrubWork(visit, config.registration.sourceId) && VisitsTree(world, tree, visit)
    requires LedgerInv(db.store) && Stranded(db, config, world, f)
    requires !MendedBy(db, config, world, Scrubbed(visit), f)
    ensures Stranded(ApplyDb(db, visit), config, world, f)
  {
    ScrubTouchesNoObservation(db, visit);
    SeeingCounts(db, ApplyDb(db, visit), config.registration.sourceId, f);
    if visit.ObserveScrubbed? && ScrubOwns(db, visit.sourceId, visit.identity) {
      var a := Admission(ParsedRecord(visit.identity, visit.location), visit.revision, visit.nowMs);
      ObservationMatters(db.store, world, f.location, f.fingerprint, a);
    }
  }

  lemma StepLeavesStranded(db: Db, config: SourceConfig, world: World, tree: set<FileCandidate>, step: Past,
                           f: FileCandidate)
    requires QuietStep(config, world, tree, step) && f in tree && !MendedBy(db, config, world, step, f)
    requires LedgerInv(db.store) && Stranded(db, config, world, f)
    ensures LedgerInv(Happen(db, config, step).store) && Stranded(Happen(db, config, step), config, world, f)
  {
    match step
    case Ran(pass) => SweepLeavesStranded(db, config, world, tree, pass, f);
    case Worked(op) =>
      ApplyKeepsLedger(db.store, op);
      QueueWorkKeepsRecords(db.store, op);
      SeeingCounts(db, db.(store := Apply(db.store, op)), config.registration.sourceId, f);
    case Scrubbed(visit) =>
      VisitLeavesStranded(db, config, world, tree, visit, f);
      ScrubKeepsLedger(db, visit);
    case _ =>
  }

  lemma ScrubKeepsLedger(db: Db, visit: DbOp)
    requires LedgerInv(db.store) && (visit.AdvanceScrub? || visit.ObserveScrubbed?)
    ensures LedgerInv(ApplyDb(db, visit).store)
  {
    if visit.ObserveScrubbed? {
      ObservationTakesEffect(db.store, visit.identity, visit.location, visit.revision, visit.nowMs);
    }
  }

  /** However often an unchanging tree is swept, a stranded file of it stays stranded until a scrub mends it. */
  lemma {:induction false} StrandedForGood(db: Db, config: SourceConfig, world: World, tree: set<FileCandidate>,
                                           steps: seq<Past>, f: FileCandidate)
    requires EachQuiet(config, world, tree, steps) && f in tree && !Mended(db, config, world, steps, f)
    requires LedgerInv(db.store) && Stranded(db, config, world, f)
    ensures var t := Happened(db, config, steps);
            LedgerInv(t.store) && Stranded(t, config, world, f) && !ActiveAsRead(t.store, world, f)
    decreases |steps|
  {
    if steps != [] {
      var n := |steps| - 1;
      StrandedForGood(db, config, world, tree, steps[..n], f);
      StepLeavesStranded(Happened(db, config, steps[..n]), config, world, tree, steps[n], f);
    }
  }

  // ---------- What is not stranded stays so ----------

  /** Only this one fingerprint is watched. */
  function Watching(world: World, f: FileCandidate): World {
    world.(watched := (l, p) => l == f.location && p == f.fingerprint)
  }

  /** Nothing is watched. */
  function Blind(world: World): World { world.(watched := (l, p) => false) }

  /** No other file of the tree claims the file's record. */
  predicate Unrivalled(world: World, tree: set<FileCandidate>, f: FileCandidate) {
    IsRecord(world, f) &&
    forall g :: g in tree && IsRecord(world, g) && IdentityOf(world, g) == IdentityOf(world, f) ==> g == f
  }

  /** What is watched changes nothing about what a sweep meets. */
  lemma SameTree(config: SourceConfig, world: World, w: World, tree: set<FileCandidate>, pass: ScanPass)
    requires w.holds == world.holds && Quiet(config, world, tree, pass)
    ensures Quiet(config, w, tree, pass)
  {
    forall i | 0 <= i < |pass.listing.value| ensures QuietEntry(config, w, pass.listing.value[i]) {
      assert QuietEntry(config, world, pass.listing.value[i]);
    }
  }

  lemma SameSteps(config: SourceConfig, world: World, w: World, tree: set<FileCandidate>, steps: seq<Past>)
    requires w.holds == world.holds && EachQuiet(config, world, tree, steps)
    ensures EachQuiet(config, w, tree, steps)
  {
    forall i | 0 <= i < |steps| ensures QuietStep(config, w, tree, steps[i]) {
      SameStep(config, world, w, tree, steps[i]);
    }
  }

  lemma SameStep(config: SourceConfig, world: World, w: World, tree: set<FileCandidate>, step: Past)
    requires w.holds == world.holds && QuietStep(config, world, tree, step)
    ensures QuietStep(config, w, tree, step)
  {
    if step.Ran? {
      SameTree(config, world, w, tree, step.pass);
    }
    if step.Scrubbed? && step.visit.ObserveScrubbed? {
      var f :| f in tree && VisitOf(world, step.visit, f);
      assert VisitOf(w, step.visit, f);
    }
  }

  lemma SoundIsBlindlyHonest(db: Db, registration: SourceRegistration, world: World)
    requires Sound(db, registration)
    ensures Honest(db, registration, Blind(world))
  {
  }

  /** Watching one file, honesty says that it is not stranded. */
  lemma HonestIffNotStranded(db: Db, config: SourceConfig, world: World, f: FileCandidate)
    requires Sound(db, config.registration) && IsRecord(world, f)
    ensures Honest(db, config.registration, Watching(world, f)) <==> !Stranded(db, config, world, f)
  {
    var w, key := Watching(world, f), (config.registration.sourceId, f.location);
    if Honest(db, config.registration, w) && key in db.tables.observations {
      assert RowTrusted(db, w, key);
    }
  }

  lemma QuietStepKeepsHonesty(db: Db, config: SourceConfig, world: World, tree: set<FileCandidate>, step: Past)
    requires Honest(db, config.registration, world) && Apart(world, tree) && QuietStep(config, world, tree, step)
    ensures Honest(Happen(db, config, step), config.registration, world)
  {
    if step.Ran? {
      QuietIsTruthful(config, world, tree, step.pass);
      ScanKeepsHonesty(db, config, step.pass, world);
    } else {
      BetweenSweeps(db, config, world, tree, step);
    }
  }

  lemma QuietStepKeepsSound(db: Db, config: SourceConfig, world: World, tree: set<FileCandidate>, step: Past)
    requires Sound(db, config.registration) && QuietStep(config, world, tree, step)
    ensures Sound(Happen(db, config, step), config.registration)
  {
    SoundIsBlindlyHonest(db, config.registration, world);
    SameStep(config, world, Blind(world), tree, step);
    QuietStepKeepsHonesty(db, config, Blind(world), tree, step);
  }

  lemma StepStrandsNone(db: Db, config: SourceConfig, world: World, tree: set<FileCandidate>, step: Past, f: FileCandidate)
    requires Sound(db, config.registration) && QuietStep(config, world, tree, step)
    requires Unrivalled(world, tree, f) && !Stranded(db, config, world, f)
    ensures !Stranded(Happen(db, config, step), config, world, f)
  {
    var w := Watching(world, f);
    HonestIffNotStranded(db, config, world, f);
    SameStep(config, world, w, tree, step);
    QuietStepKeepsHonesty(db, config, w, tree, step);
    HonestIffNotStranded(Happen(db, config, step), config, world, f);
  }

  lemma MendedIsNotStranded(db: Db, config: SourceConfig, world: World, step: Past, f: FileCandidate)
    requires LedgerInv(db.store) && MendedBy(db, config, world, step, f)
    ensures !Stranded(Happen(db, config, step), config, world, f)
  {
    VisitMends(db, world, step.visit, f);
  }

  /** Exactly which files are stranded after any quiet steps: those that were, and that no scrub has mended since. */
  lemma {:induction false} StrandedUntilMended(db: Db, config: SourceConfig, world: World, tree: set<FileCandidate>,
                                               steps: seq<Past>, f: FileCandidate)
    requires Sound(db, config.registration) && EachQuiet(config, world, tree, steps)
    requires f in tree && Unrivalled(world, tree, f)
    ensures Sound(Happened(db, config, steps), config.registration)
    ensures Stranded(Happened(db, config, steps), config, world, f)
            <==> Stranded(db, config, world, f) && !Mended(db, config, world, steps, f)
    decreases |steps|
  {
    if steps != [] {
      var n := |steps| - 1;
      var mid := Happened(db, config, steps[..n]);
      StrandedUntilMended(db, config, world, tree, steps[..n], f);
      QuietStepKeepsSound(mid, config, world, tree, steps[n]);
      if !Stranded(mid, config, world, f) {
        StepStrandsNone(mid, config, world, tree, steps[n], f);
      } else if MendedBy(mid, config, world, steps[n], f) {
        MendedIsNotStranded(mid, config, world, steps[n], f);
      } else {
        StepLeavesStranded(mid, config, world, tree, steps[n], f);
      }
    }
  }
}
