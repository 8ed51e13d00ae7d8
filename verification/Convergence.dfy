/** Where sweeps of an unchanging tree lead: its files active and admitted, everything else tombstoned, then silence. */
module Convergence {
  import opened Domain
  import opened Tables
  import opened Ledger
  import opened Queue
  import opened Sources
  import opened Files
  import opened Scan
  import opened Honesty
  import opened Crashes
  import opened Converge
  import opened Visits

  // ---------- What happens to a source ----------

  /** A subscription was created, paused or resumed, or a delivery was leased, settled, retried or blocked. */
  predicate QueueWork(op: Op) { !op.Observe? && !op.Tombstone? }

  /**
   * A sweep ran to its end or failed, or crashed before or among its commits; between sweeps deliveries go on, and the
   * source's scrub commits its transactions one by one.
   */
  datatype Past =
    | Ran(pass: ScanPass)
    | Crashed(pass: ScanPass, candidates: nat, half: bool)
    | CrashedLate(pass: ScanPass, commits: nat, part: CommitPart)
    | Worked(op: Op)
    | Scrubbed(visit: DbOp)
  {
    predicate Sweeps() { Ran? || Crashed? || CrashedLate? }
  }

  function Happen(db: Db, config: SourceConfig, past: Past): Db {
    match past
    case Ran(pass) => ScanOnce(db, config, pass).db
    case Crashed(pass, candidates, half) => CrashedSweep(db, config, pass, candidates, half)
    case CrashedLate(pass, commits, part) => CrashedCommits(db, config, pass, commits, part)
    case Worked(op) => if QueueWork(op) then db.(store := Apply(db.store, op)) else db
    case Scrubbed(visit) => if ScrubWork(visit, config.registration.sourceId) then ApplyDb(db, visit) else db
  }

  function Happened(db: Db, config: SourceConfig, history: seq<Past>): Db {
    if history == [] then db
    else Happen(Happened(db, config, history[..|history| - 1]), config, history[|history| - 1])
  }

  predicate EachTruthful(config: SourceConfig, world: World, history: seq<Past>) {
    forall i :: 0 <= i < |history| && history[i].Sweeps() ==> PassTruthful(config, world, history[i].pass)
  }

  /**
   * If this is a crash among the commits, none of the files observed by then had moved from an admitted place; if a
   * scrub visit observed, no admitted fingerprint of its record stands for anything else.
   */
  predicate StrandsNothing(db: Db, config: SourceConfig, world: World, past: Past) {
    var id := config.registration.sourceId;
    && (past.CrashedLate? && Prepare(db, config, past.pass).error.None? ==>
          var prepared := Prepare(db, config, past.pass);
          NoneDisplaced(prepared.db, id, world, Touched(prepared.accepted, past.commits, past.part)))
    && (past.Scrubbed? && past.visit.ObserveScrubbed? && past.visit.sourceId == id
        && ScrubOwns(db, id, past.visit.identity) ==>
          VisitAgrees(db, id, world, past.visit.identity, past.visit.location, past.visit.revision))
  }

  predicate NothingStranded(db: Db, config: SourceConfig, world: World, history: seq<Past>) {
    history == [] ||
    var n := |history| - 1;
    && NothingStranded(db, config, world, history[..n])
    && StrandsNothing(Happened(db, config, history[..n]), config, world, history[n])
  }

  lemma QueueWorkKeepsRecords(s: Store, op: Op)
    requires QueueWork(op)
    ensures Apply(s, op).records == s.records && Apply(s, op).revisions == s.revisions
  {
    if op.Lease? {
      LeaseNextCases(s, op.k, op.nowMs, op.durationMs);
    }
  }

  lemma QueueWorkKeepsHonesty(db: Db, registration: SourceRegistration, world: World, op: Op)
    requires Honest(db, registration, world) && QueueWork(op)
    ensures Honest(db.(store := Apply(db.store, op)), registration, world)
  {
    ApplyKeepsLedger(db.store, op);
    QueueWorkKeepsRecords(db.store, op);
    SameRecordsStayHonest(db, Apply(db.store, op), registration, world);
  }

  lemma SameRecordsStayHonest(db: Db, s: Store, registration: SourceRegistration, world: World)
    requires Honest(db, registration, world) && LedgerInv(s)
    requires s.records == db.store.records && s.revisions == db.store.revisions
    ensures Honest(db.(store := s), registration, world)
  {
    forall key | key in db.tables.observations && key.0 == registration.sourceId
      ensures RowTrusted(db.(store := s), world, key)
    {
      assert RowTrusted(db, world, key);
    }
  }

  lemma StepKeepsHonesty(db: Db, config: SourceConfig, world: World, past: Past)
    requires Honest(db, config.registration, world) && StrandsNothing(db, config, world, past)
    requires past.Sweeps() ==> PassTruthful(config, world, past.pass)
    ensures Honest(Happen(db, config, past), config.registration, world)
  {
    match past
    case Ran(pass) => ScanKeepsHonesty(db, config, pass, world);
    case Crashed(pass, candidates, half) => CrashBeforeCommitsKeepsHonesty(db, config, pass, world, candidates, half);
    case CrashedLate(pass, commits, part) =>
      if Prepare(db, config, pass).error.None? {
        CrashAmongCommitsIsHonestIff(db, config, pass, world, commits, part);
      } else {
        PreparingKeepsHonesty(db, config, pass, world);
      }
    case Worked(op) =>
      if QueueWork(op) {
        QueueWorkKeepsHonesty(db, config.registration, world, op);
      }
    case Scrubbed(visit) =>
      if ScrubWork(visit, config.registration.sourceId) {
        AgreeingVisitKeepsHonesty(db, config, world, visit);
      }
  }

  lemma AgreeingVisitKeepsHonesty(db: Db, config: SourceConfig, world: World, visit: DbOp)
    requires Honest(db, config.registration, world) && StrandsNothing(db, config, world, Scrubbed(visit))
    requires ScrubWork(visit, config.registration.sourceId)
    ensures Honest(ApplyDb(db, visit), config.registration, world)
  {
    if visit.ObserveScrubbed? && ScrubOwns(db, visit.sourceId, visit.identity) {
      VisitIsHonestIff(db, config.registration, world, visit.identity, visit.location, visit.revision, visit.nowMs);
    } else {
      SilentVisitKeepsHonesty(db, config.registration, world, visit);
    }
  }

  /** Whatever trees the earlier sweeps met, and however they failed or crashed, a source that stranded none is honest. */
  lemma {:induction false} HistoryIsHonest(config: SourceConfig, world: World, history: seq<Past>)
    requires EachTruthful(config, world, history) && NothingStranded(EMPTY_DB, config, world, history)
    ensures Honest(Happened(EMPTY_DB, config, history), config.registration, world)
    decreases |history|
  {
    if history == [] {
      NewDatabaseIsHonest(config.registration, world);
    } else {
      var n := |history| - 1;
      HistoryIsHonest(config, world, history[..n]);
      StepKeepsHonesty(Happened(EMPTY_DB, config, history[..n]), config, world, history[n]);
    }
  }

  // ---------- Steps that leave the tree alone ----------

  /** A sweep that meets exactly this tree, a scrub visit to a file of it, or work on the queue. */
  predicate QuietStep(config: SourceConfig, world: World, tree: set<FileCandidate>, step: Past) {
    match step
    case Ran(pass) => Quiet(config, world, tree, pass)
    case Worked(op) => QueueWork(op)
    case Scrubbed(visit) => ScrubWork(visit, config.registration.sourceId) && VisitsTree(world, tree, visit)
    case _ => false
  }

  predicate EachQuiet(config: SourceConfig, world: World, tree: set<FileCandidate>, steps: seq<Past>) {
    forall i :: 0 <= i < |steps| ==> QuietStep(config, world, tree, steps[i])
  }

  predicate AllSucceed(db: Db, config: SourceConfig, steps: seq<Past>) {
    steps == [] ||
    var n := |steps| - 1;
    && AllSucceed(db, config, steps[..n])
    && (steps[n].Ran? ==> Succeeds(Happened(db, config, steps[..n]), config, steps[n].pass))
  }

  function PassesOf(steps: seq<Past>): seq<ScanPass> {
    if steps == [] then []
    else
      var n := |steps| - 1;
      PassesOf(steps[..n]) + if steps[n].Ran? then [steps[n].pass] else []
  }

  // ---------- Every wanted file is admitted in time ----------

  lemma ProperSubsetIsSmaller<T>(a: set<T>, b: set<T>, x: T)
    requires a <= b && x in b && x !in a
    ensures |a| < |b|
  {
    SubsetIsSmaller(a, b - {x});
  }

  lemma {:induction false} SubsetIsSmaller<T>(a: set<T>, b: set<T>)
    requires a <= b
    ensures |a| <= |b|
    decreases a
  {
    if a != {} {
      var x :| x in a;
      SubsetIsSmaller(a - {x}, b - {x});
    }
  }

  predicate CountedAtLeast(db: Db, config: SourceConfig, world: World, tree: set<FileCandidate>, k: nat) {
    forall f :: f in Wanted(config, world, tree) ==> Count(db, config.registration.sourceId, f) >= k
  }

  /** Once every wanted file is stable, a successful sweep admits at least one that was pending. */
  lemma PendingShrinks(db: Db, t: Db, config: SourceConfig, world: World, tree: set<FileCandidate>,
                       candidates: seq<Candidate>, k: nat)
    requires SweptOnce(db, t, config, candidates) && CandidatesAre(config, world, tree, candidates)
    requires CountedAtLeast(db, config, world, tree, k)
    ensures CountedAtLeast(t, config, world, tree, k + 1)
    ensures Pending(t, config, world, tree) <= Pending(db, config, world, tree)
    ensures k + 1 >= config.minObservations && Pending(db, config, world, tree) != {} ==>
              |Pending(t, config, world, tree)| < |Pending(db, config, world, tree)|
  {
    var id := config.registration.sourceId;
    forall f | f in Wanted(config, world, tree)
      ensures Count(t, id, f) >= k + 1 && (Admitted(db, id, f) ==> Admitted(t, id, f))
    {
      assert FoundIn(candidates, f);
      var i :| 0 <= i < |candidates| && candidates[i].file == f;
    }
    if k + 1 >= config.minObservations && Pending(db, config, world, tree) != {} {
      var f :| f in Pending(db, config, world, tree);
      assert FoundIn(candidates, f);
      var j :| 0 <= j < |candidates| && candidates[j].file == f;
      assert Ready(db, config, candidates[j]);
      var i :| 0 <= i < |candidates| && Ready(db, config, candidates[i]) && Admitted(t, id, candidates[i].file);
      assert QuietCandidate(config, world, candidates[i]);
      ProperSubsetIsSmaller(Pending(t, config, world, tree), Pending(db, config, world, tree), candidates[i].file);
    }
  }

  /** After `k` successful sweeps: seen `k` times each, and at most `n + m - 1 - k` still pending. */
  predicate OnSchedule(db: Db, config: SourceConfig, world: World, tree: set<FileCandidate>, k: nat) {
    && CountedAtLeast(db, config, world, tree, k)
    && var pending := |Pending(db, config, world, tree)|;
    && pending <= |Wanted(config, world, tree)|
    && (pending == 0 || pending + k <= |Wanted(config, world, tree)| + config.minObservations - 1)
  }

  lemma ScheduleStep(db: Db, config: SourceConfig, world: World, tree: set<FileCandidate>, pass: ScanPass, k: nat)
    requires Honest(db, config.registration, world) && Quiet(config, world, tree, pass) && Succeeds(db, config, pass)
    requires OnSchedule(db, config, world, tree, k)
    ensures Honest(ScanOnce(db, config, pass).db, config.registration, world)
    ensures OnSchedule(ScanOnce(db, config, pass).db, config, world, tree, k + 1)
  {
    ScanSweepsOnce(db, config, world, tree, pass);
    var t := ScanOnce(db, config, pass).db;
    PendingShrinks(db, t, config, world, tree, CandidatesOf(pass), k);
    SubsetIsSmaller(Pending(t, config, world, tree), Pending(db, config, world, tree));
  }

  /** Neither work on the queue nor a scrub changes any observation. */
  lemma SameObservationsSamePending(db: Db, t: Db, config: SourceConfig, world: World, tree: set<FileCandidate>)
    requires t.tables.observations == db.tables.observations
    ensures Pending(t, config, world, tree) == Pending(db, config, world, tree)
  {
    forall f: FileCandidate
      ensures Admitted(t, config.registration.sourceId, f) <==> Admitted(db, config.registration.sourceId, f)
    {
      SeeingCounts(db, t, config.registration.sourceId, f);
    }
  }

  lemma SameObservationsSameSchedule(db: Db, t: Db, config: SourceConfig, world: World, tree: set<FileCandidate>, k: nat)
    requires OnSchedule(db, config, world, tree, k) && t.tables.observations == db.tables.observations
    ensures OnSchedule(t, config, world, tree, k)
  {
    SameObservationsSamePending(db, t, config, world, tree);
    forall f | f in Wanted(config, world, tree) ensures Count(t, config.registration.sourceId, f) >= k {
      SeeingCounts(db, t, config.registration.sourceId, f);
    }
  }

  /** Between the sweeps no observation changes, and nothing watched is hurt. */
  lemma BetweenSweeps(db: Db, config: SourceConfig, world: World, tree: set<FileCandidate>, step: Past)
    requires QuietStep(config, world, tree, step) && !step.Ran?
    ensures Happen(db, config, step).tables.observations == db.tables.observations
    ensures Honest(db, config.registration, world) && Apart(world, tree) ==>
              Honest(Happen(db, config, step), config.registration, world)
  {
    if Honest(db, config.registration, world) && Apart(world, tree) {
      if step.Worked? {
        QueueWorkKeepsHonesty(db, config.registration, world, step.op);
      } else {
        TreeVisitsKeepHonesty(db, config.registration, world, tree, step.visit);
      }
    }
    if step.Scrubbed? {
      ScrubTouchesNoObservation(db, step.visit);
    }
  }

  lemma QuietStepKeepsSchedule(db: Db, config: SourceConfig, world: World, tree: set<FileCandidate>, step: Past, k: nat)
    requires Honest(db, config.registration, world) && Apart(world, tree) && QuietStep(config, world, tree, step)
    requires step.Ran? ==> Succeeds(db, config, step.pass)
    requires OnSchedule(db, config, world, tree, k)
    ensures Honest(Happen(db, config, step), config.registration, world)
    ensures OnSchedule(Happen(db, config, step), config, world, tree, if step.Ran? then k + 1 else k)
  {
    if step.Ran? {
      ScheduleStep(db, config, world, tree, step.pass, k);
    } else {
      BetweenSweeps(db, config, world, tree, step);
      SameObservationsSameSchedule(db, Happen(db, config, step), config, world, tree, k);
    }
  }

  lemma {:induction false} StepsKeepSchedule(db: Db, config: SourceConfig, world: World, tree: set<FileCandidate>,
                                             steps: seq<Past>)
    requires Honest(db, config.registration, world) && Apart(world, tree)
    requires EachQuiet(config, world, tree, steps) && AllSucceed(db, config, steps)
    ensures Honest(Happened(db, config, steps), config.registration, world)
    ensures OnSchedule(Happened(db, config, steps), config, world, tree, |PassesOf(steps)|)
    decreases |steps|
  {
    if steps == [] {
      SubsetIsSmaller(Pending(db, config, world, tree), Wanted(config, world, tree));
    } else {
      var n := |steps| - 1;
      StepsKeepSchedule(db, config, world, tree, steps[..n]);
      QuietStepKeepsSchedule(Happened(db, config, steps[..n]), config, world, tree, steps[n], |PassesOf(steps[..n])|);
    }
  }

  /** `m - 1 + n` successful sweeps of an unchanging tree admit all `n` files within the limits, one per sweep at least. */
  lemma NothingStaysPending(db: Db, config: SourceConfig, world: World, tree: set<FileCandidate>, steps: seq<Past>)
    requires Honest(db, config.registration, world) && Apart(world, tree)
    requires EachQuiet(config, world, tree, steps) && AllSucceed(db, config, steps)
    requires |PassesOf(steps)| >= config.minObservations - 1 + |Wanted(config, world, tree)|
    ensures Honest(Happened(db, config, steps), config.registration, world)
    ensures Pending(Happened(db, config, steps), config, world, tree) == {}
  {
    StepsKeepSchedule(db, config, world, tree, steps);
  }

  // ---------- Quiet sweeps do succeed ----------

  /** No two files claim one identity, and hashed lengths are the files' own and fit 64 bits. */
  predicate WellFormed(world: World, tree: set<FileCandidate>) {
    && (forall f, g :: f in tree && g in tree && IsRecord(world, f) && IsRecord(world, g) && f != g ==>
          world.holds(f.location, f.fingerprint).value.0 != world.holds(g.location, g.fingerprint).value.0)
    && (forall f :: f in tree && IsRecord(world, f) ==>
          world.holds(f.location, f.fingerprint).value.1.byteLength == f.fingerprint.byteLength <= U64_MAX)
  }

  lemma NoDuplicates(config: SourceConfig, world: World, tree: set<FileCandidate>, candidates: seq<Candidate>)
    requires CandidatesAre(config, world, tree, candidates) && WellFormed(world, tree)
    ensures !DuplicateIdentity(candidates)
  {
    forall i, j | 0 <= i < j < |candidates|
      ensures candidates[i].record.identity != candidates[j].record.identity
    {
      assert QuietCandidate(config, world, candidates[i]) && QuietCandidate(config, world, candidates[j]);
      assert candidates[i].file in tree && candidates[j].file in tree;
    }
  }

  /** A candidate of the tree never stops the loop. */
  lemma ObservingSucceeds(t: Tally, store: Store, scan: SourceScan, config: SourceConfig, world: World,
                          tree: set<FileCandidate>, candidates: seq<Candidate>, n: nat)
    requires n < |candidates| && CandidatesAre(config, world, tree, candidates) && WellFormed(world, tree)
    requires config.hashByteBudget <= U64_MAX && AllTruthful(config, world, candidates)
    requires SweptHonestly(t, store, scan, config.registration, world, candidates, n)
    requires t.error.None?
    ensures ObserveOne(t, scan, config, candidates[n]).error.None?
  {
    var c := candidates[n];
    assert QuietCandidate(config, world, c) && c.file in tree && CandidateTruthful(config, world, c);
    FingerprintSweeps(t.db, scan, config.registration, world, candidates, n);
    var noted := ObserveSourceFingerprint(t.db, scan, c.record.location, c.file.fingerprint).0;
    SeeingSweeps(noted, scan, config.registration, c.record.identity);
    ObservedDb(t, scan, config, c);
  }

  /** On a well-formed tree, with a budget of 64 bits, every quiet sweep succeeds. */
  lemma QuietSweepsSucceed(db: Db, config: SourceConfig, world: World, tree: set<FileCandidate>, pass: ScanPass)
    requires Honest(db, config.registration, world) && Quiet(config, world, tree, pass)
    requires WellFormed(world, tree) && config.hashByteBudget <= U64_MAX
    ensures Succeeds(db, config, pass)
  {
    var candidates, t := CandidatesOf(pass), FirstTally(db, config.registration, pass);
    var scan := NextScan(db, config.registration);
    QuietIsTruthful(config, world, tree, pass);
    QuietCandidates(config, world, tree, pass);
    NoDuplicates(config, world, tree, candidates);
    CandidatesAreTruthful(config, world, pass);
    FirstTallyIsHonest(db, config, pass, world, candidates);
    var us := TalliesOf(t, scan, config, candidates);
    for n := 0 to |candidates|
      invariant us[n].error.None?
      invariant SweptHonestly(us[n], db.store, scan, config.registration, world, candidates, n)
    {
      SweepStep(us, t, db.store, scan, config, world, candidates, n);
      assert TallyFollows(us[n], us[n + 1], scan, config, candidates[n]);
      ObservingSucceeds(us[n], db.store, scan, config, world, tree, candidates, n);
    }
    BeginningSweeps(db, config.registration, world, []);
    LookingSucceeds(config, world, tree, pass);
    ScanKeepsHonesty(db, config, pass, world);
  }

  lemma LookingSucceeds(config: SourceConfig, world: World, tree: set<FileCandidate>, pass: ScanPass)
    requires Quiet(config, world, tree, pass)
    ensures LookUpTo(pass.listing.value, |pass.listing.value|).error.None?
  {
    var entries := pass.listing.value;
    for n := 0 to |entries|
      invariant LookUpTo(entries, n).error.None?
    {
      assert QuietEntry(config, world, entries[n]);
    }
  }

  lemma {:induction false} QuietSweepsAllSucceed(db: Db, config: SourceConfig, world: World, tree: set<FileCandidate>,
                                                 steps: seq<Past>)
    requires Honest(db, config.registration, world) && Apart(world, tree) && EachQuiet(config, world, tree, steps)
    requires WellFormed(world, tree) && config.hashByteBudget <= U64_MAX
    ensures AllSucceed(db, config, steps)
    decreases |steps|
  {
    if steps != [] {
      var n := |steps| - 1;
      QuietSweepsAllSucceed(db, config, world, tree, steps[..n]);
      StepsKeepSchedule(db, config, world, tree, steps[..n]);
      assert QuietStep(config, world, tree, steps[n]);
      if steps[n].Ran? {
        QuietSweepsSucceed(Happened(db, config, steps[..n]), config, world, tree, steps[n].pass);
      }
    }
  }
}
