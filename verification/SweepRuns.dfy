/** A sweep is a run of the catalog's own transactions, so everything proved of runs holds after any number of sweeps. */
module SweepRuns {
  import opened Wrappers
  import opened Domain
  import opened Tables
  import opened Queue
  import opened Sources
  import opened Scan
  import opened ScrubLaws
  import opened Honesty
  import opened Crashes
  import opened Visits
  import opened Backoff
  import opened Convergence

  predicate AllOwn(ops: seq<DbOp>, registration: SourceRegistration) {
    forall i :: 0 <= i < |ops| ==> Own(ops[i], registration)
  }

  /** Some transactions of the source's own lead from one database to the other. */
  ghost predicate LeadsTo(a: Db, b: Db, registration: SourceRegistration) {
    exists ops: seq<DbOp> :: AllOwn(ops, registration) && RunDb(a, ops) == b
  }

  lemma LeadsToSelf(a: Db, registration: SourceRegistration)
    ensures LeadsTo(a, a, registration)
  {
    assert AllOwn([], registration) && RunDb(a, []) == a;
  }

  lemma LeadsBy(a: Db, op: DbOp, registration: SourceRegistration)
    requires Own(op, registration)
    ensures LeadsTo(a, ApplyDb(a, op), registration)
  {
    assert AllOwn([op], registration) && RunDb(a, [op]) == RunDb(ApplyDb(a, op), []);
  }

  lemma LeadsOn(a: Db, b: Db, c: Db, registration: SourceRegistration)
    requires LeadsTo(a, b, registration) && LeadsTo(b, c, registration)
    ensures LeadsTo(a, c, registration)
  {
    var first: seq<DbOp> :| AllOwn(first, registration) && RunDb(a, first) == b;
    var second: seq<DbOp> :| AllOwn(second, registration) && RunDb(b, second) == c;
    RunDbConcat(a, first, second);
    assert AllOwn(first + second, registration);
  }

  lemma ObserveOneLeads(t: Tally, u: Tally, scan: SourceScan, config: SourceConfig, c: Candidate)
    requires TallyFollows(t, u, scan, config, c)
    requires scan.sourceId == config.registration.sourceId
    ensures LeadsTo(t.db, u.db, config.registration)
  {
    var noted := ApplyDb(t.db, ObserveFingerprint(scan, c.record.location, c.file.fingerprint));
    var seen := ApplyDb(noted, MarkSeen(scan, config.registration, c.record.identity));
    LeadsToSelf(t.db, config.registration);
    LeadsBy(t.db, ObserveFingerprint(scan, c.record.location, c.file.fingerprint), config.registration);
    LeadsBy(noted, MarkSeen(scan, config.registration, c.record.identity), config.registration);
    LeadsOn(t.db, noted, seen, config.registration);
    assert u.db == t.db || u.db == noted || u.db == seen;
  }

  lemma ObservedLeads(db: Db, scan: SourceScan, registration: SourceRegistration, a: Admission)
    requires scan.sourceId == registration.sourceId
    ensures LeadsTo(db, ObservePresentFromSource(db, scan, registration, a.record.identity, a.record.location, a.revision,
                                                 a.commitMs).0, registration)
  {
    var observe := OnStore(Observe(a.record.identity, a.record.location, a.revision, a.commitMs));
    var observed := ApplyDb(db, observe);
    LeadsToSelf(db, registration);
    LeadsBy(db, observe, registration);
    LeadsBy(observed, MarkSeen(scan, registration, a.record.identity), registration);
    LeadsOn(db, observed, ApplyDb(observed, MarkSeen(scan, registration, a.record.identity)), registration);
  }

  lemma CommitOneLeads(t: Commits, u: Commits, scan: SourceScan, registration: SourceRegistration, a: Admission)
    requires CommitFollows(t, u, scan, registration, a)
    requires scan.sourceId == registration.sourceId
    ensures LeadsTo(t.db, u.db, registration)
  {
    LeadsToSelf(t.db, registration);
    ObservedLeads(t.db, scan, registration, a);
    var observed := ObservePresentFromSource(t.db, scan, registration, a.record.identity, a.record.location, a.revision,
                                             a.commitMs).0;
    LeadsBy(observed, MarkHashed(scan, a.record.location), registration);
    LeadsOn(t.db, observed, ApplyDb(observed, MarkHashed(scan, a.record.location)), registration);
  }

  lemma ObservingLeads(t: Tally, scan: SourceScan, config: SourceConfig, candidates: seq<Candidate>, n: nat)
    requires n <= |candidates| && scan.sourceId == config.registration.sourceId
    ensures LeadsTo(t.db, ObserveUpTo(t, scan, config, candidates, n).db, config.registration)
  {
    var us := TalliesUpTo(t, scan, config, candidates, n);
    LeadsToSelf(t.db, config.registration);
    for i := 0 to n
      invariant LeadsTo(t.db, us[i].db, config.registration)
    {
      assert TallyFollows(us[i], us[i + 1], scan, config, candidates[i]);
      ObserveOneLeads(us[i], us[i + 1], scan, config, candidates[i]);
      LeadsOn(t.db, us[i].db, us[i + 1].db, config.registration);
    }
  }

  lemma CommittingLeads(db: Db, scan: SourceScan, registration: SourceRegistration, accepted: seq<Admission>, n: nat)
    requires n <= |accepted| && scan.sourceId == registration.sourceId
    ensures LeadsTo(db, CommitUpTo(db, scan, registration, accepted, n).db, registration)
  {
    var us := CommitsUpTo(db, scan, registration, accepted, n);
    LeadsToSelf(db, registration);
    for i := 0 to n
      invariant LeadsTo(db, us[i].db, registration)
    {
      assert CommitFollows(us[i], us[i + 1], scan, registration, accepted[i]);
      CommitOneLeads(us[i], us[i + 1], scan, registration, accepted[i]);
      LeadsOn(db, us[i].db, us[i + 1].db, registration);
    }
  }

  lemma SweepLeads(db: Db, scan: SourceScan, config: SourceConfig, entries: seq<ScanEntry>)
    requires scan.sourceId == config.registration.sourceId
    ensures LeadsTo(db, Sweep(db, scan, config, entries).db, config.registration)
  {
    LeadsToSelf(db, config.registration);
    var look := LookUpTo(entries, |entries|);
    ObservingLeads(Tally(db, NO_REPORT.(changedDuringScan := look.changed), [], None), scan, config, look.candidates,
                     |look.candidates|);
  }

  lemma PrepareLeads(db: Db, config: SourceConfig, pass: ScanPass)
    ensures LeadsTo(db, Prepare(db, config, pass).db, config.registration)
  {
    LeadsToSelf(db, config.registration);
    LeadsBy(db, BeginScan(config.registration), config.registration);
    var (begun, started) := BeginSourceScan(db, config.registration);
    if started.Ok? && pass.listing.Some? {
      SweepLeads(begun, started.value, config, pass.listing.value);
      LeadsOn(db, begun, Sweep(begun, started.value, config, pass.listing.value).db, config.registration);
    }
  }

  lemma CompleteLeads(t: Commits, scan: SourceScan, config: SourceConfig, nowMs: Millis)
    requires scan.sourceId == config.registration.sourceId
    ensures LeadsTo(t.db, Complete(t, scan, config, nowMs).db, config.registration)
  {
    LeadsToSelf(t.db, config.registration);
    LeadsBy(t.db, CompleteScan(scan, config.grace, nowMs), config.registration);
  }

  lemma ScanLeads(db: Db, config: SourceConfig, pass: ScanPass)
    ensures LeadsTo(db, ScanOnce(db, config, pass).db, config.registration)
  {
    PrepareLeads(db, config, pass);
    var scan, prepared := NextScan(db, config.registration), Prepare(db, config, pass);
    var committed := CommitUpTo(prepared.db, scan, config.registration, prepared.accepted, |prepared.accepted|);
    CommittingLeads(prepared.db, scan, config.registration, prepared.accepted, |prepared.accepted|);
    CompleteLeads(committed, scan, config, pass.completeMs);
    LeadsOn(db, prepared.db, committed.db, config.registration);
    LeadsOn(db, committed.db, Complete(committed, scan, config, pass.completeMs).db, config.registration);
  }

  lemma CrashLeads(db: Db, config: SourceConfig, pass: ScanPass, n: nat, half: bool)
    ensures LeadsTo(db, CrashedSweep(db, config, pass, n, half), config.registration)
  {
    var candidates, scan := CandidatesOf(pass), NextScan(db, config.registration);
    var t, done := FirstTally(db, config.registration, pass), Min(n, |CandidatesOf(pass)|);
    var u := ObserveUpTo(t, scan, config, candidates, done);
    LeadsBy(db, BeginScan(config.registration), config.registration);
    ObservingLeads(t, scan, config, candidates, done);
    LeadsOn(db, t.db, u.db, config.registration);
    if done < |candidates| {
      var observe := ObserveFingerprint(scan, candidates[done].record.location, candidates[done].file.fingerprint);
      LeadsBy(u.db, observe, config.registration);
      LeadsOn(db, u.db, ApplyDb(u.db, observe), config.registration);
    }
  }

  lemma PartLeads(db: Db, scan: SourceScan, registration: SourceRegistration, a: Admission, part: CommitPart)
    requires scan.sourceId == registration.sourceId
    ensures LeadsTo(db, PartOfCommit(db, scan, registration, a, part), registration)
  {
    LeadsToSelf(db, registration);
    LeadsBy(db, OnStore(Observe(a.record.identity, a.record.location, a.revision, a.commitMs)), registration);
    ObservedLeads(db, scan, registration, a);
  }

  lemma LateCrashLeads(db: Db, config: SourceConfig, pass: ScanPass, commits: nat, part: CommitPart)
    ensures LeadsTo(db, CrashedCommits(db, config, pass, commits, part), config.registration)
  {
    PrepareLeads(db, config, pass);
    var scan, prepared := NextScan(db, config.registration), Prepare(db, config, pass);
    var n := Min(commits, |prepared.accepted|);
    var t := CommitUpTo(prepared.db, scan, config.registration, prepared.accepted, n);
    CommittingLeads(prepared.db, scan, config.registration, prepared.accepted, n);
    LeadsOn(db, prepared.db, t.db, config.registration);
    if n < |prepared.accepted| {
      var a := prepared.accepted[n];
      PartLeads(t.db, scan, config.registration, a, part);
      LeadsOn(db, t.db, PartOfCommit(t.db, scan, config.registration, a, part), config.registration);
    }
  }

  lemma StepLeads(db: Db, config: SourceConfig, past: Past)
    ensures LeadsTo(db, Happen(db, config, past), config.registration)
  {
    match past
    case Ran(pass) => ScanLeads(db, config, pass);
    case Crashed(pass, candidates, half) => CrashLeads(db, config, pass, candidates, half);
    case CrashedLate(pass, commits, part) => LateCrashLeads(db, config, pass, commits, part);
    case Worked(op) =>
      LeadsToSelf(db, config.registration);
      LeadsBy(db, OnStore(op), config.registration);
    case Scrubbed(visit) =>
      LeadsToSelf(db, config.registration);
      if ScrubWork(visit, config.registration.sourceId) {
        LeadsBy(db, visit, config.registration);
      }
  }

  lemma {:induction false} HistoryLeads(db: Db, config: SourceConfig, history: seq<Past>)
    ensures LeadsTo(db, Happened(db, config, history), config.registration)
    decreases |history|
  {
    if history == [] {
      LeadsToSelf(db, config.registration);
    } else {
      var n := |history| - 1;
      HistoryLeads(db, config, history[..n]);
      StepLeads(Happened(db, config, history[..n]), config, history[n]);
      LeadsOn(db, Happened(db, config, history[..n]), Happened(db, config, history), config.registration);
    }
  }

  /** After any history of sweeps and scrubs, failed, crashed and untruthful ones included, ledger and queue are sound. */
  lemma SweptStoresAreSound(config: SourceConfig, history: seq<Past>)
    ensures StoreInv(Happened(EMPTY_DB, config, history).store)
  {
    HistoryLeads(EMPTY_DB, config, history);
    var ops: seq<DbOp> :|
      AllOwn(ops, config.registration) && RunDb(EMPTY_DB, ops) == Happened(EMPTY_DB, config, history);
    ReachableDatabasesAreSound(ops);
  }

  lemma {:induction false} OwnRunKeepsSound(db: Db, ops: seq<DbOp>, registration: SourceRegistration)
    requires Sound(db, registration) && AllOwn(ops, registration)
    ensures Sound(RunDb(db, ops), registration)
    decreases |ops|
  {
    if ops != [] {
      OwnOpKeepsSound(db, ops[0], registration);
      OwnRunKeepsSound(ApplyDb(db, ops[0]), ops[1..], registration);
    }
  }

  /** So are the tables of the source: whatever it met, it owns what is owned, and its rows lie in its generations. */
  lemma SweptSourcesAreSound(config: SourceConfig, history: seq<Past>)
    ensures Sound(Happened(EMPTY_DB, config, history), config.registration)
  {
    HistoryLeads(EMPTY_DB, config, history);
    var ops: seq<DbOp> :|
      AllOwn(ops, config.registration) && RunDb(EMPTY_DB, ops) == Happened(EMPTY_DB, config, history);
    OwnRunKeepsSound(EMPTY_DB, ops, config.registration);
  }
}
