/** The reconciler: the sweep and the scrub of one source, over the durable catalog. */
module Reconciler {
  import opened Wrappers
  import opened Domain
  import opened Tables
  import opened Sources
  import opened Files
  import opened Scan
  import opened Scrub
  import opened ScrubBudget
  import opened ScrubLaws
  import opened SweepEffects
  import CatalogModule = Catalog

  datatype ScrubCounters = ScrubCounters(
    candidatesConsidered: nat,
    filesHashed: nat,
    bytesHashed: nat,
    changedDuringScrub: nat,
    untrackedCandidates: nat)

  datatype ScrubReport = ScrubReport(start: ScrubRow, end: ScrubRow, counters: ScrubCounters, completedCycle: bool)

  ghost function PlanOfCounters(c: ScrubCounters, stop: Stop, ops: seq<DbOp>): Plan {
    Plan(ops, c.candidatesConsidered, c.filesHashed, c.bytesHashed, c.changedDuringScrub, stop)
  }

  function CountVisit(c: ScrubCounters, verdict: Verdict, untracked: nat): ScrubCounters {
    ScrubCounters(c.candidatesConsidered + 1,
                  c.filesHashed + if verdict.Admit? then 1 else 0,
                  c.bytesHashed + if verdict.Admit? then verdict.revision.byteLength else 0,
                  c.changedDuringScrub + if verdict.PassBy? && verdict.changed then 1 else 0,
                  c.untrackedCandidates + untracked)
  }

  /** The scrub refuses a source that is unknown, or registered as something else. */
  predicate Verified(db: Db, registration: SourceRegistration) {
    registration.sourceId in db.tables.sources && db.tables.sources[registration.sourceId].registration == registration
  }

  /** How many hashed files turned out to belong to no record of the source. */
  function Untracked(db: Db, ops: seq<DbOp>): nat {
    if ops == [] then 0
    else
      var n := |ops| - 1;
      Untracked(db, ops[..n]) + UntrackedBy(RunDb(db, ops[..n]), ops[n])
  }

  function UntrackedBy(db: Db, op: DbOp): nat {
    if op.ObserveScrubbed? && !ScrubOwns(db, op.sourceId, op.identity) then 1 else 0
  }

  lemma UntrackedSnoc(db: Db, ops: seq<DbOp>, op: DbOp)
    ensures Untracked(db, ops + [op]) ==
            Untracked(db, ops) + UntrackedBy(RunDb(db, ops), op)
  {
    assert (ops + [op])[..|ops|] == ops;
  }

  /** A file observed for a record that, at that moment, does not exist or is not this source's. */
  predicate NobodysRecord(db: Db, op: DbOp) {
    && op.ObserveScrubbed?
    && var found := FindRecord(db.store.records, op.identity);
    found.Some? && found.value in db.tables.owners ==> db.tables.owners[found.value].sourceId != op.sourceId
  }

  predicate UntrackedAt(db: Db, ops: seq<DbOp>, i: nat)
    requires i < |ops|
  {
    NobodysRecord(RunDb(db, ops[..i]), ops[i])
  }

  function UntrackedAmong(db: Db, ops: seq<DbOp>): set<nat> {
    set i | 0 <= i < |ops| && UntrackedAt(db, ops, i)
  }

  /** The untracked counter is the number of such files. */
  lemma {:induction false} UntrackedIsSize(db: Db, ops: seq<DbOp>)
    ensures Untracked(db, ops) == |UntrackedAmong(db, ops)|
    decreases |ops|
  {
    if ops != [] {
      var n := |ops| - 1;
      UntrackedIsSize(db, ops[..n]);
      OneMoreUntracked(db, ops, n);
    }
  }

  lemma UntrackedAtStays(db: Db, ops: seq<DbOp>, n: nat, i: nat)
    requires i < n <= |ops|
    ensures UntrackedAt(db, ops[..n], i) == UntrackedAt(db, ops, i)
  {
    assert ops[..n][..i] == ops[..i];
  }

  lemma UntrackedAmongSnoc(db: Db, ops: seq<DbOp>, n: nat)
    requires |ops| == n + 1
    ensures UntrackedAmong(db, ops) == UntrackedAmong(db, ops[..n]) + if UntrackedAt(db, ops, n) then {n} else {}
  {
    var earlier, all := UntrackedAmong(db, ops[..n]), UntrackedAmong(db, ops);
    forall i: nat ensures i in all <==> i in earlier || (i == n && UntrackedAt(db, ops, n)) {
      if i < n {
        UntrackedAtStays(db, ops, n, i);
      }
    }
  }

  lemma OneMoreUntracked(db: Db, ops: seq<DbOp>, n: nat)
    requires |ops| == n + 1
    ensures |UntrackedAmong(db, ops)| == |UntrackedAmong(db, ops[..n])| + if UntrackedAt(db, ops, n) then 1 else 0
  {
    var earlier := UntrackedAmong(db, ops[..n]);
    UntrackedAmongSnoc(db, ops, n);
    assert n !in earlier;
  }

  predicate UntrackedAdds(db: Db, a: seq<DbOp>, b: seq<DbOp>) {
    Untracked(db, a + b) == Untracked(db, a) + Untracked(RunDb(db, a), b)
  }

  lemma UntrackedOneMore(db: Db, a: seq<DbOp>, b: seq<DbOp>, op: DbOp)
    requires UntrackedAdds(db, a, b)
    ensures UntrackedAdds(db, a, b + [op])
  {
    UntrackedBetween(db, RunDb(db, a), a, b, op);
  }

  lemma UntrackedBetween(db: Db, mid: Db, a: seq<DbOp>, b: seq<DbOp>, op: DbOp)
    requires mid == RunDb(db, a) && Untracked(db, a + b) == Untracked(db, a) + Untracked(mid, b)
    ensures Untracked(db, a + (b + [op])) == Untracked(db, a) + Untracked(mid, b + [op])
  {
    assert a + (b + [op]) == a + b + [op];
    UntrackedSnoc(db, a + b, op);
    RunDbConcat(db, a, b);
    UntrackedSnoc(mid, b, op);
  }

  lemma UntrackedConcat(db: Db, a: seq<DbOp>, b: seq<DbOp>)
    ensures Untracked(db, a + b) == Untracked(db, a) + Untracked(RunDb(db, a), b)
  {
    assert a + b[..0] == a;
    for n := 0 to |b|
      invariant UntrackedAdds(db, a, b[..n])
    {
      UntrackedOneMore(db, a, b[..n], b[n]);
      assert b[..n + 1] == b[..n] + [b[n]];
    }
    assert b[..|b|] == b;
  }

  /** The database after these transactions, with so many of the hashed files untracked. */
  predicate CommitsExactly(before: Db, after: Db, ops: seq<DbOp>, untracked: nat) {
    after == RunDb(before, ops) && untracked == Untracked(before, ops)
  }

  lemma CommitsOn(before: Db, mid: Db, after: Db, a: seq<DbOp>, m: nat, b: seq<DbOp>, n: nat)
    requires CommitsExactly(before, mid, a, m) && after == RunDb(mid, b) && n == Untracked(mid, b)
    ensures CommitsExactly(before, after, a + b, m + n)
  {
    RunDbConcat(before, a, b);
    UntrackedConcat(before, a, b);
  }

  /** What the report of an invocation that returns `Ok` says. */
  predicate ReportMatches(before: Db, after: Db, id: SourceId, pass: ScrubPass, report: ScrubReport) {
    var start := CursorOf(before, id);
    var p := PlanOf(id, start, pass);
    && report.start == ScrubProgress(before.tables, id) && report.end == ScrubProgress(after.tables, id)
    && report.counters.candidatesConsidered == p.considered == |Trail(id, p.ops)|
    && report.counters.filesHashed == p.filesHashed == |HashedLengths(p.ops)|
    && report.counters.bytesHashed == Total(HashedLengths(p.ops))
    && report.counters.changedDuringScrub == p.changed
    && report.counters.untrackedCandidates == Untracked(before, p.ops)
    && report.completedCycle == EndsCycle(id, start, pass)
  }

  /** Why the pass stopped, or else the second root check. */
  function FirstError(stop: Stop): SourceError { if stop.Failed? then stop.error else UnhealthyRoot }

  /** An invocation commits the transactions of its pass, and returns `Ok` exactly when nothing failed. */
  predicate ScrubbedBy(before: Db, after: Db, id: SourceId, pass: ScrubPass, r: Result<ScrubReport, SourceError>) {
    var start := CursorOf(before, id);
    && after == RunDb(before, PassOps(id, start, pass))
    && (r.Ok? <==> !PlanOf(id, start, pass).stop.Failed? && pass.rootsAfter)
    && (r.Err? ==> r.error == FirstError(PlanOf(id, start, pass).stop))
    && (r.Ok? ==> ReportMatches(before, after, id, pass, r.value))
  }

  /** What an invocation that never starts reports. */
  function RefusalOf(pass: ScrubPass, registered: bool): SourceError {
    if !pass.rootsBefore then UnhealthyRoot
    else CatalogFailed(if registered then SourceRegistrationConflict else SourceScanConflict)
  }

  lemma PlanOfPass(id: SourceId, start: Option<LogicalLocation>, pass: ScrubPass)
    requires pass.rootsBefore && pass.listing.Some?
    ensures PlanOf(id, start, pass)
            == PlanUpTo(id, start, Sorted(pass.listing.value), pass.byteBudget, |Sorted(pass.listing.value)|)
  {
  }

  lemma CountersAgree(id: SourceId, start: Option<LogicalLocation>, pass: ScrubPass)
    requires pass.rootsBefore && pass.listing.Some?
    ensures var p := PlanOf(id, start, pass);
            && (!p.stop.Failed? ==> p.considered == |Trail(id, p.ops)|)
            && p.filesHashed == |HashedLengths(p.ops)|
            && p.bytesHashed == Total(HashedLengths(p.ops))
            && (!EndsCycle(id, start, pass) ==> PassOps(id, start, pass) == p.ops)
  {
    var sorted := Sorted(pass.listing.value);
    PlanConsiders(id, start, sorted, pass.byteBudget, |sorted|);
    CountedBytesAreBounded(id, start, sorted, pass.byteBudget, |sorted|);
  }

  lemma FailedScrub(before: Db, mid: Db, id: SourceId, pass: ScrubPass, counters: ScrubCounters, stop: Stop,
                    ops: seq<DbOp>)
    requires pass.rootsBefore && pass.listing.Some?
    requires PlanOfCounters(counters, stop, ops) == PlanOf(id, CursorOf(before, id), pass)
    requires CommitsExactly(before, mid, ops, counters.untrackedCandidates) && (stop.Failed? || !pass.rootsAfter)
    ensures ScrubbedBy(before, mid, id, pass, Err(FirstError(stop)))
  {
    CountersAgree(id, CursorOf(before, id), pass);
  }

  lemma SucceededScrub(before: Db, mid: Db, after: Db, id: SourceId, pass: ScrubPass, counters: ScrubCounters,
                       stop: Stop, ops: seq<DbOp>)
    requires pass.rootsBefore && pass.listing.Some?
    requires PlanOfCounters(counters, stop, ops) == PlanOf(id, CursorOf(before, id), pass)
    requires CommitsExactly(before, mid, ops, counters.untrackedCandidates) && !stop.Failed? && pass.rootsAfter
    requires after == if stop.Going? then ApplyDb(mid, AdvanceScrub(id, None, pass.endMs)) else mid
    ensures ScrubbedBy(before, after, id, pass,
                       Ok(ScrubReport(ScrubProgress(before.tables, id), ScrubProgress(after.tables, id), counters, stop.Going?)))
  {
    CountersAgree(id, CursorOf(before, id), pass);
    RunDbSnoc(before, ops, AdvanceScrub(id, None, pass.endMs));
  }

  lemma RunDbOne(db: Db, op: DbOp)
    ensures RunDb(db, [op]) == ApplyDb(db, op)
    ensures Untracked(db, [op]) == UntrackedBy(db, op)
  {
    assert RunDb(db, [op]) == RunDb(ApplyDb(db, op), []);
    assert [op][..0] == [];
  }

  class Reconciler {
    const config: SourceConfig

    constructor (config: SourceConfig)
      ensures this.config == config
    {
      this.config := config;
    }

    // ---------- The sweep ----------

    method LookAtAll(entries: seq<ScanEntry>) returns (look: FirstLook)
      ensures look.error == LookUpTo(entries, |entries|).error
      ensures look.error.None? ==> look == LookUpTo(entries, |entries|)
    {
      var candidates, changed: nat := [], 0;
      for n := 0 to |entries|
        invariant FirstLook(candidates, changed, None) == LookUpTo(entries, n)
      {
        var entry := entries[n];
        if entry.opening.OpenFailed? {
          ErrorsAreKept(entries, n + 1);
          return FirstLook([], 0, Some(ReadFailed));
        }
        if entry.opening.current != entry.file.fingerprint {
          changed := changed + 1;
          continue;
        }
        match entry.opening.parse
        case ParseFailed =>
          ErrorsAreKept(entries, n + 1);
          return FirstLook([], 0, Some(ReadFailed));
        case NotARecord =>
        case Parsed(record) =>
          candidates := candidates + [Candidate(entry.file, record, entry.reopening, entry.commitMs)];
      }
      return FirstLook(candidates, changed, None);
    }

    method HasDuplicate(candidates: seq<Candidate>) returns (duplicate: bool)
      ensures duplicate <==> DuplicateIdentity(candidates)
    {
      var identities := {};
      for n := 0 to |candidates|
        invariant forall identity :: identity in identities <==>
                    exists i :: 0 <= i < n && candidates[i].record.identity == identity
        invariant forall i, j :: 0 <= i < j < n ==> candidates[i].record.identity != candidates[j].record.identity
      {
        if candidates[n].record.identity in identities {
          return true;
        }
        identities := identities + {candidates[n].record.identity};
      }
      return false;
    }

    /** Observes, marks seen and perhaps hashes each candidate; the tally ends where the first error does. */
    method ObserveAll(catalog: CatalogModule.Catalog, scan: SourceScan, candidates: seq<Candidate>, changed: nat)
      returns (report: ReconcileReport, accepted: seq<Admission>, error: Option<SourceError>)
      modifies catalog`observations, catalog`owners, catalog`missing
      ensures Tally(catalog.Database(), report, accepted, error)
              == ObserveUpTo(Tally(old(catalog.Database()), NO_REPORT.(changedDuringScan := changed), [], None), scan,
                             config, candidates, |candidates|)
    {
      report, accepted, error := NO_REPORT.(changedDuringScan := changed), [], None;
      ghost var start := Tally(catalog.Database(), report, [], None);
      for n := 0 to |candidates|
        invariant Tally(catalog.Database(), report, accepted, error) == ObserveUpTo(start, scan, config, candidates, n)
      {
        if error.None? {
          report, accepted, error := ObserveCandidate(catalog, scan, candidates[n], report, accepted);
        }
      }
    }

    method ObserveCandidate(catalog: CatalogModule.Catalog, scan: SourceScan, c: Candidate, before: ReconcileReport,
                            prior: seq<Admission>)
      returns (report: ReconcileReport, accepted: seq<Admission>, error: Option<SourceError>)
      modifies catalog`observations, catalog`owners, catalog`missing
      ensures Tally(catalog.Database(), report, accepted, error)
              == ObserveOne(Tally(old(catalog.Database()), before, prior, None), scan, config, c)
    {
      report, accepted, error := before, prior, None;
      var observed := catalog.ObserveSourceFingerprint(scan, c.record.location, c.file.fingerprint);
      if observed.Err? {
        return before, prior, Some(CatalogFailed(observed.error));
      }
      var seen := catalog.MarkSourceRecordSeen(scan, config.registration, c.record.identity);
      if seen.Err? {
        return before, prior, Some(CatalogFailed(seen.error));
      }
      if observed.value.unchangedObservations < config.minObservations {
        report := report.(awaitingStability := report.awaitingStability + 1);
        return;
      }
      if !observed.value.needsHash {
        report := report.(alreadyStable := report.alreadyStable + 1);
        return;
      }
      if OverSizeLimit(config, c.file) {
        report := report.(deferredBySizeLimit := report.deferredBySizeLimit + 1);
        return;
      }
      if report.bytesHashed > 0 && report.bytesHashed + c.file.fingerprint.byteLength > config.hashByteBudget {
        report := report.(deferredByHashBudget := report.deferredByHashBudget + 1);
        return;
      }
      match LookAgain(c)
      case RehashFailed => error := Some(ReadFailed);
      case RehashChanged => report := report.(changedDuringScan := report.changedDuringScan + 1);
      case Rehashed(revision) =>
        if report.bytesHashed + revision.byteLength > U64_MAX {
          error := Some(HashCounterOverflow);
          return;
        }
        report := report.(bytesHashed := report.bytesHashed + revision.byteLength);
        accepted := accepted + [Admission(c.record, revision, c.commitMs)];
    }

    /** Commits one accepted file, and then admits its hash. */
    method CommitAccepted(catalog: CatalogModule.Catalog, scan: SourceScan, a: Admission)
      returns (r: Result<seq<ArchiveEvent>, SourceError>)
      modifies catalog`records, catalog`revisions, catalog`events, catalog`deliveries, catalog`nextId
      modifies catalog`owners, catalog`missing, catalog`observations
      ensures Commits(catalog.Database(), if r.Ok? then None else Some(r.error))
              == CommitOne(Commits(old(catalog.Database()), None), scan, config.registration, a)
      ensures r.Ok? ==> Appended(old(catalog.events), r.value, catalog.events)
    {
      var observed := catalog.ObservePresentFromSource(scan, config.registration, a.record.identity, a.record.location,
                                                       a.revision, a.commitMs);
      if observed.Err? {
        return Err(CatalogFailed(observed.error));
      }
      var marked := catalog.MarkSourceFingerprintHashed(scan, a.record.location);
      if marked.Err? {
        return Err(CatalogFailed(marked.error));
      }
      return Ok(observed.value);
    }

    /** Commits the accepted files in turn, up to the first error. */
    method CommitAll(catalog: CatalogModule.Catalog, scan: SourceScan, accepted: seq<Admission>)
      returns (emitted: seq<ArchiveEvent>, error: Option<SourceError>)
      modifies catalog`records, catalog`revisions, catalog`events, catalog`deliveries, catalog`nextId
      modifies catalog`owners, catalog`missing, catalog`observations
      ensures Commits(catalog.Database(), error)
              == CommitUpTo(old(catalog.Database()), scan, config.registration, accepted, |accepted|)
      ensures error.None? ==> Appended(old(catalog.events), emitted, catalog.events)
    {
      emitted, error := [], None;
      ghost var start := catalog.Database();
      for n := 0 to |accepted|
        invariant Commits(catalog.Database(), error) == CommitUpTo(start, scan, config.registration, accepted, n)
        invariant error.None? ==> Appended(old(catalog.events), emitted, catalog.events)
      {
        if error.None? {
          ghost var prior := catalog.events;
          var committed := CommitAccepted(catalog, scan, accepted[n]);
          if committed.Ok? {
            AppendedOn(old(catalog.events), emitted, prior, committed.value, catalog.events);
            emitted := emitted + committed.value;
          } else {
            error := Some(committed.error);
          }
        }
      }
    }

    method FinishSweep(catalog: CatalogModule.Catalog, scan: SourceScan, accepted: seq<Admission>, completeMs: Millis)
      returns (r: Result<seq<ArchiveEvent>, SourceError>)
      modifies catalog
      ensures Commits(catalog.Database(), if r.Ok? then None else Some(r.error))
              == Complete(CommitUpTo(old(catalog.Database()), scan, config.registration, accepted, |accepted|), scan,
                          config, completeMs)
      ensures r.Ok? ==> Appended(old(catalog.events), r.value, catalog.events)
    {
      var emitted, error := CommitAll(catalog, scan, accepted);
      if error.Some? {
        return Err(error.value);
      }
      ghost var prior := catalog.events;
      var completed := catalog.CompleteSourceScan(scan, config.grace, completeMs);
      if completed.Err? {
        return Err(CatalogFailed(completed.error));
      }
      AppendedOn(old(catalog.events), emitted, prior, completed.value, catalog.events);
      return Ok(emitted + completed.value);
    }

    /** Everything before the first commit: the new generation, both looks, and the second root check. */
    method PrepareSweep(catalog: CatalogModule.Catalog, pass: ScanPass)
      returns (report: ReconcileReport, accepted: seq<Admission>, scan: SourceScan, error: Option<SourceError>)
      modifies catalog`sources, catalog`observations, catalog`owners, catalog`missing
      ensures var spec := Prepare(old(catalog.Database()), config, pass);
              && catalog.Database() == spec.db && error == spec.error
              && (error.None? ==> report == spec.report && accepted == spec.accepted
                                  && scan == NextScan(old(catalog.Database()), config.registration))
    {
      report, accepted, scan, error := NO_REPORT, [], SourceScan(config.registration.sourceId, 0), None;
      if !pass.rootsBefore {
        return NO_REPORT, [], scan, Some(UnhealthyRoot);
      }
      var begun := catalog.BeginSourceScan(config.registration);
      if begun.Err? {
        return NO_REPORT, [], scan, Some(CatalogFailed(begun.error));
      }
      if pass.listing.None? {
        return NO_REPORT, [], scan, Some(ReadFailed);
      }
      scan := begun.value;
      report, accepted, error := SweepListing(catalog, scan, pass.listing.value);
      if error.None? && !pass.rootsAfter {
        error := Some(UnhealthyRoot);
      }
    }

    method SweepListing(catalog: CatalogModule.Catalog, scan: SourceScan, entries: seq<ScanEntry>)
      returns (report: ReconcileReport, accepted: seq<Admission>, error: Option<SourceError>)
      modifies catalog`observations, catalog`owners, catalog`missing
      ensures Tally(catalog.Database(), report, accepted, error) == Sweep(old(catalog.Database()), scan, config, entries)
    {
      var look := LookAtAll(entries);
      if look.error.Some? {
        return NO_REPORT, [], look.error;
      }
      var duplicate := HasDuplicate(look.candidates);
      if duplicate {
        return NO_REPORT, [], Some(DuplicateLiveIdentity);
      }
      report, accepted, error := ObserveAll(catalog, scan, look.candidates, look.changed);
    }

    /** One reconciliation sweep. */
    method Scan(catalog: CatalogModule.Catalog, pass: ScanPass)
      returns (r: Result<(ReconcileReport, seq<ArchiveEvent>), SourceError>)
      modifies catalog
      ensures Commits(catalog.Database(), if r.Ok? then None else Some(r.error))
              == ScanOnce(old(catalog.Database()), config, pass)
      ensures r.Ok? ==> r.value.0 == Prepare(old(catalog.Database()), config, pass).report
                        && catalog.events == old(catalog.events) + r.value.1
      ensures !pass.rootsBefore || !pass.rootsAfter ==> r.Err? && catalog.State() == old(catalog.State())
      ensures MustFail(pass) ==> r.Err? && OnlyObserved(old(catalog.Database()), catalog.Database())
    {
      if MustFail(pass) {
        BadSweepsCommitNothing(catalog.Database(), config, pass);
      }
      var report, accepted, scan, error := PrepareSweep(catalog, pass);
      if error.Some? {
        return Err(error.value);
      }
      var finished := FinishSweep(catalog, scan, accepted, pass.completeMs);
      return if finished.Ok? then Ok((report, finished.value)) else Err(finished.error);
    }

    // ---------- The scrub ----------

    /** Visits one candidate. The cursor moves past it unless the visit fails. */
    method VisitCandidate(catalog: CatalogModule.Catalog, file: FileCandidate, v: ScrubVisit, bytesHashed: nat,
                          ghost p: Plan)
      returns (verdict: Verdict, emitted: seq<ArchiveEvent>, untracked: nat)
      requires config.registration.sourceId in catalog.sources && p.bytesHashed == bytesHashed
      modifies catalog`records, catalog`revisions, catalog`events, catalog`deliveries, catalog`nextId, catalog`scrubs
      ensures verdict == Counted(p, Judge(file, v))
      ensures catalog.Database()
              == RunDb(old(catalog.Database()), VisitOps(config.registration.sourceId, file.location, verdict))
      ensures untracked
              == Untracked(old(catalog.Database()), VisitOps(config.registration.sourceId, file.location, verdict))
      ensures Appended(old(catalog.events), emitted, catalog.events)
    {
      var id := config.registration.sourceId;
      emitted, untracked := [], 0;
      if v.Unopenable? {
        return Abort(ReadFailed), [], 0;
      }
      if v.before != file.fingerprint {
        RunDbOne(catalog.Database(), AdvanceTo(id, file.location, v.nowMs));
        var _ := catalog.AdvanceSourceScrub(id, Some(file.location), v.nowMs);
        return PassBy(true, v.nowMs), [], 0;
      }
      if v.parse.ParseFailed? {
        return Abort(ReadFailed), [], 0;
      }
      if v.parse.NotARecord? {
        RunDbOne(catalog.Database(), AdvanceTo(id, file.location, v.nowMs));
        var _ := catalog.AdvanceSourceScrub(id, Some(file.location), v.nowMs);
        return PassBy(false, v.nowMs), [], 0;
      }
      if v.parse.record.location != file.location {
        return Abort(InvalidProviderRecord), [], 0;
      }
      if v.hash.HashFailed? {
        return Abort(ReadFailed), [], 0;
      }
      if v.before != v.hash.after {
        RunDbOne(catalog.Database(), AdvanceTo(id, file.location, v.nowMs));
        var _ := catalog.AdvanceSourceScrub(id, Some(file.location), v.nowMs);
        return PassBy(true, v.nowMs), [], 0;
      }
      if bytesHashed + v.hash.revision.byteLength > U64_MAX {
        return Abort(HashCounterOverflow), [], 0;
      }
      emitted, untracked := ObserveAndAdvance(catalog, v.parse.record.identity, file.location, v.hash.revision, v.nowMs);
      return Verdict.Admit(v.parse.record.identity, v.hash.revision, v.nowMs), emitted, untracked;
    }

    method ObserveAndAdvance(catalog: CatalogModule.Catalog, identity: RecordIdentity, location: LogicalLocation,
                             revision: CanonicalRevision, nowMs: Millis)
      returns (emitted: seq<ArchiveEvent>, untracked: nat)
      requires config.registration.sourceId in catalog.sources
      modifies catalog`records, catalog`revisions, catalog`events, catalog`deliveries, catalog`nextId, catalog`scrubs
      ensures var ops := VisitOps(config.registration.sourceId, location, Verdict.Admit(identity, revision, nowMs));
              && catalog.Database() == RunDb(old(catalog.Database()), ops)
              && untracked == Untracked(old(catalog.Database()), ops)
      ensures Appended(old(catalog.events), emitted, catalog.events)
    {
      var id := config.registration.sourceId;
      var observed := catalog.ObserveScrubbedPresentAt(id, identity, location, revision, nowMs);
      HashedVisit(old(catalog.Database()), catalog.Database(), id, location, identity, revision, nowMs);
      var _ := catalog.AdvanceSourceScrub(id, Some(location), nowMs);
      return if observed.Some? then observed.value else [], if observed.Some? then 0 else 1;
    }

    /** Skips a candidate, stops at the budget, or visits the candidate. */
    method ScrubOne(catalog: CatalogModule.Catalog, start: Option<LogicalLocation>, entry: ScrubEntry, byteBudget: nat,
                    before: ScrubCounters, priorStop: Stop, ghost priorOps: seq<DbOp>)
      returns (report: ScrubCounters, stop: Stop, emitted: seq<ArchiveEvent>, ghost more: seq<DbOp>)
      requires config.registration.sourceId in catalog.sources
      modifies catalog`records, catalog`revisions, catalog`events, catalog`deliveries, catalog`nextId, catalog`scrubs
      ensures PlanOfCounters(report, stop, priorOps + more)
              == PlanOne(PlanOfCounters(before, priorStop, priorOps), config.registration.sourceId, start, entry, byteBudget)
      ensures report.untrackedCandidates == before.untrackedCandidates + Untracked(old(catalog.Database()), more)
      ensures catalog.Database() == RunDb(old(catalog.Database()), more)
      ensures Appended(old(catalog.events), emitted, catalog.events)
    {
      report, stop, emitted, more := before, priorStop, [], [];
      assert priorOps + [] == priorOps;
      if !stop.Going? || Skipped(start, entry.file.location) {
        return;
      }
      if report.bytesHashed > 0 && report.bytesHashed + entry.file.fingerprint.byteLength > byteBudget {
        stop := Exhausted;
        return;
      }
      var verdict, events, untracked :=
        VisitCandidate(catalog, entry.file, entry.visit, report.bytesHashed, PlanOfCounters(before, priorStop, priorOps));
      more, emitted := VisitOps(config.registration.sourceId, entry.file.location, verdict), events;
      report := CountVisit(report, verdict, untracked);
      stop := if verdict.Abort? then Failed(verdict.error) else stop;
    }

    /** Takes the candidates in location order. */
    method ScrubSorted(catalog: CatalogModule.Catalog, start: Option<LogicalLocation>, sorted: seq<ScrubEntry>,
                       byteBudget: nat)
      returns (report: ScrubCounters, stop: Stop, emitted: seq<ArchiveEvent>, ghost ops: seq<DbOp>)
      requires config.registration.sourceId in catalog.sources
      modifies catalog`records, catalog`revisions, catalog`events, catalog`deliveries, catalog`nextId, catalog`scrubs
      ensures PlanOfCounters(report, stop, ops)
              == PlanUpTo(config.registration.sourceId, start, sorted, byteBudget, |sorted|)
      ensures CommitsExactly(old(catalog.Database()), catalog.Database(), ops, report.untrackedCandidates)
      ensures Appended(old(catalog.events), emitted, catalog.events)
    {
      report, stop, emitted, ops := ScrubCounters(0, 0, 0, 0, 0), Going, [], [];
      for n := 0 to |sorted|
        invariant PlanOfCounters(report, stop, ops)
                  == PlanUpTo(config.registration.sourceId, start, sorted, byteBudget, n)
        invariant CommitsExactly(old(catalog.Database()), catalog.Database(), ops, report.untrackedCandidates)
        invariant Appended(old(catalog.events), emitted, catalog.events)
        invariant config.registration.sourceId in catalog.sources
      {
        ghost var before, prior, counted := catalog.Database(), catalog.events, report.untrackedCandidates;
        var events;
        ghost var more;
        report, stop, events, more := ScrubOne(catalog, start, sorted[n], byteBudget, report, stop, ops);
        CommitsOn(old(catalog.Database()), before, catalog.Database(), ops, counted, more, Untracked(before, more));
        AppendedOn(old(catalog.events), emitted, prior, events, catalog.events);
        emitted, ops := emitted + events, ops + more;
      }
    }

    /** Clears the cursor when no candidate is left, and reads the progress back. */
    method EndCycleIf(catalog: CatalogModule.Catalog, finished: bool, nowMs: Millis) returns (progress: ScrubRow)
      requires config.registration.sourceId in catalog.sources
      modifies catalog`scrubs
      ensures catalog.Database()
              == if finished then ApplyDb(old(catalog.Database()), AdvanceScrub(config.registration.sourceId, None, nowMs))
                 else old(catalog.Database())
      ensures progress == ScrubProgress(catalog.Database().tables, config.registration.sourceId)
    {
      var id := config.registration.sourceId;
      if finished {
        var _ := catalog.AdvanceSourceScrub(id, None, nowMs);
      }
      progress := if id in catalog.scrubs then catalog.scrubs[id] else ScrubRow(None, 0, None);
    }

    method ScrubVerified(catalog: CatalogModule.Catalog, pass: ScrubPass)
      returns (r: Result<ScrubReport, SourceError>, emitted: seq<ArchiveEvent>)
      requires pass.rootsBefore && pass.listing.Some? && Verified(catalog.Database(), config.registration)
      modifies catalog
      ensures ScrubbedBy(old(catalog.Database()), catalog.Database(), config.registration.sourceId, pass, r)
      ensures Appended(old(catalog.events), emitted, catalog.events)
    {
      var id := config.registration.sourceId;
      var start := if id in catalog.scrubs then catalog.scrubs[id] else ScrubRow(None, 0, None);
      ghost var before := catalog.Database();
      var counters, stop: Stop;
      ghost var ops;
      counters, stop, emitted, ops := ScrubSorted(catalog, start.cursor, Sorted(pass.listing.value), pass.byteBudget);
      ghost var mid := catalog.Database();
      PlanOfPass(id, start.cursor, pass);
      if stop.Failed? {
        FailedScrub(before, mid, id, pass, counters, stop, ops);
        return Err(stop.error), emitted;
      }
      if !pass.rootsAfter {
        FailedScrub(before, mid, id, pass, counters, stop, ops);
        return Err(UnhealthyRoot), emitted;
      }
      var end := EndCycleIf(catalog, stop.Going?, pass.endMs);
      SucceededScrub(before, mid, catalog.Database(), id, pass, counters, stop, ops);
      r := Ok(ScrubReport(start, end, counters, stop.Going?));
    }

    /** One invocation of the scrub. */
    method Scrub(catalog: CatalogModule.Catalog, pass: ScrubPass)
      returns (r: Result<ScrubReport, SourceError>, emitted: seq<ArchiveEvent>)
      modifies catalog
      ensures if pass.rootsBefore && Verified(old(catalog.Database()), config.registration)
              then ScrubbedBy(old(catalog.Database()), catalog.Database(), config.registration.sourceId, pass, r)
              else && r == Err(RefusalOf(pass, config.registration.sourceId in old(catalog.sources)))
                   && catalog.Database() == old(catalog.Database())
      ensures Appended(old(catalog.events), emitted, catalog.events)
    {
      emitted := [];
      var id := config.registration.sourceId;
      if !pass.rootsBefore {
        return Err(UnhealthyRoot), [];
      }
      if id !in catalog.sources {
        return Err(CatalogFailed(SourceScanConflict)), [];
      }
      if catalog.sources[id].registration != config.registration {
        return Err(CatalogFailed(SourceRegistrationConflict)), [];
      }
      if pass.listing.None? {
        return Err(ReadFailed), [];
      }
      r, emitted := ScrubVerified(catalog, pass);
    }
  }

  /** A file hashed, observed and passed: two transactions, and whether the record was the source's. */
  lemma HashedVisit(db: Db, observed: Db, id: SourceId, location: LogicalLocation, identity: RecordIdentity,
                    revision: CanonicalRevision, nowMs: Millis)
    requires observed == ApplyDb(db, ObserveScrubbed(id, identity, location, revision, nowMs))
    ensures var ops := VisitOps(id, location, Verdict.Admit(identity, revision, nowMs));
            && RunDb(db, ops) == ApplyDb(observed, AdvanceTo(id, location, nowMs))
            && Untracked(db, ops) == if ScrubOwns(db, id, identity) then 0 else 1
  {
    var first, second := ObserveScrubbed(id, identity, location, revision, nowMs), AdvanceTo(id, location, nowMs);
    RunDbOne(db, first);
    RunDbOne(observed, second);
    RunDbConcat(db, [first], [second]);
    UntrackedConcat(db, [first], [second]);
    assert [first] + [second] == VisitOps(id, location, Verdict.Admit(identity, revision, nowMs));
  }

  predicate Appended(before: seq<ArchiveEvent>, emitted: seq<ArchiveEvent>, after: seq<ArchiveEvent>) {
    after == before + emitted
  }

  lemma AppendedOn(a: seq<ArchiveEvent>, b: seq<ArchiveEvent>, prior: seq<ArchiveEvent>, c: seq<ArchiveEvent>,
                   after: seq<ArchiveEvent>)
    requires Appended(a, b, prior) && Appended(prior, c, after)
    ensures Appended(a, b + c, after)
  {
  }

  lemma ErrorsAreKept(entries: seq<ScanEntry>, n: nat)
    requires n <= |entries| && LookUpTo(entries, n).error.Some?
    ensures LookUpTo(entries, |entries|) == LookUpTo(entries, n)
  {
    for i := n to |entries|
      invariant LookUpTo(entries, i) == LookUpTo(entries, n)
    {
    }
  }
}
