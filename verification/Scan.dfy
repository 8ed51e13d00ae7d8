/** One reconciliation sweep of a source: what it reads, what it commits, and what it reports. */
module Scan {
  import opened Wrappers
  import opened Domain
  import opened Sources
  import opened Files

  datatype ConfigFields = ConfigFields(
    registration: SourceRegistration,
    grace: Option<TombstoneGrace>,
    minObservations: nat,
    hashByteBudget: nat,
    maxCandidateBytes: Option<nat>)

  /** `StabilityPolicy::new` refuses zero observations. */
  type SourceConfig = c: ConfigFields | 0 < c.minObservations
    witness ConfigFields(SourceRegistration("s", 0, "codex-rollout", 1), None, 2, 0, None)

  /** The first look at a file, which identifies its record. */
  datatype Opening = OpenFailed | First(current: SourceFingerprint, parse: Parse)

  /** The second look, which hashes it. */
  datatype Reopening = ReopenFailed | Second(before: SourceFingerprint, parse: Parse, hash: HashRead)

  datatype ScanEntry = ScanEntry(file: FileCandidate, opening: Opening, reopening: Reopening, commitMs: Millis)

  /** What one sweep meets: root checks, the enumeration unless it fails, and what each file shows when looked at. */
  datatype ScanPass = ScanPass(
    rootsBefore: bool,
    listing: Option<seq<ScanEntry>>,
    rootsAfter: bool,
    completeMs: Millis)

  datatype ReconcileReport = ReconcileReport(
    awaitingStability: nat,
    alreadyStable: nat,
    deferredByHashBudget: nat,
    deferredBySizeLimit: nat,
    changedDuringScan: nat,
    bytesHashed: nat)

  const NO_REPORT := ReconcileReport(0, 0, 0, 0, 0, 0)

  datatype Candidate = Candidate(file: FileCandidate, record: ParsedRecord, reopening: Reopening, commitMs: Millis)

  datatype Admission = Admission(record: ParsedRecord, revision: CanonicalRevision, commitMs: Millis)

  // ---------- The first look ----------

  datatype FirstLook = FirstLook(candidates: seq<Candidate>, changed: nat, error: Option<SourceError>)

  function LookAt(look: FirstLook, entry: ScanEntry): FirstLook {
    if look.error.Some? then look
    else
      match entry.opening
      case OpenFailed => look.(error := Some(ReadFailed))
      case First(current, parse) =>
        if current != entry.file.fingerprint then look.(changed := look.changed + 1)
        else
          match parse
          case ParseFailed => look.(error := Some(ReadFailed))
          case NotARecord => look
          case Parsed(record) =>
            look.(candidates := look.candidates + [Candidate(entry.file, record, entry.reopening, entry.commitMs)])
  }

  function LookUpTo(entries: seq<ScanEntry>, n: nat): FirstLook
    requires n <= |entries|
  {
    if n == 0 then FirstLook([], 0, None) else LookAt(LookUpTo(entries, n - 1), entries[n - 1])
  }

  /** Two live files claim one identity. */
  predicate DuplicateIdentity(candidates: seq<Candidate>) {
    exists i, j :: 0 <= i < j < |candidates| && candidates[i].record.identity == candidates[j].record.identity
  }

  // ---------- Stability and hashing ----------

  datatype Tally = Tally(db: Db, report: ReconcileReport, accepted: seq<Admission>, error: Option<SourceError>)

  datatype Rehash = RehashFailed | RehashChanged | Rehashed(revision: CanonicalRevision)

  /** What the second look decides. */
  function LookAgain(c: Candidate): Rehash {
    match c.reopening
    case ReopenFailed => RehashFailed
    case Second(before, parse, hash) =>
      if before != c.file.fingerprint then RehashChanged
      else if parse.ParseFailed? then RehashFailed
      else if parse != Parsed(c.record) then RehashChanged
      else if hash.HashFailed? then RehashFailed
      else if hash.after != before then RehashChanged
      else Rehashed(hash.revision)
  }

  predicate OverSizeLimit(config: SourceConfig, file: FileCandidate) {
    config.maxCandidateBytes.Some? && file.fingerprint.byteLength > config.maxCandidateBytes.value
  }

  function Admit(t: Tally, c: Candidate): Tally {
    match LookAgain(c)
    case RehashFailed => t.(error := Some(ReadFailed))
    case RehashChanged => t.(report := t.report.(changedDuringScan := t.report.changedDuringScan + 1))
    case Rehashed(revision) =>
      if t.report.bytesHashed + revision.byteLength > U64_MAX then t.(error := Some(HashCounterOverflow))
      else
        t.(report := t.report.(bytesHashed := t.report.bytesHashed + revision.byteLength),
           accepted := t.accepted + [Admission(c.record, revision, c.commitMs)])
  }

  /** Hashes a stable, unadmitted file within the limits; one first file may exceed the budget. */
  function Decide(t: Tally, config: SourceConfig, c: Candidate, observed: SourceObservation): Tally {
    if observed.unchangedObservations < config.minObservations then
      t.(report := t.report.(awaitingStability := t.report.awaitingStability + 1))
    else if !observed.needsHash then
      t.(report := t.report.(alreadyStable := t.report.alreadyStable + 1))
    else if OverSizeLimit(config, c.file) then
      t.(report := t.report.(deferredBySizeLimit := t.report.deferredBySizeLimit + 1))
    else if t.report.bytesHashed > 0
            && t.report.bytesHashed + c.file.fingerprint.byteLength > config.hashByteBudget then
      t.(report := t.report.(deferredByHashBudget := t.report.deferredByHashBudget + 1))
    else Admit(t, c)
  }

  function ObserveOne(t: Tally, scan: SourceScan, config: SourceConfig, c: Candidate): Tally {
    if t.error.Some? then t
    else
      var (noted, observed) := ObserveSourceFingerprint(t.db, scan, c.record.location, c.file.fingerprint);
      if observed.Err? then t.(error := Some(CatalogFailed(observed.error)))
      else
        var (seen, marked) := MarkSourceRecordSeen(noted, scan, config.registration, c.record.identity);
        if marked.Err? then t.(db := noted, error := Some(CatalogFailed(marked.error)))
        else Decide(t.(db := seen), config, c, observed.value)
  }

  function ObserveUpTo(t: Tally, scan: SourceScan, config: SourceConfig, candidates: seq<Candidate>, n: nat): Tally
    requires n <= |candidates|
  {
    if n == 0 then t else ObserveOne(ObserveUpTo(t, scan, config, candidates, n - 1), scan, config, candidates[n - 1])
  }

  // ---------- Everything before the first commit ----------

  function Failing(db: Db, error: SourceError): Tally { Tally(db, NO_REPORT, [], Some(error)) }

  /** The second root check comes last: a source that lost its guard commits nothing. */
  function CheckRoots(t: Tally, rootsAfter: bool): Tally {
    if t.error.None? && !rootsAfter then t.(error := Some(UnhealthyRoot)) else t
  }

  function Sweep(db: Db, scan: SourceScan, config: SourceConfig, entries: seq<ScanEntry>): Tally {
    var look := LookUpTo(entries, |entries|);
    if look.error.Some? then Failing(db, look.error.value)
    else if DuplicateIdentity(look.candidates) then Failing(db, DuplicateLiveIdentity)
    else
      ObserveUpTo(Tally(db, NO_REPORT.(changedDuringScan := look.changed), [], None), scan, config,
                  look.candidates, |look.candidates|)
  }

  /** The generation the next sweep of the source gets. */
  function NextScan(db: Db, registration: SourceRegistration): SourceScan {
    var id := registration.sourceId;
    SourceScan(id, if id in db.tables.sources then db.tables.sources[id].nextGeneration + 1 else 1)
  }

  function Prepare(db: Db, config: SourceConfig, pass: ScanPass): Tally {
    if !pass.rootsBefore then Failing(db, UnhealthyRoot)
    else
      var (begun, started) := BeginSourceScan(db, config.registration);
      if started.Err? then Failing(begun, CatalogFailed(started.error))
      else if pass.listing.None? then Failing(begun, ReadFailed)
      else CheckRoots(Sweep(begun, started.value, config, pass.listing.value), pass.rootsAfter)
  }

  // ---------- The commits ----------

  /** A database, and the error that stopped the commits there, if one did. */
  datatype Commits = Commits(db: Db, error: Option<SourceError>)

  /** The hash is admitted only after the record is committed and marked seen. */
  function CommitOne(t: Commits, scan: SourceScan, registration: SourceRegistration, a: Admission): Commits {
    if t.error.Some? then t
    else
      var (observed, seen) := ObservePresentFromSource(t.db, scan, registration, a.record.identity, a.record.location,
                                                       a.revision, a.commitMs);
      if seen.Err? then Commits(observed, Some(CatalogFailed(seen.error)))
      else
        var (hashed, marked) := MarkSourceFingerprintHashed(observed, scan, a.record.location);
        Commits(hashed, if marked.Err? then Some(CatalogFailed(marked.error)) else None)
  }

  function CommitUpTo(db: Db, scan: SourceScan, registration: SourceRegistration, accepted: seq<Admission>, n: nat): Commits
    requires n <= |accepted|
  {
    if n == 0 then Commits(db, None)
    else CommitOne(CommitUpTo(db, scan, registration, accepted, n - 1), scan, registration, accepted[n - 1])
  }

  function Complete(t: Commits, scan: SourceScan, config: SourceConfig, nowMs: Millis): Commits {
    if t.error.Some? then t
    else
      var (completed, closed) := CompleteSourceScan(t.db, scan, config.grace, nowMs);
      Commits(completed, if closed.Err? then Some(CatalogFailed(closed.error)) else None)
  }

  // ---------- The sweep ----------

  function ScanOnce(db: Db, config: SourceConfig, pass: ScanPass): Commits {
    var prepared := Prepare(db, config, pass);
    if prepared.error.Some? then Commits(prepared.db, prepared.error)
    else
      var scan := NextScan(db, config.registration);
      Complete(CommitUpTo(prepared.db, scan, config.registration, prepared.accepted, |prepared.accepted|),
               scan, config, pass.completeMs)
  }

  predicate Succeeds(db: Db, config: SourceConfig, pass: ScanPass) { ScanOnce(db, config, pass).error.None? }
}
