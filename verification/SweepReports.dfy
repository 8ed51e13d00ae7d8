/** What a sweep hashes, within which limits, and what its report counts. */
module SweepReports {
  import opened Domain
  import opened Tables
  import opened Sources
  import opened Files
  import opened Scan
  import opened ScrubBudget
  import opened Honesty
  import opened Converge
  import opened SweepEffects

  // ---------- Where a candidate stands ----------

  /** Where the catalog keeps what it knows of the candidate. */
  function Spot(c: Candidate): FileCandidate { FileCandidate(c.record.location, c.file.fingerprint) }

  /** Seen too few times in a row, this time included. */
  predicate Unstable(db: Db, config: SourceConfig, c: Candidate) {
    Count(db, config.registration.sourceId, Spot(c)) + 1 < config.minObservations
  }

  predicate Known(db: Db, config: SourceConfig, c: Candidate) {
    !Unstable(db, config, c) && Admitted(db, config.registration.sourceId, Spot(c))
  }

  predicate TooBig(db: Db, config: SourceConfig, c: Candidate) {
    && !Unstable(db, config, c) && !Admitted(db, config.registration.sourceId, Spot(c))
    && config.maxCandidateBytes.Some? && config.maxCandidateBytes.value < c.file.fingerprint.byteLength
  }

  /** Stable, not admitted, and within the size limit: to be hashed if the budget allows. */
  predicate Due(db: Db, config: SourceConfig, c: Candidate) {
    !Unstable(db, config, c) && !Known(db, config, c) && !TooBig(db, config, c)
  }

  /** The second look found the file as the first did, before and after hashing it. */
  predicate HashedWell(c: Candidate) {
    && c.reopening.Second? && c.reopening.before == c.file.fingerprint && c.reopening.parse == Parsed(c.record)
    && c.reopening.hash.Hashed? && c.reopening.hash.after == c.file.fingerprint
  }

  function Where(before: Db, config: SourceConfig, candidates: seq<Candidate>, n: nat,
                 stands: (Db, SourceConfig, Candidate) -> bool): set<nat>
    requires n <= |candidates|
  {
    set i | 0 <= i < n && stands(before, config, candidates[i])
  }

  lemma OneMoreStands(before: Db, config: SourceConfig, candidates: seq<Candidate>, n: nat,
                      stands: (Db, SourceConfig, Candidate) -> bool)
    requires n < |candidates|
    ensures |Where(before, config, candidates, n + 1, stands)|
            == |Where(before, config, candidates, n, stands)| + if stands(before, config, candidates[n]) then 1 else 0
  {
    var earlier := Where(before, config, candidates, n, stands);
    assert n !in earlier;
    assert Where(before, config, candidates, n + 1, stands)
           == if stands(before, config, candidates[n]) then earlier + {n} else earlier;
  }

  // ---------- One candidate ----------

  function Lengths(accepted: seq<Admission>): seq<nat> {
    seq(|accepted|, i requires 0 <= i < |accepted| => accepted[i].revision.byteLength)
  }

  /** What a step that does not fail does with a candidate that stands so. */
  predicate Dealt(t: Tally, u: Tally, config: SourceConfig, c: Candidate, before: Db) {
    var a, b := t.report, u.report;
    if Unstable(before, config, c) then
      u.accepted == t.accepted && b == a.(awaitingStability := a.awaitingStability + 1)
    else if Known(before, config, c) then
      u.accepted == t.accepted && b == a.(alreadyStable := a.alreadyStable + 1)
    else if TooBig(before, config, c) then
      u.accepted == t.accepted && b == a.(deferredBySizeLimit := a.deferredBySizeLimit + 1)
    else if a.bytesHashed > 0 && a.bytesHashed + c.file.fingerprint.byteLength > config.hashByteBudget then
      u.accepted == t.accepted && b == a.(deferredByHashBudget := a.deferredByHashBudget + 1)
    else if !HashedWell(c) then
      u.accepted == t.accepted && b == a.(changedDuringScan := a.changedDuringScan + 1)
    else
      var revision := c.reopening.hash.revision;
      && u.accepted == t.accepted + [Admission(c.record, revision, c.commitMs)]
      && b == a.(bytesHashed := a.bytesHashed + revision.byteLength) && b.bytesHashed <= U64_MAX
  }

  lemma CandidateIsDealt(t: Tally, u: Tally, scan: SourceScan, config: SourceConfig, c: Candidate)
    requires TallyFollows(t, u, scan, config, c) && u.error.None? && scan.sourceId == config.registration.sourceId
    ensures t.error.None? && Dealt(t, u, config, c, t.db)
  {
  }

  /** The second look cannot open, parse or hash the file, though nothing shows that it changed. */
  predicate UnreadableAgain(c: Candidate) {
    || c.reopening.ReopenFailed?
    || (c.reopening.before == c.file.fingerprint
        && (|| c.reopening.parse.ParseFailed?
            || (c.reopening.parse == Parsed(c.record) && c.reopening.hash.HashFailed?)))
  }

  /** The generation is no longer open, or the record is another producer's or another source's. */
  predicate NotAdmitted(db: Db, scan: SourceScan, config: SourceConfig, c: Candidate) {
    var found := FindRecord(db.store.records, c.record.identity);
    || scan.sourceId !in db.tables.sources
    || scan.generation != db.tables.sources[scan.sourceId].nextGeneration
    || scan.generation <= db.tables.sources[scan.sourceId].lastCompleteGeneration
    || c.record.identity.producerId != config.registration.producerId
    || (found.Some? && found.value in db.tables.owners && db.tables.owners[found.value].sourceId != scan.sourceId)
  }

  /** To be hashed, and within the budget or the first. */
  predicate ToHash(t: Tally, config: SourceConfig, c: Candidate) {
    && Due(t.db, config, c)
    && (t.report.bytesHashed == 0
        || t.report.bytesHashed + c.file.fingerprint.byteLength <= config.hashByteBudget)
  }

  /**
   * A candidate stops the sweep exactly when the catalog refuses it, or when it is to be hashed and cannot be read
   * again or overflows the counter. A file that changed meanwhile never does.
   */
  lemma CandidateStopsTheSweepIff(t: Tally, scan: SourceScan, config: SourceConfig, c: Candidate)
    requires scan.sourceId == config.registration.sourceId && t.error.None?
    ensures ObserveOne(t, scan, config, c).error.Some? <==>
            || NotAdmitted(t.db, scan, config, c)
            || (ToHash(t, config, c)
                && (|| UnreadableAgain(c)
                    || (HashedWell(c) && t.report.bytesHashed + c.reopening.hash.revision.byteLength > U64_MAX)))
  {
    var (noted, observed) := ObserveSourceFingerprint(t.db, scan, c.record.location, c.file.fingerprint);
    assert noted.store == t.db.store && noted.tables.owners == t.db.tables.owners;
  }

  // ---------- All candidates ----------

  /** One place each, so that no candidate stands in another's way. */
  predicate PlacedApart(candidates: seq<Candidate>) {
    forall i, j :: 0 <= i < j < |candidates| ==> candidates[i].record.location != candidates[j].record.location
  }

  /** What is known of the candidates still to come is what was known before the sweep. */
  predicate RestUntouched(before: Db, db: Db, config: SourceConfig, candidates: seq<Candidate>, n: nat) {
    forall i :: n <= i < |candidates| ==>
      && Count(db, config.registration.sourceId, Spot(candidates[i]))
         == Count(before, config.registration.sourceId, Spot(candidates[i]))
      && (Admitted(db, config.registration.sourceId, Spot(candidates[i]))
          <==> Admitted(before, config.registration.sourceId, Spot(candidates[i])))
  }

  lemma RestStaysUntouched(before: Db, t: Tally, u: Tally, scan: SourceScan, config: SourceConfig,
                           candidates: seq<Candidate>, n: nat)
    requires n < |candidates| && PlacedApart(candidates) && scan.sourceId == config.registration.sourceId
    requires TallyFollows(t, u, scan, config, candidates[n]) && u.error.None?
    requires RestUntouched(before, t.db, config, candidates, n)
    ensures RestUntouched(before, u.db, config, candidates, n + 1)
  {
    var c, id := candidates[n], config.registration.sourceId;
    var noted := ObserveSourceFingerprint(t.db, scan, c.record.location, c.file.fingerprint).0;
    assert u.db.tables.observations == noted.tables.observations;
    forall i | n + 1 <= i < |candidates|
      ensures Count(u.db, id, Spot(candidates[i])) == Count(before, id, Spot(candidates[i]))
      ensures Admitted(u.db, id, Spot(candidates[i])) <==> Admitted(before, id, Spot(candidates[i]))
    {
      ObservingCounts(t.db, scan, Spot(c), Spot(candidates[i]));
      SeeingCounts(noted, u.db, id, Spot(candidates[i]));
    }
  }

  /** The report counts every candidate once, by how it stood before the sweep; `changed` were changed at first look. */
  predicate Counts(before: Db, u: Tally, config: SourceConfig, candidates: seq<Candidate>, n: nat, changed: nat)
    requires n <= |candidates|
  {
    var r := u.report;
    && r.awaitingStability == |Where(before, config, candidates, n, Unstable)|
    && r.alreadyStable == |Where(before, config, candidates, n, Known)|
    && r.deferredBySizeLimit == |Where(before, config, candidates, n, TooBig)|
    && r.deferredByHashBudget + |u.accepted| + r.changedDuringScan
       == |Where(before, config, candidates, n, Due)| + changed
    && r.awaitingStability + r.alreadyStable + r.deferredBySizeLimit + r.deferredByHashBudget + |u.accepted|
       + r.changedDuringScan == n + changed
  }

  /** Accepted from a candidate that was due, as the second look found it. */
  predicate FromDue(a: Admission, before: Db, config: SourceConfig, candidates: seq<Candidate>, n: nat)
    requires n <= |candidates|
  {
    exists i :: 0 <= i < n && Due(before, config, candidates[i]) && HashedWell(candidates[i])
                && a == Admission(candidates[i].record, candidates[i].reopening.hash.revision, candidates[i].commitMs)
  }

  /** Only due files were hashed, the bytes add up, and stay within the budget or the first non-empty file plus growth. */
  predicate HashesWithin(before: Db, u: Tally, config: SourceConfig, candidates: seq<Candidate>, n: nat, growth: nat)
    requires n <= |candidates|
  {
    && (forall k :: 0 <= k < |u.accepted| ==> FromDue(u.accepted[k], before, config, candidates, n))
    && u.report.bytesHashed == Total(Lengths(u.accepted))
    && u.report.bytesHashed <= Max(FirstNonEmpty(Lengths(u.accepted)), config.hashByteBudget) + growth
    && (u.report.bytesHashed == 0 ==> u.report.deferredByHashBudget == 0)
  }

  lemma CountsOn(before: Db, t: Tally, u: Tally, config: SourceConfig, candidates: seq<Candidate>, n: nat, changed: nat)
    requires n < |candidates| && Counts(before, t, config, candidates, n, changed)
    requires Dealt(t, u, config, candidates[n], before)
    ensures Counts(before, u, config, candidates, n + 1, changed)
  {
    OneMoreStands(before, config, candidates, n, Unstable);
    OneMoreStands(before, config, candidates, n, Known);
    OneMoreStands(before, config, candidates, n, TooBig);
    OneMoreStands(before, config, candidates, n, Due);
  }

  lemma FromDueStays(accepted: seq<Admission>, before: Db, config: SourceConfig, candidates: seq<Candidate>, n: nat)
    requires n < |candidates| && forall k :: 0 <= k < |accepted| ==> FromDue(accepted[k], before, config, candidates, n)
    ensures forall k :: 0 <= k < |accepted| ==> FromDue(accepted[k], before, config, candidates, n + 1)
  {
    forall k | 0 <= k < |accepted| ensures FromDue(accepted[k], before, config, candidates, n + 1) {
      assert FromDue(accepted[k], before, config, candidates, n);
    }
  }

  lemma NotHashedOn(before: Db, t: Tally, u: Tally, config: SourceConfig, candidates: seq<Candidate>, n: nat, growth: nat)
    requires n < |candidates| && HashesWithin(before, t, config, candidates, n, growth)
    requires u.accepted == t.accepted && u.report.bytesHashed == t.report.bytesHashed
    requires t.report.bytesHashed == 0 ==> u.report.deferredByHashBudget == t.report.deferredByHashBudget
    ensures HashesWithin(before, u, config, candidates, n + 1, growth)
  {
    FromDueStays(t.accepted, before, config, candidates, n);
  }

  lemma LengthsOfOneMore(accepted: seq<Admission>, a: Admission)
    ensures Lengths(accepted + [a]) == Lengths(accepted) + [a.revision.byteLength]
  {
  }

  lemma HashedOn(before: Db, t: Tally, u: Tally, config: SourceConfig, candidates: seq<Candidate>, n: nat, growth: nat,
                 a: Admission)
    requires n < |candidates| && HashesWithin(before, t, config, candidates, n, growth)
    requires u.accepted == t.accepted + [a] && FromDue(a, before, config, candidates, n + 1)
    requires u.report.bytesHashed == t.report.bytesHashed + a.revision.byteLength
    requires u.report.deferredByHashBudget == t.report.deferredByHashBudget
    requires t.report.bytesHashed > 0 ==> u.report.bytesHashed <= config.hashByteBudget + growth
    ensures HashesWithin(before, u, config, candidates, n + 1, growth)
  {
    FromDueStays(t.accepted, before, config, candidates, n);
    LengthsOfOneMore(t.accepted, a);
    LengthsSnoc(Lengths(t.accepted), a.revision.byteLength);
  }

  lemma HashesOn(before: Db, t: Tally, u: Tally, config: SourceConfig, candidates: seq<Candidate>, n: nat, growth: nat)
    requires n < |candidates| && HashesWithin(before, t, config, candidates, n, growth)
    requires Dealt(t, u, config, candidates[n], before)
    requires HashedWell(candidates[n]) ==>
               candidates[n].reopening.hash.revision.byteLength <= candidates[n].file.fingerprint.byteLength + growth
    ensures HashesWithin(before, u, config, candidates, n + 1, growth)
  {
    if u.accepted == t.accepted {
      NotHashedOn(before, t, u, config, candidates, n, growth);
    } else {
      HashedOn(before, t, u, config, candidates, n, growth, u.accepted[|t.accepted|]);
    }
  }

  lemma StandsAlike(before: Db, db: Db, config: SourceConfig, candidates: seq<Candidate>, n: nat, t: Tally, u: Tally)
    requires n < |candidates| && RestUntouched(before, db, config, candidates, n)
    requires Dealt(t, u, config, candidates[n], db)
    ensures Dealt(t, u, config, candidates[n], before)
  {
  }

  /** The observing loop, as far as it went without an error. */
  predicate ReportedRightly(before: Db, u: Tally, config: SourceConfig, candidates: seq<Candidate>, n: nat, changed: nat,
                            growth: nat)
    requires n <= |candidates|
  {
    && Counts(before, u, config, candidates, n, changed)
    && HashesWithin(before, u, config, candidates, n, growth)
    && RestUntouched(before, u.db, config, candidates, n)
  }

  lemma ReportsOn(before: Db, t: Tally, u: Tally, scan: SourceScan, config: SourceConfig, candidates: seq<Candidate>,
                  n: nat, changed: nat, growth: nat)
    requires n < |candidates| && PlacedApart(candidates) && scan.sourceId == config.registration.sourceId
    requires TallyFollows(t, u, scan, config, candidates[n]) && u.error.None?
    requires HashedWell(candidates[n]) ==>
               candidates[n].reopening.hash.revision.byteLength <= candidates[n].file.fingerprint.byteLength + growth
    requires ReportedRightly(before, t, config, candidates, n, changed, growth)
    ensures ReportedRightly(before, u, config, candidates, n + 1, changed, growth)
  {
    CandidateIsDealt(t, u, scan, config, candidates[n]);
    StandsAlike(before, t.db, config, candidates, n, t, u);
    CountsOn(before, t, u, config, candidates, n, changed);
    HashesOn(before, t, u, config, candidates, n, growth);
    RestStaysUntouched(before, t, u, scan, config, candidates, n);
  }

  lemma {:induction false} LoopReportsRightly(before: Db, t: Tally, scan: SourceScan, config: SourceConfig,
                                              candidates: seq<Candidate>, changed: nat, growth: nat)
    requires PlacedApart(candidates) && scan.sourceId == config.registration.sourceId
    requires t.accepted == [] && t.report == NO_REPORT.(changedDuringScan := changed)
    requires t.db.tables.observations == before.tables.observations
    requires forall i :: 0 <= i < |candidates| && HashedWell(candidates[i]) ==>
               candidates[i].reopening.hash.revision.byteLength <= candidates[i].file.fingerprint.byteLength + growth
    requires ObserveUpTo(t, scan, config, candidates, |candidates|).error.None?
    ensures ReportedRightly(before, ObserveUpTo(t, scan, config, candidates, |candidates|), config, candidates,
                            |candidates|, changed, growth)
  {
    var us := TalliesOf(t, scan, config, candidates);
    forall i | 0 <= i < |candidates|
      ensures Count(t.db, config.registration.sourceId, Spot(candidates[i]))
              == Count(before, config.registration.sourceId, Spot(candidates[i]))
      ensures Admitted(t.db, config.registration.sourceId, Spot(candidates[i]))
              <==> Admitted(before, config.registration.sourceId, Spot(candidates[i]))
    {
      SeeingCounts(before, t.db, config.registration.sourceId, Spot(candidates[i]));
    }
    assert Lengths([]) == [];
    for n := 0 to |candidates|
      invariant ReportedRightly(before, us[n], config, candidates, n, changed, growth)
    {
      NoErrorBefore(us, t, scan, config, candidates, n + 1);
      assert TallyFollows(us[n], us[n + 1], scan, config, candidates[n]);
      ReportsOn(before, us[n], us[n + 1], scan, config, candidates, n, changed, growth);
    }
  }

  // ---------- Whole sweeps ----------

  lemma PreparedByLoop(db: Db, config: SourceConfig, pass: ScanPass)
    requires Prepare(db, config, pass).error.None?
    ensures var candidates := CandidatesOf(pass);
            && pass.rootsBefore && pass.rootsAfter && pass.listing.Some? && !DuplicateIdentity(candidates)
            && Prepare(db, config, pass) == ObserveUpTo(FirstTally(db, config.registration, pass),
                                                        NextScan(db, config.registration), config, candidates,
                                                        |candidates|)
            && FirstTally(db, config.registration, pass).db.tables.observations == db.tables.observations
  {
  }

  /**
   * Of the candidates of a sweep, one place each, the report counts every one once, by how it stood before the sweep.
   * Only those that were due, and that the second look found unchanged, were hashed; those over the size limit never;
   * and where no file was hashed longer than it showed by more than `growth`, the bytes hashed stay within the budget,
   * or the first non-empty file, plus `growth`.
   */
  lemma SweepsReportRightly(db: Db, config: SourceConfig, pass: ScanPass, growth: nat)
    requires Prepare(db, config, pass).error.None? && PlacedApart(CandidatesOf(pass))
    requires forall c :: c in CandidatesOf(pass) && HashedWell(c) ==>
               c.reopening.hash.revision.byteLength <= c.file.fingerprint.byteLength + growth
    ensures pass.listing.Some?
    ensures ReportedRightly(db, Prepare(db, config, pass), config, CandidatesOf(pass), |CandidatesOf(pass)|,
                            |ChangedAmong(pass.listing.value, |pass.listing.value|)|, growth)
  {
    PreparedByLoop(db, config, pass);
    var entries := pass.listing.value;
    var at := LookingTakes(entries, |entries|);
    var look := LookUpTo(entries, |entries|);
    LoopReportsRightly(db, FirstTally(db, config.registration, pass), NextScan(db, config.registration), config,
                       CandidatesOf(pass), look.changed, growth);
  }
}
