/** What a crash in the middle of a sweep leaves behind, and exactly when an admitted fingerprint stays true. */
module Crashes {
  import opened Wrappers
  import opened Domain
  import opened Backoff
  import opened Tables
  import opened Ledger
  import opened Sources
  import opened Scan
  import opened Honesty

  // ---------- Before the commits ----------

  /**
   * What a crash before the commits leaves: `n` candidates are done, and of the next one perhaps the fingerprint was
   * observed but its record not yet marked seen.
   */
  function CrashedSweep(db: Db, config: SourceConfig, pass: ScanPass, n: nat, half: bool): Db {
    var candidates, scan := CandidatesOf(pass), NextScan(db, config.registration);
    var done := Min(n, |candidates|);
    var t := ObserveUpTo(FirstTally(db, config.registration, pass), scan, config, candidates, done);
    if half && done < |candidates| && t.error.None?
    then ObserveSourceFingerprint(t.db, scan, candidates[done].record.location, candidates[done].file.fingerprint).0
    else t.db
  }

  /** A crash anywhere before the commits leaves the source honest. */
  lemma CrashBeforeCommitsKeepsHonesty(db: Db, config: SourceConfig, pass: ScanPass, world: World, n: nat, half: bool)
    requires Honest(db, config.registration, world) && PassTruthful(config, world, pass)
    ensures Honest(CrashedSweep(db, config, pass, n, half), config.registration, world)
  {
    var candidates, t := CandidatesOf(pass), FirstTally(db, config.registration, pass);
    var scan, done := NextScan(db, config.registration), Min(n, |CandidatesOf(pass)|);
    CandidatesAreTruthful(config, world, pass);
    SweptHonestlySoFar(db, config, pass, world, done);
    var u := ObserveUpTo(t, scan, config, candidates, done);
    if half && done < |candidates| && u.error.None? {
      assert CandidateTruthful(config, world, candidates[done]);
      FingerprintSweeps(u.db, scan, config.registration, world, candidates, done);
    }
  }

  lemma SweptHonestlySoFar(db: Db, config: SourceConfig, pass: ScanPass, world: World, n: nat)
    requires Honest(db, config.registration, world) && PassTruthful(config, world, pass) && n <= |CandidatesOf(pass)|
    ensures SweptHonestly(ObserveUpTo(FirstTally(db, config.registration, pass), NextScan(db, config.registration), config,
                                      CandidatesOf(pass), n),
                          db.store, NextScan(db, config.registration), config.registration, world, CandidatesOf(pass), n)
  {
    var candidates, t := CandidatesOf(pass), FirstTally(db, config.registration, pass);
    var scan := NextScan(db, config.registration);
    CandidatesAreTruthful(config, world, pass);
    FirstTallyIsHonest(db, config, pass, world, candidates);
    var us := TalliesUpTo(t, scan, config, candidates, n);
    SweepKeepsHonesty(us, t, db.store, scan, config, world, candidates, n);
  }

  // ---------- Among the commits ----------

  /** Where in the commit of one accepted file a crash falls: before it, or after its first or second transaction. */
  datatype CommitPart = BetweenCommits | AfterObserving | AfterMarking

  /** What a crash leaves after `done` whole commits and part of the next one. */
  function CrashedCommits(db: Db, config: SourceConfig, pass: ScanPass, done: nat, part: CommitPart): Db {
    var prepared := Prepare(db, config, pass);
    if prepared.error.Some? then prepared.db
    else
      var scan, n := NextScan(db, config.registration), Min(done, |prepared.accepted|);
      var t := CommitUpTo(prepared.db, scan, config.registration, prepared.accepted, n);
      if t.error.Some? || n == |prepared.accepted| then t.db
      else PartOfCommit(t.db, scan, config.registration, prepared.accepted[n], part)
  }

  function PartOfCommit(db: Db, scan: SourceScan, registration: SourceRegistration, a: Admission, part: CommitPart): Db {
    match part
    case BetweenCommits => db
    case AfterObserving =>
      db.(store := ObservePresent(db.store, a.record.identity, a.record.location, a.revision, a.commitMs))
    case AfterMarking =>
      ObservePresentFromSource(db, scan, registration, a.record.identity, a.record.location, a.revision, a.commitMs).0
  }

  /** The accepted files whose records were observed before the crash. */
  function Touched(accepted: seq<Admission>, done: nat, part: CommitPart): seq<Admission> {
    var n := Min(done, |accepted|);
    accepted[..n] + if n < |accepted| && !part.BetweenCommits? then [accepted[n]] else []
  }

  /** A watched, admitted fingerprint at another place names the same record: its file has moved here. */
  predicate Displaces(db: Db, world: World, a: Admission, key: (SourceId, LogicalLocation))
    requires key in db.tables.observations
  {
    var row := db.tables.observations[key];
    && Vouched(db, world, key) && key.1 != a.record.location
    && world.holds(key.1, row.fingerprint).Some? && world.holds(key.1, row.fingerprint).value.0 == a.record.identity
  }

  predicate DisplacesNothing(db: Db, id: SourceId, world: World, a: Admission) {
    forall key :: key in db.tables.observations && key.0 == id ==> !Displaces(db, world, a, key)
  }

  predicate NoneDisplaced(db: Db, id: SourceId, world: World, touched: seq<Admission>) {
    forall i :: 0 <= i < |touched| ==> DisplacesNothing(db, id, world, touched[i])
  }

  predicate LeftInPlace(db: Db, world: World, touched: seq<Admission>, key: (SourceId, LogicalLocation))
    requires key in db.tables.observations
  {
    forall i :: 0 <= i < |touched| ==> !Displaces(db, world, touched[i], key)
  }

  /** Of the fingerprints admitted before the commits, exactly the displaced ones have become untrue. */
  predicate DisplacedExactly(before: Db, s: Store, id: SourceId, world: World, touched: seq<Admission>) {
    forall key :: key in before.tables.observations && key.0 == id && Vouched(before, world, key) ==>
      (Settled(s, world, key.1, before.tables.observations[key].fingerprint) <==> LeftInPlace(before, world, touched, key))
  }

  /** An observation settles or unsettles only fingerprints of the identity it observes. */
  lemma ObservationMatters(s: Store, world: World, l: LogicalLocation, f: SourceFingerprint, a: Admission)
    requires LedgerInv(s) && world.holds(l, f).Some?
    ensures var t := ObservePresent(s, a.record.identity, a.record.location, a.revision, a.commitMs);
            if world.holds(l, f).value.0 != a.record.identity then Settled(t, world, l, f) <==> Settled(s, world, l, f)
            else Settled(t, world, l, f) <==> l == a.record.location && world.holds(l, f).value.1 == a.revision
  {
    if world.holds(l, f).value.0 != a.record.identity {
      ObservationLeavesOthers(s, a.record.identity, a.record.location, a.revision, a.commitMs, world.holds(l, f).value.0);
    } else {
      ObservationTakesEffect(s, a.record.identity, a.record.location, a.revision, a.commitMs);
    }
  }

  /** The accepted file is what the row at its place stands for, and no other accepted file has its identity. */
  predicate Fits(before: Db, id: SourceId, world: World, touched: seq<Admission>, a: Admission) {
    && (forall key :: key in before.tables.observations && key.0 == id && key.1 == a.record.location ==>
          world.holds(key.1, before.tables.observations[key].fingerprint) == Some((a.record.identity, a.revision)))
    && (forall i :: 0 <= i < |touched| && touched[i].record.identity == a.record.identity ==>
          touched[i].record.location == a.record.location)
  }

  lemma ObservationDisplaces(before: Db, s: Store, id: SourceId, world: World, touched: seq<Admission>, a: Admission)
    requires LedgerInv(s) && Trusted(before, id, world)
    requires DisplacedExactly(before, s, id, world, touched) && Fits(before, id, world, touched, a)
    ensures DisplacedExactly(before, ObservePresent(s, a.record.identity, a.record.location, a.revision, a.commitMs), id,
                             world, touched + [a])
  {
    var t := ObservePresent(s, a.record.identity, a.record.location, a.revision, a.commitMs);
    forall key | key in before.tables.observations && key.0 == id && Vouched(before, world, key)
      ensures Settled(t, world, key.1, before.tables.observations[key].fingerprint)
              <==> LeftInPlace(before, world, touched + [a], key)
    {
      assert RowTrusted(before, world, key);
      ObservationMatters(s, world, key.1, before.tables.observations[key].fingerprint, a);
      PlaceSnoc(before, world, touched, a, key);
    }
  }

  lemma PlaceSnoc(db: Db, world: World, touched: seq<Admission>, a: Admission, key: (SourceId, LogicalLocation))
    requires key in db.tables.observations
    ensures LeftInPlace(db, world, touched + [a], key) <==>
            LeftInPlace(db, world, touched, key) && !Displaces(db, world, a, key)
  {
    if LeftInPlace(db, world, touched + [a], key) {
      forall i | 0 <= i < |touched| ensures !Displaces(db, world, touched[i], key) {
        assert (touched + [a])[i] == touched[i];
      }
      assert (touched + [a])[|touched|] == a;
    }
  }

  // ---------- The commits, seen from where they began ----------

  /** Rows keep their fingerprints, and are admitted if they were or if they have just been committed. */
  predicate OnlyAdmits(before: Db, after: Db, scan: SourceScan) {
    && after.tables.observations.Keys == before.tables.observations.Keys
    && forall key :: key in before.tables.observations ==>
         && after.tables.observations[key].fingerprint == before.tables.observations[key].fingerprint
         && after.tables.observations[key].lastSeenGeneration == before.tables.observations[key].lastSeenGeneration
         && (before.tables.observations[key].hashAdmitted ==> after.tables.observations[key].hashAdmitted)
         && (after.tables.observations[key].hashAdmitted ==>
               || before.tables.observations[key].hashAdmitted
               || key.0 != scan.sourceId
               || before.tables.observations[key].lastSeenGeneration == scan.generation)
  }

  lemma AdmissionFits(before: Db, db: Db, scan: SourceScan, config: SourceConfig, world: World,
                      candidates: seq<Candidate>, accepted: seq<Admission>, n: nat)
    requires n < |accepted| && AllTruthful(config, world, candidates) && !DuplicateIdentity(candidates)
    requires AdmissionsFrom(accepted, world, candidates) && OnlyAdmits(before, db, scan)
    requires RowsFrom(db, scan, candidates, |candidates|) && AllObserved(db, scan, candidates, |candidates|)
    ensures Fits(before, scan.sourceId, world, accepted[..n], accepted[n])
  {
    var a := accepted[n];
    assert AdmissionFrom(a, world, candidates);
    var j :| 0 <= j < |candidates| && a.record == candidates[j].record
             && a.record.location == candidates[j].file.location
             && world.holds(candidates[j].file.location, candidates[j].file.fingerprint) == Some((a.record.identity, a.revision));
    forall key | key in before.tables.observations && key.0 == scan.sourceId && key.1 == a.record.location
      ensures world.holds(key.1, before.tables.observations[key].fingerprint) == Some((a.record.identity, a.revision))
    {
      assert ObservedNow(db, scan, candidates[j].file.location);
      assert key in db.tables.observations && RowFrom(db.tables.observations[key], key.1, candidates, |candidates|);
      var i :| 0 <= i < |candidates| && candidates[i].file.location == key.1
               && candidates[i].file.fingerprint == db.tables.observations[key].fingerprint;
      assert i == j;
    }
    forall i | 0 <= i < n && accepted[i].record.identity == a.record.identity
      ensures accepted[i].record.location == a.record.location
    {
      SameIdentitySamePlace(config, world, candidates, accepted[i], a);
    }
  }

  lemma SameIdentitySamePlace(config: SourceConfig, world: World, candidates: seq<Candidate>, a: Admission, b: Admission)
    requires !DuplicateIdentity(candidates)
    requires AdmissionFrom(a, world, candidates) && AdmissionFrom(b, world, candidates)
    requires a.record.identity == b.record.identity
    ensures a.record.location == b.record.location
  {
    var i :| 0 <= i < |candidates| && a.record == candidates[i].record;
    var j :| 0 <= j < |candidates| && b.record == candidates[j].record;
    assert i == j;
  }

  lemma AdmittingOnlyAdmits(before: Db, t: Db, u: Db, scan: SourceScan, l: LogicalLocation)
    requires OnlyAdmits(before, t, scan) && ObservedNow(t, scan, l)
    requires u.tables.observations == AdmitHash(t.tables.observations, (scan.sourceId, l))
    ensures OnlyAdmits(before, u, scan)
  {
  }

  lemma CommitStores(t: Commits, u: Commits, scan: SourceScan, config: SourceConfig, world: World,
                     candidates: seq<Candidate>, a: Admission)
    requires CommitFollows(t, u, scan, config.registration, a) && Committing(t, scan, config.registration, world, candidates)
    requires AllTruthful(config, world, candidates) && AdmissionFrom(a, world, candidates)
    ensures u.db.store == ObservePresent(t.db.store, a.record.identity, a.record.location, a.revision, a.commitMs)
  {
    AdmissionIsTruthful(config, world, candidates, a);
    AdmissionIsObserved(t.db, scan, world, candidates, a);
    ObservedIsOwned(t.db, scan, config.registration, a.record.identity, a.record.location, a.revision, a.commitMs);
    CommitOneIs(t, ObservePresentFromSource(t.db, scan, config.registration, a.record.identity, a.record.location,
                                            a.revision, a.commitMs).0, scan, config.registration, a);
  }

  /** Between two commits: what they displaced, and what they admitted. */
  predicate CommittedExactly(u: Commits, before: Db, scan: SourceScan, registration: SourceRegistration, world: World,
                             candidates: seq<Candidate>, touched: seq<Admission>) {
    && Committing(u, scan, registration, world, candidates)
    && OnlyAdmits(before, u.db, scan)
    && DisplacedExactly(before, u.db.store, scan.sourceId, world, touched)
  }

  lemma OneCommitDisplaces(t: Commits, u: Commits, before: Db, scan: SourceScan, config: SourceConfig, world: World,
                           candidates: seq<Candidate>, touched: seq<Admission>, a: Admission)
    requires CommitFollows(t, u, scan, config.registration, a)
    requires AllTruthful(config, world, candidates) && AdmissionFrom(a, world, candidates)
    requires Trusted(before, scan.sourceId, world) && Fits(before, scan.sourceId, world, touched, a)
    requires CommittedExactly(t, before, scan, config.registration, world, candidates, touched)
    requires Committing(u, scan, config.registration, world, candidates)
    requires ObservedNow(t.db, scan, a.record.location)
    requires u.db.tables.observations == AdmitHash(t.db.tables.observations, (scan.sourceId, a.record.location))
    ensures CommittedExactly(u, before, scan, config.registration, world, candidates, touched + [a])
  {
    CommitStores(t, u, scan, config, world, candidates, a);
    ObservationDisplaces(before, t.db.store, scan.sourceId, world, touched, a);
    AdmittingOnlyAdmits(before, t.db, u.db, scan, a.record.location);
  }

  lemma AcceptedSnoc(accepted: seq<Admission>, n: nat)
    requires n < |accepted|
    ensures accepted[..n + 1] == accepted[..n] + [accepted[n]]
  {
  }

  lemma CommitDisplaces(us: seq<Commits>, before: Db, scan: SourceScan, config: SourceConfig, world: World,
                        candidates: seq<Candidate>, accepted: seq<Admission>, n: nat)
    requires CommitRun(us, before, scan, config.registration, accepted) && n < |accepted|
    requires AllTruthful(config, world, candidates) && !DuplicateIdentity(candidates)
    requires AdmissionsFrom(accepted, world, candidates) && Trusted(before, scan.sourceId, world)
    requires CommittedExactly(us[n], before, scan, config.registration, world, candidates, accepted[..n])
    ensures CommittedExactly(us[n + 1], before, scan, config.registration, world, candidates,
                             accepted[..n] + [accepted[n]])
  {
    assert CommitFollows(us[n], us[n + 1], scan, config.registration, accepted[n]);
    assert AdmissionFrom(accepted[n], world, candidates);
    CommitStep(us, before, scan, config, world, candidates, accepted, n);
    AdmissionFits(before, us[n].db, scan, config, world, candidates, accepted, n);
    OneCommitDisplaces(us[n], us[n + 1], before, scan, config, world, candidates, accepted[..n], accepted[n]);
  }

  lemma NothingDisplacedYet(before: Db, id: SourceId, world: World)
    requires Trusted(before, id, world)
    ensures DisplacedExactly(before, before.store, id, world, [])
  {
    forall key | key in before.tables.observations && key.0 == id && Vouched(before, world, key)
      ensures Settled(before.store, world, key.1, before.tables.observations[key].fingerprint)
    {
      assert RowTrusted(before, world, key);
    }
  }

  lemma CommitsDisplace(before: Db, scan: SourceScan, config: SourceConfig, world: World, candidates: seq<Candidate>,
                        accepted: seq<Admission>, n: nat)
    requires n <= |accepted| && AllTruthful(config, world, candidates) && !DuplicateIdentity(candidates)
    requires AdmissionsFrom(accepted, world, candidates) && Trusted(before, scan.sourceId, world)
    requires Sweeping(before, scan, config.registration, candidates, |candidates|)
    ensures CommittedExactly(CommitUpTo(before, scan, config.registration, accepted, n), before, scan, config.registration,
                             world, candidates, accepted[..n])
  {
    var us := CommitsUpTo(before, scan, config.registration, accepted, n);
    NothingDisplacedYet(before, scan.sourceId, world);
    for i := 0 to n
      invariant CommittedExactly(us[i], before, scan, config.registration, world, candidates, accepted[..i])
    {
      AcceptedSnoc(accepted, i);
      CommitDisplaces(us, before, scan, config, world, candidates, accepted, i);
    }
  }

  /** Once every fingerprint of the generation is trusted, only displaced older ones can be untrue. */
  lemma HonestIffNoneDisplaced(before: Db, u: Db, scan: SourceScan, registration: SourceRegistration, world: World,
                               touched: seq<Admission>)
    requires scan.sourceId == registration.sourceId && Sound(u, registration) && TrustedNow(u, scan, world)
    requires OnlyAdmits(before, u, scan) && DisplacedExactly(before, u.store, scan.sourceId, world, touched)
    ensures Honest(u, registration, world) <==> NoneDisplaced(before, scan.sourceId, world, touched)
  {
    if Honest(u, registration, world) {
      forall i, key | 0 <= i < |touched| && key in before.tables.observations && key.0 == scan.sourceId
        ensures !Displaces(before, world, touched[i], key)
      {
        if Vouched(before, world, key) {
          assert RowTrusted(u, world, key);
          assert LeftInPlace(before, world, touched, key);
        }
      }
    }
    if NoneDisplaced(before, scan.sourceId, world, touched) {
      forall key | key in u.tables.observations && key.0 == scan.sourceId
        ensures RowTrusted(u, world, key)
      {
        if Vouched(before, world, key) {
          forall i | 0 <= i < |touched| ensures !Displaces(before, world, touched[i], key) {
            assert DisplacesNothing(before, scan.sourceId, world, touched[i]);
          }
          assert LeftInPlace(before, world, touched, key);
        }
      }
    }
  }

  /** The first or second transaction of a commit, on its own. */
  lemma PartDisplaces(before: Db, db: Db, scan: SourceScan, config: SourceConfig, world: World, candidates: seq<Candidate>,
                      touched: seq<Admission>, a: Admission, part: CommitPart)
    requires AllTruthful(config, world, candidates) && !DuplicateIdentity(candidates) && !part.BetweenCommits?
    requires CommittedExactly(Commits(db, None), before, scan, config.registration, world, candidates, touched)
    requires Trusted(before, scan.sourceId, world) && AdmissionFrom(a, world, candidates)
    requires Fits(before, scan.sourceId, world, touched, a)
    ensures var u := PartOfCommit(db, scan, config.registration, a, part);
            && Sound(u, config.registration) && TrustedNow(u, scan, world) && OnlyAdmits(before, u, scan)
            && DisplacedExactly(before, u.store, scan.sourceId, world, touched + [a])
  {
    var u := PartOfCommit(db, scan, config.registration, a, part);
    AdmissionIsTruthful(config, world, candidates, a);
    ObservationDisplaces(before, db.store, scan.sourceId, world, touched, a);
    PartIsSound(db, scan, config.registration, a, part);
    forall key | key in u.tables.observations && key.0 == scan.sourceId
                 && u.tables.observations[key].lastSeenGeneration == scan.generation
      ensures RowTrusted(u, world, key)
    {
      CommittedRowIsTrusted(db, scan, config, world, candidates, a, key);
    }
  }

  lemma PartIsSound(db: Db, scan: SourceScan, registration: SourceRegistration, a: Admission, part: CommitPart)
    requires Sound(db, registration) && IsCurrentScan(db.tables, scan) && scan.sourceId == registration.sourceId
    requires a.record.identity.producerId == registration.producerId && !part.BetweenCommits?
    ensures var u := PartOfCommit(db, scan, registration, a, part);
            && u.store == ObservePresent(db.store, a.record.identity, a.record.location, a.revision, a.commitMs)
            && u.tables.observations == db.tables.observations && Sound(u, registration)
  {
    if part.AfterMarking? {
      ObservedIsOwned(db, scan, registration, a.record.identity, a.record.location, a.revision, a.commitMs);
    } else {
      ObservationTakesEffect(db.store, a.record.identity, a.record.location, a.revision, a.commitMs);
      StoreChangeKeepsSound(db, ObservePresent(db.store, a.record.identity, a.record.location, a.revision, a.commitMs),
                            registration);
    }
  }

  lemma PartialCommitIsHonestIff(before: Db, scan: SourceScan, config: SourceConfig, world: World,
                                 candidates: seq<Candidate>, accepted: seq<Admission>, n: nat, part: CommitPart)
    requires n <= |accepted| && AllTruthful(config, world, candidates) && !DuplicateIdentity(candidates)
    requires AdmissionsFrom(accepted, world, candidates) && Trusted(before, scan.sourceId, world)
    requires Sweeping(before, scan, config.registration, candidates, |candidates|)
    ensures var t := CommitUpTo(before, scan, config.registration, accepted, n);
            && t.error.None?
            && (n < |accepted| && !part.BetweenCommits? ==>
                  (Honest(PartOfCommit(t.db, scan, config.registration, accepted[n], part), config.registration, world)
                   <==> NoneDisplaced(before, scan.sourceId, world, accepted[..n] + [accepted[n]])))
            && (Honest(t.db, config.registration, world) <==> NoneDisplaced(before, scan.sourceId, world, accepted[..n]))
  {
    var t := CommitUpTo(before, scan, config.registration, accepted, n);
    CommitsDisplace(before, scan, config, world, candidates, accepted, n);
    HonestIffNoneDisplaced(before, t.db, scan, config.registration, world, accepted[..n]);
    if n < |accepted| && !part.BetweenCommits? {
      assert AdmissionFrom(accepted[n], world, candidates);
      AdmissionFits(before, t.db, scan, config, world, candidates, accepted, n);
      PartDisplaces(before, t.db, scan, config, world, candidates, accepted[..n], accepted[n], part);
      HonestIffNoneDisplaced(before, PartOfCommit(t.db, scan, config.registration, accepted[n], part), scan,
                             config.registration, world, accepted[..n] + [accepted[n]]);
    }
  }

  lemma ReadyToCommit(db: Db, config: SourceConfig, pass: ScanPass, world: World)
    requires Honest(db, config.registration, world) && PassTruthful(config, world, pass)
    requires Prepare(db, config, pass).error.None?
    ensures var prepared, candidates := Prepare(db, config, pass), CandidatesOf(pass);
            && AllTruthful(config, world, candidates) && !DuplicateIdentity(candidates)
            && AdmissionsFrom(prepared.accepted, world, candidates)
            && Trusted(prepared.db, config.registration.sourceId, world)
            && Sweeping(prepared.db, NextScan(db, config.registration), config.registration, candidates, |candidates|)
  {
    CandidatesAreTruthful(config, world, pass);
    PreparedIsObserved(db, config, pass, world);
    SweptSoFar(db, config, pass, world);
  }

  /**
   * A crash among the commits leaves the source honest if and only if no file observed so far has moved away from a
   * place whose fingerprint is still admitted. The completion would have dropped that fingerprint; the crash keeps it.
   */
  lemma CrashAmongCommitsIsHonestIff(db: Db, config: SourceConfig, pass: ScanPass, world: World, done: nat,
                                     part: CommitPart)
    requires Honest(db, config.registration, world) && PassTruthful(config, world, pass)
    requires Prepare(db, config, pass).error.None?
    ensures var prepared := Prepare(db, config, pass);
            Honest(CrashedCommits(db, config, pass, done, part), config.registration, world)
            <==> NoneDisplaced(prepared.db, config.registration.sourceId, world, Touched(prepared.accepted, done, part))
  {
    var scan, prepared := NextScan(db, config.registration), Prepare(db, config, pass);
    var n := Min(done, |prepared.accepted|);
    ReadyToCommit(db, config, pass, world);
    PartialCommitIsHonestIff(prepared.db, scan, config, world, CandidatesOf(pass), prepared.accepted, n, part);
    assert prepared.accepted[..n] + [] == prepared.accepted[..n];
  }
}
