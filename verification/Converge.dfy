/** Sweeping an unchanging tree: every file within the limits is admitted in time, and then nothing happens any more. */
module Converge {
  import opened Wrappers
  import opened Domain
  import opened Tables
  import opened Ledger
  import opened Sources
  import opened Files
  import opened Scan
  import opened Honesty

  // ---------- An unchanging tree ----------

  predicate IsRecord(world: World, f: FileCandidate) { world.holds(f.location, f.fingerprint).Some? }

  function ParseOf(world: World, f: FileCandidate): Parse {
    if IsRecord(world, f) then Parsed(ParsedRecord(world.holds(f.location, f.fingerprint).value.0, f.location)) else NotARecord
  }

  /** The file shows the same thing at every look. */
  predicate QuietEntry(config: SourceConfig, world: World, e: ScanEntry) {
    && e.opening == First(e.file.fingerprint, ParseOf(world, e.file))
    && (IsRecord(world, e.file) ==>
          var known := world.holds(e.file.location, e.file.fingerprint).value;
          && known.0.producerId == config.registration.producerId
          && e.reopening == Second(e.file.fingerprint, ParseOf(world, e.file), Hashed(known.1, e.file.fingerprint)))
  }

  /** The sweep meets exactly this tree, unchanging, under healthy roots. */
  predicate Quiet(config: SourceConfig, world: World, tree: set<FileCandidate>, pass: ScanPass) {
    && pass.rootsBefore && pass.rootsAfter && pass.listing.Some?
    && (forall i :: 0 <= i < |pass.listing.value| ==>
          pass.listing.value[i].file in tree && QuietEntry(config, world, pass.listing.value[i]))
    && (forall i, j :: 0 <= i < j < |pass.listing.value| ==>
          pass.listing.value[i].file.location != pass.listing.value[j].file.location)
    && (forall f :: f in tree ==> exists i :: 0 <= i < |pass.listing.value| && pass.listing.value[i].file == f)
  }

  lemma QuietIsTruthful(config: SourceConfig, world: World, tree: set<FileCandidate>, pass: ScanPass)
    requires Quiet(config, world, tree, pass)
    ensures PassTruthful(config, world, pass)
  {
    forall i | 0 <= i < |pass.listing.value| ensures EntryTruthful(config, world, pass.listing.value[i]) {
      assert QuietEntry(config, world, pass.listing.value[i]);
    }
  }

  predicate QuietCandidate(config: SourceConfig, world: World, c: Candidate) {
    && IsRecord(world, c.file)
    && c.record == ParsedRecord(world.holds(c.file.location, c.file.fingerprint).value.0, c.file.location)
    && LookAgain(c) == Rehashed(world.holds(c.file.location, c.file.fingerprint).value.1)
  }

  /** The candidates are the tree's records. */
  predicate CandidatesAre(config: SourceConfig, world: World, tree: set<FileCandidate>, candidates: seq<Candidate>) {
    && (forall i :: 0 <= i < |candidates| ==> QuietCandidate(config, world, candidates[i]) && candidates[i].file in tree)
    && (forall f :: f in tree && IsRecord(world, f) ==> FoundIn(candidates, f))
    && (forall i, j :: 0 <= i < j < |candidates| ==> candidates[i].file.location != candidates[j].file.location)
  }

  predicate ListedIn(entries: seq<ScanEntry>, n: nat, f: FileCandidate)
    requires n <= |entries|
  {
    exists k :: 0 <= k < n && entries[k].file == f
  }

  predicate FoundIn(candidates: seq<Candidate>, f: FileCandidate) {
    exists i :: 0 <= i < |candidates| && candidates[i].file == f
  }

  predicate LookedQuietly(config: SourceConfig, world: World, tree: set<FileCandidate>, entries: seq<ScanEntry>, n: nat,
                          look: FirstLook)
    requires n <= |entries|
  {
    && look.error.None?
    && (forall i :: 0 <= i < |look.candidates| ==>
          && QuietCandidate(config, world, look.candidates[i]) && look.candidates[i].file in tree
          && ListedIn(entries, n, look.candidates[i].file))
    && (forall k :: 0 <= k < n && IsRecord(world, entries[k].file) ==> FoundIn(look.candidates, entries[k].file))
    && (forall i, j :: 0 <= i < j < |look.candidates| ==>
          look.candidates[i].file.location != look.candidates[j].file.location)
  }

  lemma LookingQuietly(config: SourceConfig, world: World, tree: set<FileCandidate>, entries: seq<ScanEntry>, n: nat,
                       look: FirstLook)
    requires n < |entries| && LookedQuietly(config, world, tree, entries, n, look)
    requires QuietEntry(config, world, entries[n]) && entries[n].file in tree
    requires forall i :: 0 <= i < n ==> entries[i].file.location != entries[n].file.location
    ensures LookedQuietly(config, world, tree, entries, n + 1, LookAt(look, entries[n]))
  {
    var after := LookAt(look, entries[n]);
    forall k | 0 <= k < n + 1 && IsRecord(world, entries[k].file) ensures FoundIn(after.candidates, entries[k].file) {
      if k < n {
        FoundStays(look.candidates, after.candidates, entries[k].file);
      } else {
        assert after.candidates[|look.candidates|].file == entries[n].file;
      }
    }
    forall i | 0 <= i < |after.candidates| ensures ListedIn(entries, n + 1, after.candidates[i].file) {
      assert i < |look.candidates| ==> ListedIn(entries, n, look.candidates[i].file);
    }
    forall i | 0 <= i < |look.candidates|
      ensures look.candidates[i].file.location != entries[n].file.location
    {
      assert ListedIn(entries, n, look.candidates[i].file);
    }
  }

  lemma FoundStays(candidates: seq<Candidate>, more: seq<Candidate>, f: FileCandidate)
    requires candidates <= more && FoundIn(candidates, f)
    ensures FoundIn(more, f)
  {
    var i :| 0 <= i < |candidates| && candidates[i].file == f;
    assert more[i].file == f;
  }

  lemma QuietCandidates(config: SourceConfig, world: World, tree: set<FileCandidate>, pass: ScanPass)
    requires Quiet(config, world, tree, pass)
    ensures CandidatesAre(config, world, tree, CandidatesOf(pass))
  {
    var entries := pass.listing.value;
    for n := 0 to |entries|
      invariant LookedQuietly(config, world, tree, entries, n, LookUpTo(entries, n))
    {
      LookingQuietly(config, world, tree, entries, n, LookUpTo(entries, n));
    }
    var candidates := CandidatesOf(pass);
    forall f | f in tree && IsRecord(world, f)
      ensures FoundIn(candidates, f)
    {
      var k :| 0 <= k < |entries| && entries[k].file == f;
      assert IsRecord(world, entries[k].file);
    }
  }

  // ---------- What is known of one file ----------

  /** How many times in a row this fingerprint was seen here. */
  function Count(db: Db, id: SourceId, f: FileCandidate): nat {
    var key := (id, f.location);
    if key in db.tables.observations && db.tables.observations[key].fingerprint == f.fingerprint
    then db.tables.observations[key].unchangedObservations else 0
  }

  predicate Admitted(db: Db, id: SourceId, f: FileCandidate) {
    var key := (id, f.location);
    && key in db.tables.observations && db.tables.observations[key].fingerprint == f.fingerprint
    && db.tables.observations[key].hashAdmitted
  }

  /** The files a sweep may hash. */
  function Wanted(config: SourceConfig, world: World, tree: set<FileCandidate>): set<FileCandidate> {
    set f | f in tree && IsRecord(world, f) && !OverSizeLimit(config, f)
  }

  function Pending(db: Db, config: SourceConfig, world: World, tree: set<FileCandidate>): set<FileCandidate> {
    set f | f in Wanted(config, world, tree) && !Admitted(db, config.registration.sourceId, f)
  }

  /** The file's record is active at the file's own location, at the revision of its own bytes. */
  predicate ActiveAsRead(s: Store, world: World, f: FileCandidate) {
    IsRecord(world, f) && Settled(s, world, f.location, f.fingerprint)
  }

  /** Its hash counts as admitted, but its record is not active where it is, at the revision of its bytes. */
  predicate Stranded(db: Db, config: SourceConfig, world: World, f: FileCandidate) {
    && IsRecord(world, f) && Admitted(db, config.registration.sourceId, f)
    && !Settled(db.store, world, f.location, f.fingerprint)
  }

  function IdentityOf(world: World, f: FileCandidate): RecordIdentity
    requires IsRecord(world, f)
  {
    world.holds(f.location, f.fingerprint).value.0
  }

  lemma AdmittedIsSettled(db: Db, config: SourceConfig, world: World, f: FileCandidate)
    requires Honest(db, config.registration, world) && Admitted(db, config.registration.sourceId, f)
    requires world.watched(f.location, f.fingerprint)
    ensures Settled(db.store, world, f.location, f.fingerprint)
  {
    assert RowTrusted(db, world, (config.registration.sourceId, f.location));
  }

  // ---------- One sweep's observations ----------

  /** The first `n` candidates were seen once more; nothing else changed. */
  predicate CountedUpTo(before: Db, db: Db, id: SourceId, candidates: seq<Candidate>, n: nat) {
    forall i :: 0 <= i < |candidates| ==>
      && Count(db, id, candidates[i].file) == Count(before, id, candidates[i].file) + (if i < n then 1 else 0)
      && (Admitted(db, id, candidates[i].file) <==> Admitted(before, id, candidates[i].file))
  }

  lemma ObservingCounts(db: Db, scan: SourceScan, f: FileCandidate, other: FileCandidate)
    requires IsCurrentScan(db.tables, scan)
    ensures var (t, observed) := ObserveSourceFingerprint(db, scan, f.location, f.fingerprint);
            && observed == Ok(SourceObservation(Count(db, scan.sourceId, f) + 1, !Admitted(db, scan.sourceId, f)))
            && Count(t, scan.sourceId, f) == Count(db, scan.sourceId, f) + 1
            && (Admitted(t, scan.sourceId, f) <==> Admitted(db, scan.sourceId, f))
            && (other.location != f.location ==>
                  Count(t, scan.sourceId, other) == Count(db, scan.sourceId, other)
                  && (Admitted(t, scan.sourceId, other) <==> Admitted(db, scan.sourceId, other)))
  {
  }

  lemma SeeingCounts(db: Db, t: Db, id: SourceId, f: FileCandidate)
    requires t.tables.observations == db.tables.observations
    ensures Count(t, id, f) == Count(db, id, f) && (Admitted(t, id, f) <==> Admitted(db, id, f))
  {
  }

  /** A step of the loop that does not fail: what it decides, and on which database. */
  lemma ObserveOneIs(t: Tally, scan: SourceScan, config: SourceConfig, c: Candidate)
    requires t.error.None? && ObserveOne(t, scan, config, c).error.None? && IsCurrentScan(t.db.tables, scan)
    requires c.record.location == c.file.location
    ensures var u := ObserveOne(t, scan, config, c);
            var noted := ObserveSourceFingerprint(t.db, scan, c.file.location, c.file.fingerprint).0;
            && u.db == MarkSourceRecordSeen(noted, scan, config.registration, c.record.identity).0
            && u.db.tables.observations == noted.tables.observations
            && u == Decide(t.(db := u.db), config, c,
                           SourceObservation(Count(t.db, scan.sourceId, c.file) + 1,
                                             !Admitted(t.db, scan.sourceId, c.file)))
  {
    ObservingCounts(t.db, scan, c.file, c.file);
  }

  /** Some candidate among the first `n` is within the limits, stable by now, and not admitted. */
  predicate ReadyAmong(before: Db, config: SourceConfig, candidates: seq<Candidate>, n: nat)
    requires n <= |candidates|
  {
    exists i :: 0 <= i < n && Ready(before, config, candidates[i])
  }

  predicate Ready(before: Db, config: SourceConfig, c: Candidate) {
    var id := config.registration.sourceId;
    && !OverSizeLimit(config, c.file) && !Admitted(before, id, c.file)
    && Count(before, id, c.file) + 1 >= config.minObservations
  }

  /** Accepted from a candidate within the limits that was not admitted. */
  predicate AcceptedFrom(a: Admission, before: Db, config: SourceConfig, candidates: seq<Candidate>) {
    exists i :: 0 <= i < |candidates| && a.record.location == candidates[i].file.location
                && Ready(before, config, candidates[i])
  }

  predicate SweptQuietly(u: Tally, before: Db, config: SourceConfig, candidates: seq<Candidate>, n: nat)
    requires n <= |candidates|
  {
    && CountedUpTo(before, u.db, config.registration.sourceId, candidates, n)
    && (u.accepted == [] ==> u.report.bytesHashed == 0)
    && (ReadyAmong(before, config, candidates, n) ==> u.accepted != [])
    && (forall k :: 0 <= k < |u.accepted| ==> AcceptedFrom(u.accepted[k], before, config, candidates))
  }

  lemma CountingOn(before: Db, t: Db, u: Db, scan: SourceScan, candidates: seq<Candidate>, n: nat)
    requires n < |candidates| && CountedUpTo(before, t, scan.sourceId, candidates, n) && IsCurrentScan(t.tables, scan)
    requires forall i, j :: 0 <= i < j < |candidates| ==> candidates[i].file.location != candidates[j].file.location
    requires u.tables.observations
             == ObserveSourceFingerprint(t, scan, candidates[n].file.location, candidates[n].file.fingerprint).0.tables.observations
    ensures CountedUpTo(before, u, scan.sourceId, candidates, n + 1)
  {
    var noted := ObserveSourceFingerprint(t, scan, candidates[n].file.location, candidates[n].file.fingerprint).0;
    forall i | 0 <= i < |candidates|
      ensures Count(u, scan.sourceId, candidates[i].file)
              == Count(before, scan.sourceId, candidates[i].file) + (if i < n + 1 then 1 else 0)
      ensures Admitted(u, scan.sourceId, candidates[i].file) <==> Admitted(before, scan.sourceId, candidates[i].file)
    {
      ObservingCounts(t, scan, candidates[n].file, candidates[i].file);
      SeeingCounts(noted, u, scan.sourceId, candidates[i].file);
    }
  }

  /** What one decision adds to the accepted. */
  lemma DecidingAccepts(t: Tally, config: SourceConfig, world: World, c: Candidate, observed: SourceObservation)
    requires QuietCandidate(config, world, c) && t.error.None? && Decide(t, config, c, observed).error.None?
    ensures var u := Decide(t, config, c, observed);
            var ready := observed.unchangedObservations >= config.minObservations && observed.needsHash
                         && !OverSizeLimit(config, c.file);
            && u.db == t.db
            && (if u.accepted == t.accepted then u.report.bytesHashed == t.report.bytesHashed
                else ready && exists a: Admission :: u.accepted == t.accepted + [a] && a.record == c.record)
            && (ready && t.report.bytesHashed == 0 ==> u.accepted != t.accepted)
  {
  }

  lemma SweepingQuietly(t: Tally, u: Tally, before: Db, scan: SourceScan, config: SourceConfig, world: World,
                        tree: set<FileCandidate>, candidates: seq<Candidate>, n: nat)
    requires n < |candidates| && CandidatesAre(config, world, tree, candidates)
    requires scan.sourceId == config.registration.sourceId && IsCurrentScan(t.db.tables, scan)
    requires SweptQuietly(t, before, config, candidates, n)
    requires t.error.None? && u.error.None? && TallyFollows(t, u, scan, config, candidates[n])
    ensures SweptQuietly(u, before, config, candidates, n + 1)
  {
    var c := candidates[n];
    assert QuietCandidate(config, world, c);
    ObserveOneIs(t, scan, config, c);
    CountingOn(before, t.db, u.db, scan, candidates, n);
    var observed := SourceObservation(Count(t.db, scan.sourceId, c.file) + 1, !Admitted(t.db, scan.sourceId, c.file));
    DecidingAccepts(t.(db := u.db), config, world, c, observed);
    forall k | 0 <= k < |u.accepted| ensures AcceptedFrom(u.accepted[k], before, config, candidates) {
      if k < |t.accepted| {
        assert u.accepted[k] == t.accepted[k];
      } else {
        assert Ready(before, config, candidates[n]);
      }
    }
    assert ReadyAmong(before, config, candidates, n + 1) ==> ReadyAmong(before, config, candidates, n) || Ready(before, config, c);
  }

  /** Errors stop the loop, so a loop that ended well never met one. */
  lemma NoErrorBefore(us: seq<Tally>, t: Tally, scan: SourceScan, config: SourceConfig, candidates: seq<Candidate>, n: nat)
    requires Tallies(us, t, scan, config, candidates) && n <= |candidates|
    requires us[|candidates|].error.None?
    ensures us[n].error.None?
  {
    for i := |candidates| downto n
      invariant us[i].error.None?
    {
      assert TallyFollows(us[i], us[i + 1], scan, config, candidates[i]);
    }
  }

  lemma SweepStepQuietly(us: seq<Tally>, t: Tally, before: Db, scan: SourceScan, config: SourceConfig, world: World,
                         tree: set<FileCandidate>, candidates: seq<Candidate>, n: nat)
    requires Tallies(us, t, scan, config, candidates) && us[|candidates|].error.None?
    requires n < |candidates| && CandidatesAre(config, world, tree, candidates)
    requires SweptHonestly(us[n], before.store, scan, config.registration, world, candidates, n)
    requires SweptQuietly(us[n], before, config, candidates, n)
    ensures SweptQuietly(us[n + 1], before, config, candidates, n + 1)
  {
    NoErrorBefore(us, t, scan, config, candidates, n);
    NoErrorBefore(us, t, scan, config, candidates, n + 1);
    assert TallyFollows(us[n], us[n + 1], scan, config, candidates[n]);
    SweepingQuietly(us[n], us[n + 1], before, scan, config, world, tree, candidates, n);
  }

  lemma SweepQuietly(us: seq<Tally>, t: Tally, before: Db, scan: SourceScan, config: SourceConfig, world: World,
                     tree: set<FileCandidate>, candidates: seq<Candidate>)
    requires Tallies(us, t, scan, config, candidates) && us[|candidates|].error.None?
    requires CandidatesAre(config, world, tree, candidates) && AllTruthful(config, world, candidates)
    requires SweptHonestly(t, before.store, scan, config.registration, world, candidates, 0)
    requires SweptQuietly(t, before, config, candidates, 0)
    ensures SweptQuietly(us[|candidates|], before, config, candidates, |candidates|)
  {
    for n := 0 to |candidates|
      invariant SweptHonestly(us[n], before.store, scan, config.registration, world, candidates, n)
      invariant SweptQuietly(us[n], before, config, candidates, n)
    {
      SweepStep(us, t, before.store, scan, config, world, candidates, n);
      SweepStepQuietly(us, t, before, scan, config, world, tree, candidates, n);
    }
  }

  lemma QuietlyPrepared(db: Db, config: SourceConfig, world: World, tree: set<FileCandidate>, pass: ScanPass)
    requires Honest(db, config.registration, world) && Quiet(config, world, tree, pass)
    requires Prepare(db, config, pass).error.None?
    ensures SweptQuietly(Prepare(db, config, pass), db, config, CandidatesOf(pass), |CandidatesOf(pass)|)
    ensures CandidatesAre(config, world, tree, CandidatesOf(pass))
  {
    var candidates, t := CandidatesOf(pass), FirstTally(db, config.registration, pass);
    var scan := NextScan(db, config.registration);
    QuietIsTruthful(config, world, tree, pass);
    QuietCandidates(config, world, tree, pass);
    CandidatesAreTruthful(config, world, pass);
    PreparedIsObserved(db, config, pass, world);
    FirstTallyIsHonest(db, config, pass, world, candidates);
    FirstTallyIsQuiet(db, config, pass, world, candidates);
    var us := TalliesOf(t, scan, config, candidates);
    SweepQuietly(us, t, db, scan, config, world, tree, candidates);
  }

  lemma FirstTallyIsQuiet(db: Db, config: SourceConfig, pass: ScanPass, world: World, candidates: seq<Candidate>)
    requires Honest(db, config.registration, world)
    ensures SweptQuietly(FirstTally(db, config.registration, pass), db, config, candidates, 0)
  {
    BeginningSweeps(db, config.registration, world, candidates);
    var t := FirstTally(db, config.registration, pass);
    forall i | 0 <= i < |candidates|
      ensures Count(t.db, config.registration.sourceId, candidates[i].file)
              == Count(db, config.registration.sourceId, candidates[i].file)
      ensures Admitted(t.db, config.registration.sourceId, candidates[i].file)
              <==> Admitted(db, config.registration.sourceId, candidates[i].file)
    {
      SeeingCounts(db, t.db, config.registration.sourceId, candidates[i].file);
    }
  }

  // ---------- One sweep's commits ----------

  /** Nothing is forgotten of the candidates, and the first `n` admissions have been marked. */
  predicate MarkedUpTo(before: Db, db: Db, id: SourceId, candidates: seq<Candidate>, accepted: seq<Admission>, n: nat)
    requires n <= |accepted|
  {
    forall i :: 0 <= i < |candidates| ==>
      && Count(db, id, candidates[i].file) == Count(before, id, candidates[i].file)
      && (Admitted(before, id, candidates[i].file) || LocatedIn(candidates[i].file.location, accepted[..n]) ==>
            Admitted(db, id, candidates[i].file))
  }

  predicate LocatedIn(l: LogicalLocation, accepted: seq<Admission>) {
    exists k :: 0 <= k < |accepted| && accepted[k].record.location == l
  }

  lemma MarkingMarks(db: Db, t: Db, id: SourceId, l: LogicalLocation, f: FileCandidate)
    requires (id, l) in db.tables.observations
    requires t.tables.observations == AdmitHash(db.tables.observations, (id, l))
    ensures Count(t, id, f) == Count(db, id, f)
    ensures Admitted(db, id, f) || (f.location == l && Count(db, id, f) > 0) ==> Admitted(t, id, f)
  {
  }

  lemma MarkingOn(before: Db, t: Db, u: Db, id: SourceId, candidates: seq<Candidate>, accepted: seq<Admission>, n: nat)
    requires n < |accepted| && MarkedUpTo(before, t, id, candidates, accepted, n)
    requires forall i :: 0 <= i < |candidates| ==> Count(before, id, candidates[i].file) > 0
    requires (id, accepted[n].record.location) in t.tables.observations
    requires u.tables.observations == AdmitHash(t.tables.observations, (id, accepted[n].record.location))
    ensures MarkedUpTo(before, u, id, candidates, accepted, n + 1)
  {
    forall i | 0 <= i < |candidates|
      ensures Count(u, id, candidates[i].file) == Count(before, id, candidates[i].file)
      ensures Admitted(before, id, candidates[i].file) || LocatedIn(candidates[i].file.location, accepted[..n + 1]) ==>
                Admitted(u, id, candidates[i].file)
    {
      MarkingMarks(t, u, id, accepted[n].record.location, candidates[i].file);
      if LocatedIn(candidates[i].file.location, accepted[..n + 1]) {
        var k :| 0 <= k < n + 1 && accepted[..n + 1][k].record.location == candidates[i].file.location;
        assert k < n ==> accepted[..n][k].record.location == candidates[i].file.location;
      }
    }
  }

  lemma CommitQuietly(us: seq<Commits>, db: Db, scan: SourceScan, config: SourceConfig, world: World,
                      candidates: seq<Candidate>, accepted: seq<Admission>)
    requires CommitRun(us, db, scan, config.registration, accepted)
    requires AllTruthful(config, world, candidates) && !DuplicateIdentity(candidates)
    requires Committing(us[0], scan, config.registration, world, candidates)
    requires AdmissionsFrom(accepted, world, candidates)
    requires forall i :: 0 <= i < |candidates| ==> Count(db, scan.sourceId, candidates[i].file) > 0
    ensures MarkedUpTo(db, us[|accepted|].db, scan.sourceId, candidates, accepted, |accepted|)
  {
    for n := 0 to |accepted|
      invariant Committing(us[n], scan, config.registration, world, candidates)
      invariant MarkedUpTo(db, us[n].db, scan.sourceId, candidates, accepted, n)
    {
      CommitStep(us, db, scan, config, world, candidates, accepted, n);
      MarkingOn(db, us[n].db, us[n + 1].db, scan.sourceId, candidates, accepted, n);
    }
  }

  /** A completion keeps what it knows of the files seen in its generation. */
  lemma CompletionCounts(db: Db, scan: SourceScan, grace: Option<TombstoneGrace>, nowMs: Millis, f: FileCandidate)
    requires LedgerInv(db.store) && IsCurrentScan(db.tables, scan) && ObservedNow(db, scan, f.location)
    ensures var t := CompleteSourceScan(db, scan, grace, nowMs).0;
            && Count(t, scan.sourceId, f) == Count(db, scan.sourceId, f)
            && (Admitted(t, scan.sourceId, f) <==> Admitted(db, scan.sourceId, f))
  {
    CompletionFrame(db, scan, grace, nowMs);
  }

  // ---------- One sweep ----------

  /** What a sweep does to the files it met. */
  predicate SweptOnce(before: Db, after: Db, config: SourceConfig, candidates: seq<Candidate>) {
    var id := config.registration.sourceId;
    && (forall i :: 0 <= i < |candidates| ==>
          && Count(after, id, candidates[i].file) == Count(before, id, candidates[i].file) + 1
          && (Admitted(before, id, candidates[i].file) ==> Admitted(after, id, candidates[i].file)))
    && (ReadyAmong(before, config, candidates, |candidates|) ==>
          exists i :: 0 <= i < |candidates| && Ready(before, config, candidates[i])
                      && Admitted(after, id, candidates[i].file))
  }

  lemma CommittedQuietly(db: Db, config: SourceConfig, world: World, tree: set<FileCandidate>, pass: ScanPass)
    requires Honest(db, config.registration, world) && Quiet(config, world, tree, pass)
    requires Prepare(db, config, pass).error.None?
    ensures var scan, prepared := NextScan(db, config.registration), Prepare(db, config, pass);
            var committed := CommitUpTo(prepared.db, scan, config.registration, prepared.accepted, |prepared.accepted|);
            SweptOnce(db, committed.db, config, CandidatesOf(pass))
  {
    var id, candidates := config.registration.sourceId, CandidatesOf(pass);
    var scan, prepared := NextScan(db, config.registration), Prepare(db, config, pass);
    QuietIsTruthful(config, world, tree, pass);
    CandidatesAreTruthful(config, world, pass);
    PreparedIsObserved(db, config, pass, world);
    SweptSoFar(db, config, pass, world);
    QuietlyPrepared(db, config, world, tree, pass);
    var us := CommitsOf(prepared.db, scan, config.registration, prepared.accepted);
    CommitQuietly(us, prepared.db, scan, config, world, candidates, prepared.accepted);
    MarkedIsSwept(db, prepared, us[|prepared.accepted|].db, config, candidates);
  }

  lemma MarkedIsSwept(before: Db, prepared: Tally, after: Db, config: SourceConfig, candidates: seq<Candidate>)
    requires SweptQuietly(prepared, before, config, candidates, |candidates|)
    requires MarkedUpTo(prepared.db, after, config.registration.sourceId, candidates, prepared.accepted, |prepared.accepted|)
    ensures SweptOnce(before, after, config, candidates)
  {
    var accepted := prepared.accepted;
    if ReadyAmong(before, config, candidates, |candidates|) {
      assert AcceptedFrom(accepted[0], before, config, candidates);
      var i :| 0 <= i < |candidates| && accepted[0].record.location == candidates[i].file.location
               && Ready(before, config, candidates[i]);
      assert accepted[..|accepted|][0].record.location == candidates[i].file.location;
    }
  }

  lemma ScanSweepsOnce(db: Db, config: SourceConfig, world: World, tree: set<FileCandidate>, pass: ScanPass)
    requires Honest(db, config.registration, world) && Quiet(config, world, tree, pass)
    requires Succeeds(db, config, pass)
    ensures SweptOnce(db, ScanOnce(db, config, pass).db, config, CandidatesOf(pass))
    ensures Honest(ScanOnce(db, config, pass).db, config.registration, world)
    ensures CandidatesAre(config, world, tree, CandidatesOf(pass))
  {
    var scan, prepared := NextScan(db, config.registration), Prepare(db, config, pass);
    QuietIsTruthful(config, world, tree, pass);
    QuietCandidates(config, world, tree, pass);
    ScanKeepsHonesty(db, config, pass, world);
    CommittedHonestly(db, config, pass, world);
    CommittedQuietly(db, config, world, tree, pass);
    var committed := CommitUpTo(prepared.db, scan, config.registration, prepared.accepted, |prepared.accepted|);
    CompletionSweeps(db, committed.db, scan, config, CandidatesOf(pass), pass.completeMs);
  }

  lemma CompletionSweeps(before: Db, db: Db, scan: SourceScan, config: SourceConfig, candidates: seq<Candidate>,
                         nowMs: Millis)
    requires SweptOnce(before, db, config, candidates)
    requires Sweeping(db, scan, config.registration, candidates, |candidates|)
    ensures SweptOnce(before, CompleteSourceScan(db, scan, config.grace, nowMs).0, config, candidates)
  {
    var t, id := CompleteSourceScan(db, scan, config.grace, nowMs).0, config.registration.sourceId;
    forall i | 0 <= i < |candidates|
      ensures Count(t, id, candidates[i].file) == Count(db, id, candidates[i].file)
      ensures Admitted(t, id, candidates[i].file) <==> Admitted(db, id, candidates[i].file)
    {
      assert ObservedNow(db, scan, candidates[i].file.location);
      CompletionCounts(db, scan, config.grace, nowMs, candidates[i].file);
    }
  }
}
