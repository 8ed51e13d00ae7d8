/**
 * The promise behind skipping a hash: when every fingerprint determines its bytes, an admitted fingerprint names a
 * record that is active where the file is, at the revision of its bytes.
 */
module Honesty {
  import opened Wrappers
  import opened Domain
  import opened Tables
  import opened Ledger
  import opened Sources
  import opened Grace
  import opened Files
  import opened Scan

  // ---------- Truthful reads ----------

  /**
   * What the bytes behind a fingerprint hold, wherever they are: a record and its revision, or no record. Of these
   * fingerprints only the watched ones are asked to keep the promise.
   */
  datatype World = World(
    holds: (LogicalLocation, SourceFingerprint) -> Option<(RecordIdentity, CanonicalRevision)>,
    watched: (LogicalLocation, SourceFingerprint) -> bool)

  predicate ParseTruthful(config: SourceConfig, world: World, l: LogicalLocation, f: SourceFingerprint, parse: Parse) {
    parse.ParseFailed? ||
    match world.holds(l, f)
    case None => parse.NotARecord?
    case Some((identity, _)) =>
      parse == Parsed(ParsedRecord(identity, l)) && identity.producerId == config.registration.producerId
  }

  /** Looks may fail and files may change between looks, but what is read is what the fingerprint stands for. */
  predicate EntryTruthful(config: SourceConfig, world: World, e: ScanEntry) {
    && (e.opening.First? ==> ParseTruthful(config, world, e.file.location, e.opening.current, e.opening.parse))
    && (e.reopening.Second? && e.reopening.hash.Hashed?
        && e.reopening.before == e.file.fingerprint == e.reopening.hash.after ==>
          var known := world.holds(e.file.location, e.file.fingerprint);
          known.Some? ==> e.reopening.hash.revision == known.value.1)
  }

  predicate PassTruthful(config: SourceConfig, world: World, pass: ScanPass) {
    pass.listing.Some? ==>
      && (forall i :: 0 <= i < |pass.listing.value| ==> EntryTruthful(config, world, pass.listing.value[i]))
      && (forall i, j :: 0 <= i < j < |pass.listing.value| ==>
            pass.listing.value[i].file.location != pass.listing.value[j].file.location)
  }

  predicate CandidateTruthful(config: SourceConfig, world: World, c: Candidate) {
    var known := world.holds(c.file.location, c.file.fingerprint);
    && known.Some? && c.record == ParsedRecord(known.value.0, c.file.location)
    && c.record.identity.producerId == config.registration.producerId
    && (LookAgain(c).Rehashed? ==> LookAgain(c).revision == known.value.1)
  }

  predicate AllTruthful(config: SourceConfig, world: World, candidates: seq<Candidate>) {
    && (forall i :: 0 <= i < |candidates| ==> CandidateTruthful(config, world, candidates[i]))
    && (forall i, j :: 0 <= i < j < |candidates| ==> candidates[i].file.location != candidates[j].file.location)
  }

  lemma {:induction false} LookedUpAreTruthful(config: SourceConfig, world: World, entries: seq<ScanEntry>, n: nat)
    requires n <= |entries|
    requires forall i :: 0 <= i < |entries| ==> EntryTruthful(config, world, entries[i])
    requires forall i, j :: 0 <= i < j < |entries| ==> entries[i].file.location != entries[j].file.location
    ensures AllTruthful(config, world, LookUpTo(entries, n).candidates)
    ensures forall c :: c in LookUpTo(entries, n).candidates ==>
              exists i :: 0 <= i < n && entries[i].file == c.file
    decreases n
  {
    if n > 0 {
      LookedUpAreTruthful(config, world, entries, n - 1);
      assert EntryTruthful(config, world, entries[n - 1]);
    }
  }

  // ---------- One settled fingerprint ----------

  /** The record behind this location and fingerprint is active there, at the revision of its bytes. */
  predicate Settled(s: Store, world: World, l: LogicalLocation, f: SourceFingerprint) {
    var known := world.holds(l, f);
    && known.Some?
    && var found := FindRecord(s.records, known.value.0);
    found.Some? && PresentAs(s, found.value, l, known.value.1)
  }

  /** Observing one identity leaves every other one where it was. */
  lemma ObservationLeavesOthers(s: Store, identity: RecordIdentity, location: LogicalLocation,
                                revision: CanonicalRevision, nowMs: Millis, other: RecordIdentity)
    requires LedgerInv(s) && other != identity
    ensures var t := ObservePresent(s, identity, location, revision, nowMs);
            var found := FindRecord(s.records, other);
            && FindRecord(t.records, other) == found
            && (found.Some? ==> found.value < |t.records| && t.records[found.value] == s.records[found.value]
                                && RevisionOf(t.revisions, s.records[found.value].currentRevisionId)
                                   == RevisionOf(s.revisions, s.records[found.value].currentRevisionId))
  {
    ObservationKeepsLedger(s, identity, location, revision, nowMs);
    OthersAreFound(s, ObservePresent(s, identity, location, revision, nowMs), AdmitRecord(s, identity, location).1,
                   identity, other);
  }

  lemma OthersAreFound(s: Store, t: Store, r: RecordId, identity: RecordIdentity, other: RecordIdentity)
    requires LedgerInv(s) && LedgerInv(t) && OthersUnmoved(s, t, r) && s.revisions <= t.revisions
    requires r < |t.records| && t.records[r].identity == identity != other
    requires r < |s.records| ==> s.records[r].identity == identity
    ensures var found := FindRecord(s.records, other);
            && FindRecord(t.records, other) == found
            && (found.Some? ==> found.value < |t.records| && t.records[found.value] == s.records[found.value]
                                && RevisionOf(t.revisions, s.records[found.value].currentRevisionId)
                                   == RevisionOf(s.revisions, s.records[found.value].currentRevisionId))
  {
    var found := FindRecord(s.records, other);
    if found.Some? {
      FindKnown(t, found.value);
      assert RecordOk(s, found.value);
    }
  }

  lemma ObservationSettles(s: Store, world: World, l: LogicalLocation, f: SourceFingerprint, nowMs: Millis)
    requires LedgerInv(s) && world.holds(l, f).Some?
    ensures Settled(ObservePresent(s, world.holds(l, f).value.0, l, world.holds(l, f).value.1, nowMs), world, l, f)
  {
    ObservationTakesEffect(s, world.holds(l, f).value.0, l, world.holds(l, f).value.1, nowMs);
  }

  lemma ObservationKeepsSettled(s: Store, world: World, l: LogicalLocation, f: SourceFingerprint,
                                identity: RecordIdentity, location: LogicalLocation, revision: CanonicalRevision,
                                nowMs: Millis)
    requires LedgerInv(s) && Settled(s, world, l, f) && world.holds(l, f).value.0 != identity
    ensures Settled(ObservePresent(s, identity, location, revision, nowMs), world, l, f)
  {
    ObservationLeavesOthers(s, identity, location, revision, nowMs, world.holds(l, f).value.0);
  }

  // ---------- The whole source ----------

  function Generation(db: Db, id: SourceId): nat {
    if id in db.tables.sources then db.tables.sources[id].nextGeneration else 0
  }

  /** Whatever has an owner is owned by the one source. */
  predicate OwnedBy(db: Db, id: SourceId) {
    forall r :: r in db.tables.owners ==>
      && r < |db.store.records|
      && db.tables.owners[r].sourceId == id
      && db.tables.owners[r].lastSeenGeneration <= Generation(db, id)
  }

  predicate RowsInTime(db: Db, id: SourceId) {
    forall key :: key in db.tables.observations && key.0 == id ==>
      db.tables.observations[key].lastSeenGeneration <= Generation(db, id)
  }

  predicate RegisteredAs(db: Db, registration: SourceRegistration) {
    var id := registration.sourceId;
    id in db.tables.sources ==>
      && db.tables.sources[id].registration == registration
      && db.tables.sources[id].lastCompleteGeneration <= db.tables.sources[id].nextGeneration
  }

  /** Admitted, and asked to stay true. */
  predicate Vouched(db: Db, world: World, key: (SourceId, LogicalLocation))
    requires key in db.tables.observations
  {
    var row := db.tables.observations[key];
    row.hashAdmitted && world.watched(key.1, row.fingerprint)
  }

  predicate RowTrusted(db: Db, world: World, key: (SourceId, LogicalLocation))
    requires key in db.tables.observations
  {
    var row := db.tables.observations[key];
    Vouched(db, world, key) ==> Settled(db.store, world, key.1, row.fingerprint)
  }

  predicate Trusted(db: Db, id: SourceId, world: World) {
    forall key :: key in db.tables.observations && key.0 == id ==> RowTrusted(db, world, key)
  }

  predicate Sound(db: Db, registration: SourceRegistration) {
    && LedgerInv(db.store)
    && OwnedBy(db, registration.sourceId) && RowsInTime(db, registration.sourceId)
    && RegisteredAs(db, registration)
  }

  /** Between sweeps: everything an admitted fingerprint says is still so. */
  predicate Honest(db: Db, registration: SourceRegistration, world: World) {
    Sound(db, registration) && Trusted(db, registration.sourceId, world)
  }

  lemma NewDatabaseIsHonest(registration: SourceRegistration, world: World)
    ensures Honest(EMPTY_DB, registration, world)
  {
  }

  // ---------- During a sweep ----------

  /** The row comes from one of the first `n` candidates. */
  predicate RowFrom(row: ObservationRow, l: LogicalLocation, candidates: seq<Candidate>, n: nat)
    requires n <= |candidates|
  {
    exists i :: 0 <= i < n && candidates[i].file.location == l && candidates[i].file.fingerprint == row.fingerprint
  }

  /** If the identity has a record, this sweep has marked it seen. */
  predicate SeenBy(db: Db, scan: SourceScan, identity: RecordIdentity) {
    var found := FindRecord(db.store.records, identity);
    found.Some? ==> found.value in db.tables.owners
                    && db.tables.owners[found.value].lastSeenGeneration == scan.generation
  }

  predicate RowsFrom(db: Db, scan: SourceScan, candidates: seq<Candidate>, n: nat)
    requires n <= |candidates|
  {
    forall key :: key in db.tables.observations && key.0 == scan.sourceId
                  && db.tables.observations[key].lastSeenGeneration == scan.generation ==>
      RowFrom(db.tables.observations[key], key.1, candidates, n)
  }

  predicate AllSeen(db: Db, scan: SourceScan, candidates: seq<Candidate>, n: nat)
    requires n <= |candidates|
  {
    forall i :: 0 <= i < n ==> SeenBy(db, scan, candidates[i].record.identity)
  }

  predicate ObservedNow(db: Db, scan: SourceScan, l: LogicalLocation) {
    (scan.sourceId, l) in db.tables.observations
    && db.tables.observations[(scan.sourceId, l)].lastSeenGeneration == scan.generation
  }

  predicate AllObserved(db: Db, scan: SourceScan, candidates: seq<Candidate>, n: nat)
    requires n <= |candidates|
  {
    forall i :: 0 <= i < n ==> ObservedNow(db, scan, candidates[i].file.location)
  }

  /** This generation is the open one, and its first `n` candidates have been observed and marked seen. */
  predicate Sweeping(db: Db, scan: SourceScan, registration: SourceRegistration, candidates: seq<Candidate>, n: nat)
    requires n <= |candidates|
  {
    && Sound(db, registration) && scan.sourceId == registration.sourceId && IsCurrentScan(db.tables, scan)
    && RowsFrom(db, scan, candidates, n) && AllSeen(db, scan, candidates, n) && AllObserved(db, scan, candidates, n)
  }

  /** Every row of this generation is trusted; stale rows may not be, once commits have begun. */
  predicate TrustedNow(db: Db, scan: SourceScan, world: World) {
    forall key :: key in db.tables.observations && key.0 == scan.sourceId
                  && db.tables.observations[key].lastSeenGeneration == scan.generation ==>
      RowTrusted(db, world, key)
  }

  lemma BeginningSweeps(db: Db, registration: SourceRegistration, world: World, candidates: seq<Candidate>)
    requires Honest(db, registration, world)
    ensures var (begun, started) := BeginSourceScan(db, registration);
            && started == Ok(NextScan(db, registration))
            && begun.store == db.store && begun.tables.observations == db.tables.observations
            && begun.tables.missing == db.tables.missing && begun.tables.owners == db.tables.owners
            && Sweeping(begun, started.value, registration, candidates, 0)
            && Trusted(begun, registration.sourceId, world)
  {
    var begun := BeginSourceScan(db, registration).0;
    assert forall key :: key in db.tables.observations && key.0 == registration.sourceId ==>
             RowTrusted(db, world, key) == RowTrusted(begun, world, key);
  }

  lemma FingerprintSweeps(db: Db, scan: SourceScan, registration: SourceRegistration, world: World,
                          candidates: seq<Candidate>, n: nat)
    requires n < |candidates| && Sweeping(db, scan, registration, candidates, n) && Trusted(db, scan.sourceId, world)
    requires candidates[n].record.location == candidates[n].file.location
    ensures var (t, observed) :=
              ObserveSourceFingerprint(db, scan, candidates[n].file.location, candidates[n].file.fingerprint);
            && observed.Ok? && t.store == db.store && t.tables.owners == db.tables.owners
            && Sound(t, registration) && IsCurrentScan(t.tables, scan)
            && RowsFrom(t, scan, candidates, n + 1) && AllObserved(t, scan, candidates, n + 1)
            && Trusted(t, scan.sourceId, world)
  {
    var l, f := candidates[n].file.location, candidates[n].file.fingerprint;
    var t := ObserveSourceFingerprint(db, scan, l, f).0;
    forall key | key in t.tables.observations && key.0 == scan.sourceId
      ensures RowTrusted(t, world, key)
      ensures t.tables.observations[key].lastSeenGeneration == scan.generation ==>
                RowFrom(t.tables.observations[key], key.1, candidates, n + 1)
    {
      if key == (scan.sourceId, l) {
        assert candidates[n].file.location == key.1;
        assert key in db.tables.observations ==> RowTrusted(db, world, key);
      } else {
        assert RowTrusted(db, world, key);
        assert db.tables.observations[key].lastSeenGeneration == scan.generation ==>
                 RowFrom(db.tables.observations[key], key.1, candidates, n);
      }
    }
  }

  /** Marking one identity seen forgets nothing about the others. */
  lemma SeeingSweeps(db: Db, scan: SourceScan, registration: SourceRegistration, identity: RecordIdentity)
    requires Sound(db, registration) && IsCurrentScan(db.tables, scan) && scan.sourceId == registration.sourceId
    requires identity.producerId == registration.producerId
    ensures var (t, marked) := MarkSourceRecordSeen(db, scan, registration, identity);
            && marked.Ok? && t.store == db.store && t.tables.observations == db.tables.observations
            && t.tables.sources == db.tables.sources
            && Sound(t, registration) && SeenBy(t, scan, identity)
            && (forall other :: SeenBy(db, scan, other) ==> SeenBy(t, scan, other))
  {
  }

  lemma SeenStays(db: Db, t: Db, scan: SourceScan, candidates: seq<Candidate>, n: nat)
    requires n <= |candidates| && AllSeen(db, scan, candidates, n)
    requires t.store.records == db.store.records && t.tables.owners == db.tables.owners
    ensures AllSeen(t, scan, candidates, n)
  {
    forall i | 0 <= i < n ensures SeenBy(t, scan, candidates[i].record.identity) {
      assert SeenBy(db, scan, candidates[i].record.identity);
    }
  }

  /** What the observing loop leaves in the database, whichever way its decisions go. */
  lemma ObservedDb(t: Tally, scan: SourceScan, config: SourceConfig, c: Candidate)
    requires t.error.None?
    ensures var (noted, observed) := ObserveSourceFingerprint(t.db, scan, c.record.location, c.file.fingerprint);
            var (seen, marked) := MarkSourceRecordSeen(noted, scan, config.registration, c.record.identity);
            observed.Ok? && marked.Ok? ==>
              && ObserveOne(t, scan, config, c) == Decide(t.(db := seen), config, c, observed.value)
              && ObserveOne(t, scan, config, c).db == seen
  {
  }

  lemma ObservingSweeps(t: Tally, scan: SourceScan, config: SourceConfig, world: World, candidates: seq<Candidate>, n: nat)
    requires n < |candidates| && AllTruthful(config, world, candidates)
    requires Sweeping(t.db, scan, config.registration, candidates, n) && Trusted(t.db, scan.sourceId, world)
    requires t.error.None?
    ensures var u := ObserveOne(t, scan, config, candidates[n]);
            && u.db.store == t.db.store
            && Sweeping(u.db, scan, config.registration, candidates, n + 1) && Trusted(u.db, scan.sourceId, world)
  {
    var c := candidates[n];
    assert CandidateTruthful(config, world, c);
    FingerprintSweeps(t.db, scan, config.registration, world, candidates, n);
    var noted := ObserveSourceFingerprint(t.db, scan, c.record.location, c.file.fingerprint).0;
    SeenStays(t.db, noted, scan, candidates, n);
    SeeingSweeps(noted, scan, config.registration, c.record.identity);
    ObservedDb(t, scan, config, c);
    var seen := MarkSourceRecordSeen(noted, scan, config.registration, c.record.identity).0;
    SweepingAfter(noted, seen, scan, config.registration, world, candidates, n);
  }

  lemma SweepingAfter(noted: Db, seen: Db, scan: SourceScan, registration: SourceRegistration, world: World,
                      candidates: seq<Candidate>, n: nat)
    requires n < |candidates| && scan.sourceId == registration.sourceId
    requires RowsFrom(noted, scan, candidates, n + 1) && AllSeen(noted, scan, candidates, n)
    requires AllObserved(noted, scan, candidates, n + 1)
    requires Trusted(noted, scan.sourceId, world) && IsCurrentScan(noted.tables, scan)
    requires Sound(seen, registration) && SeenBy(seen, scan, candidates[n].record.identity)
    requires seen.store == noted.store && seen.tables.observations == noted.tables.observations
    requires seen.tables.sources == noted.tables.sources
    requires forall other :: SeenBy(noted, scan, other) ==> SeenBy(seen, scan, other)
    ensures Sweeping(seen, scan, registration, candidates, n + 1) && Trusted(seen, scan.sourceId, world)
  {
    assert forall key :: key in seen.tables.observations && key.0 == scan.sourceId ==>
             RowTrusted(noted, world, key) == RowTrusted(seen, world, key);
    forall i | 0 <= i < n + 1 ensures SeenBy(seen, scan, candidates[i].record.identity) {
      assert i < n ==> SeenBy(noted, scan, candidates[i].record.identity);
    }
  }

  /** An accepted candidate, ready to be committed. */
  predicate AdmissionFrom(a: Admission, world: World, candidates: seq<Candidate>) {
    exists i :: 0 <= i < |candidates| && a.record == candidates[i].record
                && a.record.location == candidates[i].file.location
                && world.holds(candidates[i].file.location, candidates[i].file.fingerprint)
                   == Some((a.record.identity, a.revision))
  }

  predicate AdmissionsFrom(accepted: seq<Admission>, world: World, candidates: seq<Candidate>) {
    forall i :: 0 <= i < |accepted| ==> AdmissionFrom(accepted[i], world, candidates)
  }

  lemma ObservingAdmits(t: Tally, scan: SourceScan, config: SourceConfig, world: World, candidates: seq<Candidate>, n: nat)
    requires n < |candidates| && AllTruthful(config, world, candidates)
    requires AdmissionsFrom(t.accepted, world, candidates)
    ensures AdmissionsFrom(ObserveOne(t, scan, config, candidates[n]).accepted, world, candidates)
  {
    var u := ObserveOne(t, scan, config, candidates[n]);
    assert CandidateTruthful(config, world, candidates[n]);
    if u.accepted != t.accepted {
      AcceptedIsNew(t, scan, config, candidates[n]);
    }
  }

  lemma AcceptedIsNew(t: Tally, scan: SourceScan, config: SourceConfig, c: Candidate)
    ensures var u := ObserveOne(t, scan, config, c);
            u.accepted != t.accepted ==>
              LookAgain(c).Rehashed? && u.accepted == t.accepted + [Admission(c.record, LookAgain(c).revision, c.commitMs)]
  {
  }

  /** The sweep so far has touched no record, and every admitted fingerprint is still trustworthy. */
  predicate SweptHonestly(u: Tally, store: Store, scan: SourceScan, registration: SourceRegistration, world: World,
                          candidates: seq<Candidate>, n: nat)
    requires n <= |candidates|
  {
    && Sound(u.db, registration) && Trusted(u.db, scan.sourceId, world) && u.db.store == store
    && (u.error.None? ==> Sweeping(u.db, scan, registration, candidates, n))
  }

  predicate TallyFollows(u: Tally, v: Tally, scan: SourceScan, config: SourceConfig, c: Candidate) {
    v == ObserveOne(u, scan, config, c)
  }

  /** The tallies of the observing loop, one per candidate. */
  ghost predicate Tallies(us: seq<Tally>, t: Tally, scan: SourceScan, config: SourceConfig, candidates: seq<Candidate>) {
    && |us| == |candidates| + 1 && us[0] == t
    && forall i :: 0 <= i < |candidates| ==> TallyFollows(us[i], us[i + 1], scan, config, candidates[i])
  }

  lemma TalliesUpTo(t: Tally, scan: SourceScan, config: SourceConfig, candidates: seq<Candidate>, n: nat)
    returns (us: seq<Tally>)
    requires n <= |candidates|
    ensures Tallies(us, t, scan, config, candidates)
    ensures ObserveUpTo(t, scan, config, candidates, n) == us[n]
  {
    us := seq(|candidates| + 1, i requires 0 <= i <= |candidates| => ObserveUpTo(t, scan, config, candidates, i));
  }

  lemma TalliesOf(t: Tally, scan: SourceScan, config: SourceConfig, candidates: seq<Candidate>) returns (us: seq<Tally>)
    ensures Tallies(us, t, scan, config, candidates)
    ensures ObserveUpTo(t, scan, config, candidates, |candidates|) == us[|candidates|]
  {
    us := TalliesUpTo(t, scan, config, candidates, |candidates|);
  }

  lemma SweepStep(us: seq<Tally>, t: Tally, store: Store, scan: SourceScan, config: SourceConfig, world: World,
                  candidates: seq<Candidate>, n: nat)
    requires Tallies(us, t, scan, config, candidates)
    requires n < |candidates| && AllTruthful(config, world, candidates)
    requires SweptHonestly(us[n], store, scan, config.registration, world, candidates, n)
    ensures SweptHonestly(us[n + 1], store, scan, config.registration, world, candidates, n + 1)
  {
    assert TallyFollows(us[n], us[n + 1], scan, config, candidates[n]);
    if us[n].error.None? {
      ObservingSweeps(us[n], scan, config, world, candidates, n);
    }
  }

  lemma SweepKeepsHonesty(us: seq<Tally>, t: Tally, store: Store, scan: SourceScan, config: SourceConfig, world: World,
                          candidates: seq<Candidate>, n: nat)
    requires Tallies(us, t, scan, config, candidates) && AllTruthful(config, world, candidates) && n <= |candidates|
    requires SweptHonestly(t, store, scan, config.registration, world, candidates, 0)
    ensures SweptHonestly(us[n], store, scan, config.registration, world, candidates, n)
  {
    for i := 0 to n
      invariant SweptHonestly(us[i], store, scan, config.registration, world, candidates, i)
    {
      SweepStep(us, t, store, scan, config, world, candidates, i);
    }
  }

  lemma AcceptedAreAdmissible(us: seq<Tally>, t: Tally, scan: SourceScan, config: SourceConfig, world: World,
                              candidates: seq<Candidate>)
    requires Tallies(us, t, scan, config, candidates) && AllTruthful(config, world, candidates) && t.accepted == []
    ensures AdmissionsFrom(us[|candidates|].accepted, world, candidates)
  {
    for n := 0 to |candidates|
      invariant AdmissionsFrom(us[n].accepted, world, candidates)
    {
      assert TallyFollows(us[n], us[n + 1], scan, config, candidates[n]);
      ObservingAdmits(us[n], scan, config, world, candidates, n);
    }
  }

  // ---------- During the commits ----------

  /** Marking the one record that may be new as seen leaves every record owned. */
  lemma OwningTheObserved(db: Db, s: Store, scan: SourceScan, registration: SourceRegistration, identity: RecordIdentity)
    requires Sound(db, registration) && IsCurrentScan(db.tables, scan) && scan.sourceId == registration.sourceId
    requires identity.producerId == registration.producerId
    requires LedgerInv(s) && FindRecord(s.records, identity).Some?
    requires OthersUnmoved(db.store, s, FindRecord(s.records, identity).value) && |db.store.records| <= |s.records|
    ensures var (t, seen) := MarkSourceRecordSeen(db.(store := s), scan, registration, identity);
            && seen.Ok? && t.store == s
            && t.tables.observations == db.tables.observations && t.tables.sources == db.tables.sources
            && Sound(t, registration) && SeenBy(t, scan, identity)
            && (forall r :: r in db.tables.owners && db.tables.owners[r].lastSeenGeneration == scan.generation ==>
                  r in t.tables.owners && t.tables.owners[r].lastSeenGeneration == scan.generation)
  {
  }

  lemma ObservedIsOwned(db: Db, scan: SourceScan, registration: SourceRegistration, identity: RecordIdentity,
                        location: LogicalLocation, revision: CanonicalRevision, nowMs: Millis)
    requires Sound(db, registration) && IsCurrentScan(db.tables, scan) && scan.sourceId == registration.sourceId
    requires identity.producerId == registration.producerId
    ensures var (t, seen) := ObservePresentFromSource(db, scan, registration, identity, location, revision, nowMs);
            && seen.Ok? && t.store == ObservePresent(db.store, identity, location, revision, nowMs)
            && t.tables.observations == db.tables.observations && t.tables.sources == db.tables.sources
            && Sound(t, registration) && SeenBy(t, scan, identity)
            && (forall r :: r in db.tables.owners && db.tables.owners[r].lastSeenGeneration == scan.generation ==>
                  r in t.tables.owners && t.tables.owners[r].lastSeenGeneration == scan.generation)
  {
    ObservationTakesEffect(db.store, identity, location, revision, nowMs);
    OwningTheObserved(db, ObservePresent(db.store, identity, location, revision, nowMs), scan, registration, identity);
  }

  lemma SeenSurvivesObservation(db: Db, t: Db, scan: SourceScan, identity: RecordIdentity, location: LogicalLocation,
                                revision: CanonicalRevision, nowMs: Millis, other: RecordIdentity)
    requires LedgerInv(db.store) && t.store == ObservePresent(db.store, identity, location, revision, nowMs)
    requires SeenBy(db, scan, other) && SeenBy(t, scan, identity)
    requires forall r :: r in db.tables.owners && db.tables.owners[r].lastSeenGeneration == scan.generation ==>
               r in t.tables.owners && t.tables.owners[r].lastSeenGeneration == scan.generation
    ensures SeenBy(t, scan, other)
  {
    if other != identity {
      ObservationLeavesOthers(db.store, identity, location, revision, nowMs, other);
    }
  }

  /** Rows of this generation belong to different candidates, so to different identities. */
  lemma OtherRowsOtherIdentities(db: Db, scan: SourceScan, config: SourceConfig, world: World, candidates: seq<Candidate>,
                                 a: Admission, key: (SourceId, LogicalLocation))
    requires AllTruthful(config, world, candidates) && !DuplicateIdentity(candidates)
    requires RowsFrom(db, scan, candidates, |candidates|) && AdmissionFrom(a, world, candidates)
    requires key in db.tables.observations && key.0 == scan.sourceId && key.1 != a.record.location
    requires db.tables.observations[key].lastSeenGeneration == scan.generation
    ensures var known := world.holds(key.1, db.tables.observations[key].fingerprint);
            known.Some? && known.value.0 != a.record.identity
  {
    var row := db.tables.observations[key];
    assert RowFrom(row, key.1, candidates, |candidates|);
    var i :| 0 <= i < |candidates| && candidates[i].file.location == key.1 && candidates[i].file.fingerprint == row.fingerprint;
    assert CandidateTruthful(config, world, candidates[i]);
    var j :| 0 <= j < |candidates| && a.record == candidates[j].record
             && a.record.location == candidates[j].file.location;
    assert i != j;
    assert candidates[i].record.identity != candidates[j].record.identity;
  }

  lemma CommittedRowIsTrusted(db: Db, scan: SourceScan, config: SourceConfig, world: World, candidates: seq<Candidate>,
                              a: Admission, key: (SourceId, LogicalLocation))
    requires AllTruthful(config, world, candidates) && !DuplicateIdentity(candidates)
    requires Sweeping(db, scan, config.registration, candidates, |candidates|) && TrustedNow(db, scan, world)
    requires AdmissionFrom(a, world, candidates)
    requires key in db.tables.observations && key.0 == scan.sourceId
    requires db.tables.observations[key].lastSeenGeneration == scan.generation
    ensures var row := db.tables.observations[key];
            var t := ObservePresent(db.store, a.record.identity, a.record.location, a.revision, a.commitMs);
            Vouched(db, world, key) || key.1 == a.record.location ==> Settled(t, world, key.1, row.fingerprint)
  {
    var row := db.tables.observations[key];
    if key.1 != a.record.location {
      OtherRowsOtherIdentities(db, scan, config, world, candidates, a, key);
      if Vouched(db, world, key) {
        assert RowTrusted(db, world, key);
        ObservationKeepsSettled(db.store, world, key.1, row.fingerprint, a.record.identity, a.record.location,
                                a.revision, a.commitMs);
      }
    } else {
      assert RowFrom(row, key.1, candidates, |candidates|);
      var i :| 0 <= i < |candidates| && candidates[i].file.location == key.1 && candidates[i].file.fingerprint == row.fingerprint;
      var j :| 0 <= j < |candidates| && a.record == candidates[j].record
               && a.record.location == candidates[j].file.location
               && world.holds(candidates[j].file.location, candidates[j].file.fingerprint) == Some((a.record.identity, a.revision));
      assert i == j;
      ObservationSettles(db.store, world, key.1, row.fingerprint, a.commitMs);
    }
  }

  function AdmitHash(observations: map<(SourceId, LogicalLocation), ObservationRow>, key: (SourceId, LogicalLocation))
    : map<(SourceId, LogicalLocation), ObservationRow>
    requires key in observations
  {
    observations[key := observations[key].(hashAdmitted := true)]
  }

  lemma CommitOneIs(t: Commits, observed: Db, scan: SourceScan, registration: SourceRegistration, a: Admission)
    requires t.error.None? && ObservedNow(observed, scan, a.record.location) && IsCurrentScan(observed.tables, scan)
    requires ObservePresentFromSource(t.db, scan, registration, a.record.identity, a.record.location, a.revision, a.commitMs)
             == (observed, Ok(()))
    ensures CommitOne(t, scan, registration, a) == Commits(
              observed.(tables := observed.tables.(observations :=
                AdmitHash(observed.tables.observations, (scan.sourceId, a.record.location)))), None)
  {
  }

  /** Admitting the committed hash: every row of this generation is trusted again. */
  lemma AdmittingKeepsTrust(db: Db, observed: Db, scan: SourceScan, config: SourceConfig, world: World,
                            candidates: seq<Candidate>, a: Admission)
    requires AllTruthful(config, world, candidates) && !DuplicateIdentity(candidates)
    requires Sweeping(db, scan, config.registration, candidates, |candidates|) && TrustedNow(db, scan, world)
    requires AdmissionFrom(a, world, candidates) && ObservedNow(db, scan, a.record.location)
    requires observed.store == ObservePresent(db.store, a.record.identity, a.record.location, a.revision, a.commitMs)
    requires observed.tables.observations == AdmitHash(db.tables.observations, (scan.sourceId, a.record.location))
    ensures RowsFrom(observed, scan, candidates, |candidates|) && TrustedNow(observed, scan, world)
    ensures AllObserved(observed, scan, candidates, |candidates|)
  {
    forall key | key in observed.tables.observations && key.0 == scan.sourceId
                 && observed.tables.observations[key].lastSeenGeneration == scan.generation
      ensures RowTrusted(observed, world, key)
      ensures RowFrom(observed.tables.observations[key], key.1, candidates, |candidates|)
    {
      CommittedRowIsTrusted(db, scan, config, world, candidates, a, key);
      assert RowFrom(db.tables.observations[key], key.1, candidates, |candidates|);
    }
  }

  lemma AllSeenAfterObservation(db: Db, observed: Db, scan: SourceScan, candidates: seq<Candidate>, a: Admission)
    requires LedgerInv(db.store) && AllSeen(db, scan, candidates, |candidates|) && SeenBy(observed, scan, a.record.identity)
    requires observed.store == ObservePresent(db.store, a.record.identity, a.record.location, a.revision, a.commitMs)
    requires forall r :: r in db.tables.owners && db.tables.owners[r].lastSeenGeneration == scan.generation ==>
               r in observed.tables.owners && observed.tables.owners[r].lastSeenGeneration == scan.generation
    ensures AllSeen(observed, scan, candidates, |candidates|)
  {
    forall i | 0 <= i < |candidates| ensures SeenBy(observed, scan, candidates[i].record.identity) {
      assert SeenBy(db, scan, candidates[i].record.identity);
      SeenSurvivesObservation(db, observed, scan, a.record.identity, a.record.location, a.revision, a.commitMs,
                              candidates[i].record.identity);
    }
  }

  lemma AdmissionIsTruthful(config: SourceConfig, world: World, candidates: seq<Candidate>, a: Admission)
    requires AllTruthful(config, world, candidates) && AdmissionFrom(a, world, candidates)
    ensures a.record.identity.producerId == config.registration.producerId
  {
    var j :| 0 <= j < |candidates| && a.record == candidates[j].record;
    assert CandidateTruthful(config, world, candidates[j]);
  }

  lemma CommittingKeepsTrust(t: Commits, scan: SourceScan, config: SourceConfig, world: World, candidates: seq<Candidate>,
                             a: Admission)
    requires AllTruthful(config, world, candidates) && !DuplicateIdentity(candidates) && t.error.None?
    requires Sweeping(t.db, scan, config.registration, candidates, |candidates|) && TrustedNow(t.db, scan, world)
    requires AdmissionFrom(a, world, candidates) && ObservedNow(t.db, scan, a.record.location)
    ensures var u := CommitOne(t, scan, config.registration, a);
            && u.error.None?
            && Sweeping(u.db, scan, config.registration, candidates, |candidates|) && TrustedNow(u.db, scan, world)
            && u.db.tables.observations == AdmitHash(t.db.tables.observations, (scan.sourceId, a.record.location))
  {
    AdmissionIsTruthful(config, world, candidates, a);
    ObservedIsOwned(t.db, scan, config.registration, a.record.identity, a.record.location, a.revision, a.commitMs);
    var observed := ObservePresentFromSource(t.db, scan, config.registration, a.record.identity, a.record.location,
                                             a.revision, a.commitMs).0;
    AllSeenAfterObservation(t.db, observed, scan, candidates, a);
    CommitOneIs(t, observed, scan, config.registration, a);
    var u := CommitOne(t, scan, config.registration, a).db;
    AdmittingKeepsTrust(t.db, u, scan, config, world, candidates, a);
    SeenStays(observed, u, scan, candidates, |candidates|);
    SoundStays(observed, u, config.registration, scan, a.record.location);
  }

  lemma SoundStays(observed: Db, u: Db, registration: SourceRegistration, scan: SourceScan, l: LogicalLocation)
    requires Sound(observed, registration) && ObservedNow(observed, scan, l)
    requires u == observed.(tables := observed.tables.(observations :=
                    AdmitHash(observed.tables.observations, (scan.sourceId, l))))
    ensures Sound(u, registration)
  {
  }

  predicate CommitFollows(u: Commits, v: Commits, scan: SourceScan, registration: SourceRegistration, a: Admission) {
    v == CommitOne(u, scan, registration, a)
  }

  /** The states of the commit loop, one per admission. */
  ghost predicate CommitRun(us: seq<Commits>, db: Db, scan: SourceScan, registration: SourceRegistration,
                            accepted: seq<Admission>) {
    && |us| == |accepted| + 1 && us[0] == Commits(db, None)
    && forall i :: 0 <= i < |accepted| ==> CommitFollows(us[i], us[i + 1], scan, registration, accepted[i])
  }

  lemma CommitsUpTo(db: Db, scan: SourceScan, registration: SourceRegistration, accepted: seq<Admission>, n: nat)
    returns (us: seq<Commits>)
    requires n <= |accepted|
    ensures CommitRun(us, db, scan, registration, accepted)
    ensures CommitUpTo(db, scan, registration, accepted, n) == us[n]
  {
    us := seq(|accepted| + 1, i requires 0 <= i <= |accepted| => CommitUpTo(db, scan, registration, accepted, i));
  }

  lemma CommitsOf(db: Db, scan: SourceScan, registration: SourceRegistration, accepted: seq<Admission>)
    returns (us: seq<Commits>)
    ensures CommitRun(us, db, scan, registration, accepted)
    ensures CommitUpTo(db, scan, registration, accepted, |accepted|) == us[|accepted|]
  {
    us := CommitsUpTo(db, scan, registration, accepted, |accepted|);
  }

  /** Between two commits: no error yet, everything seen, and every fingerprint of this generation trustworthy. */
  predicate Committing(u: Commits, scan: SourceScan, registration: SourceRegistration, world: World,
                       candidates: seq<Candidate>) {
    u.error.None? && Sweeping(u.db, scan, registration, candidates, |candidates|) && TrustedNow(u.db, scan, world)
  }

  /** The commits all succeed, and leave every fingerprint of this generation trustworthy. */
  lemma CommitsKeepTrust(us: seq<Commits>, db: Db, scan: SourceScan, config: SourceConfig, world: World,
                         candidates: seq<Candidate>, accepted: seq<Admission>)
    requires CommitRun(us, db, scan, config.registration, accepted)
    requires AllTruthful(config, world, candidates) && !DuplicateIdentity(candidates)
    requires Committing(us[0], scan, config.registration, world, candidates)
    requires AdmissionsFrom(accepted, world, candidates)
    ensures Committing(us[|accepted|], scan, config.registration, world, candidates)
  {
    for n := 0 to |accepted|
      invariant Committing(us[n], scan, config.registration, world, candidates)
    {
      CommitStep(us, db, scan, config, world, candidates, accepted, n);
    }
  }

  lemma CommitStep(us: seq<Commits>, db: Db, scan: SourceScan, config: SourceConfig, world: World,
                   candidates: seq<Candidate>, accepted: seq<Admission>, n: nat)
    requires CommitRun(us, db, scan, config.registration, accepted) && n < |accepted|
    requires AllTruthful(config, world, candidates) && !DuplicateIdentity(candidates)
    requires Committing(us[n], scan, config.registration, world, candidates)
    requires AdmissionsFrom(accepted, world, candidates)
    ensures Committing(us[n + 1], scan, config.registration, world, candidates)
    ensures ObservedNow(us[n].db, scan, accepted[n].record.location)
    ensures us[n + 1].db.tables.observations
            == AdmitHash(us[n].db.tables.observations, (scan.sourceId, accepted[n].record.location))
  {
    assert CommitFollows(us[n], us[n + 1], scan, config.registration, accepted[n]);
    assert AdmissionFrom(accepted[n], world, candidates);
    AdmissionIsObserved(us[n].db, scan, world, candidates, accepted[n]);
    CommittingKeepsTrust(us[n], scan, config, world, candidates, accepted[n]);
  }

  lemma AdmissionIsObserved(db: Db, scan: SourceScan, world: World, candidates: seq<Candidate>, a: Admission)
    requires AdmissionFrom(a, world, candidates) && AllObserved(db, scan, candidates, |candidates|)
    ensures ObservedNow(db, scan, a.record.location)
  {
    var j :| 0 <= j < |candidates| && a.record == candidates[j].record
             && a.record.location == candidates[j].file.location;
  }

  lemma CommitStoreIs(t: Commits, scan: SourceScan, registration: SourceRegistration, a: Admission)
    ensures var u := CommitOne(t, scan, registration, a);
            u.db.store == t.db.store
            || u.db.store == ObservePresent(t.db.store, a.record.identity, a.record.location, a.revision, a.commitMs)
  {
  }

  lemma CommitKeepsLedgerInv(t: Commits, scan: SourceScan, registration: SourceRegistration, a: Admission)
    requires LedgerInv(t.db.store)
    ensures LedgerInv(CommitOne(t, scan, registration, a).db.store)
  {
    CommitStoreIs(t, scan, registration, a);
    ObservationTakesEffect(t.db.store, a.record.identity, a.record.location, a.revision, a.commitMs);
  }

  // ---------- Completion ----------

  lemma {:induction false} ProcessingKeepsRevisions(db: Db, scan: SourceScan, grace: TombstoneGrace, nowMs: Millis, n: nat)
    requires n <= |db.store.records|
    ensures ProcessUpTo(db, scan, grace, nowMs, n).store.revisions == db.store.revisions
    decreases n
  {
    if n > 0 {
      ProcessingKeepsRevisions(db, scan, grace, nowMs, n - 1);
      ProcessUpToNext(db, scan, grace, nowMs, n);
    }
  }

  /** What a completion leaves alone. */
  lemma CompletionFrame(db: Db, scan: SourceScan, grace: Option<TombstoneGrace>, nowMs: Millis)
    requires LedgerInv(db.store) && IsCurrentScan(db.tables, scan)
    ensures var (t, closed) := CompleteSourceScan(db, scan, grace, nowMs);
            && closed.Ok? && LedgerInv(t.store)
            && t.store.revisions == db.store.revisions && |t.store.records| == |db.store.records|
            && t.tables.owners == db.tables.owners
            && t.tables.sources == db.tables.sources[scan.sourceId :=
                 db.tables.sources[scan.sourceId].(lastCompleteGeneration := scan.generation)]
            && (forall q :: 0 <= q < |db.store.records| ==>
                  t.store.records[q].identity == db.store.records[q].identity)
            && (forall key :: key in t.tables.observations <==>
                  key in db.tables.observations
                  && !(key.0 == scan.sourceId && db.tables.observations[key].lastSeenGeneration < scan.generation))
            && (forall key :: key in t.tables.observations ==> t.tables.observations[key] == db.tables.observations[key])
  {
    if grace.Some? {
      ProcessUpToKeepsLedger(db, scan, grace.value, nowMs, |db.store.records|);
      ProcessUpToFrame(db, scan, grace.value, nowMs, |db.store.records|);
      ProcessingKeepsRevisions(db, scan, grace.value, nowMs, |db.store.records|);
    }
  }

  /** A record marked seen in this generation is not touched by its completion. */
  lemma SeenRecordsStand(db: Db, scan: SourceScan, grace: Option<TombstoneGrace>, nowMs: Millis, r: RecordId)
    requires IsCurrentScan(db.tables, scan) && r < |db.store.records|
    requires r in db.tables.owners && db.tables.owners[r].lastSeenGeneration == scan.generation
    ensures var t := CompleteSourceScan(db, scan, grace, nowMs).0;
            r < |t.store.records| && t.store.records[r] == db.store.records[r]
  {
    if grace.Some? {
      ProcessUpToAt(db, scan, grace.value, nowMs, |db.store.records|, r);
    }
  }

  lemma CompletionKeepsRow(db: Db, scan: SourceScan, config: SourceConfig, world: World, candidates: seq<Candidate>,
                           grace: Option<TombstoneGrace>, nowMs: Millis, key: (SourceId, LogicalLocation))
    requires AllTruthful(config, world, candidates)
    requires Sweeping(db, scan, config.registration, candidates, |candidates|) && TrustedNow(db, scan, world)
    requires key in db.tables.observations && key.0 == scan.sourceId
    requires db.tables.observations[key].lastSeenGeneration == scan.generation
    ensures key in CompleteSourceScan(db, scan, grace, nowMs).0.tables.observations
    ensures RowTrusted(CompleteSourceScan(db, scan, grace, nowMs).0, world, key)
  {
    var row := db.tables.observations[key];
    CompletionFrame(db, scan, grace, nowMs);
    var t := CompleteSourceScan(db, scan, grace, nowMs).0;
    assert RowTrusted(db, world, key);
    if Vouched(db, world, key) {
      assert RowFrom(row, key.1, candidates, |candidates|);
      var i :| 0 <= i < |candidates| && candidates[i].file.location == key.1 && candidates[i].file.fingerprint == row.fingerprint;
      assert CandidateTruthful(config, world, candidates[i]);
      assert SeenBy(db, scan, candidates[i].record.identity);
      var r := FindRecord(db.store.records, candidates[i].record.identity).value;
      SeenRecordsStand(db, scan, grace, nowMs, r);
      FindKnown(t.store, r);
    }
  }

  lemma CompletionIsHonest(db: Db, scan: SourceScan, config: SourceConfig, world: World, candidates: seq<Candidate>,
                           nowMs: Millis)
    requires AllTruthful(config, world, candidates)
    requires Sweeping(db, scan, config.registration, candidates, |candidates|) && TrustedNow(db, scan, world)
    ensures var (t, closed) := CompleteSourceScan(db, scan, config.grace, nowMs);
            closed.Ok? && Honest(t, config.registration, world)
  {
    var t := CompleteSourceScan(db, scan, config.grace, nowMs).0;
    CompletionFrame(db, scan, config.grace, nowMs);
    forall key | key in t.tables.observations && key.0 == scan.sourceId
      ensures RowTrusted(t, world, key)
    {
      CompletionKeepsRow(db, scan, config, world, candidates, config.grace, nowMs, key);
    }
  }

  // ---------- Every transaction of the source's own ----------

  /** Work on the queue, or a transaction of this source under this registration. */
  predicate Own(op: DbOp, registration: SourceRegistration) {
    match op
    case OnStore(_) => true
    case BeginScan(other) => other == registration
    case ObserveFingerprint(scan, _, _) => scan.sourceId == registration.sourceId
    case MarkHashed(scan, _) => scan.sourceId == registration.sourceId
    case MarkSeen(scan, _, _) => scan.sourceId == registration.sourceId
    case CompleteScan(scan, _, _) => scan.sourceId == registration.sourceId
    case AdvanceScrub(_, _, _) => true
    case ObserveScrubbed(_, _, _, _, _) => true
  }

  lemma StoreChangeKeepsSound(db: Db, s: Store, registration: SourceRegistration)
    requires Sound(db, registration) && LedgerInv(s) && |db.store.records| <= |s.records|
    ensures Sound(db.(store := s), registration)
  {
  }

  /** Whatever it was told, truth or not. */
  lemma OwnOpKeepsSound(db: Db, op: DbOp, registration: SourceRegistration)
    requires Sound(db, registration) && Own(op, registration)
    ensures Sound(ApplyDb(db, op), registration)
  {
    match op
    case OnStore(storeOp) =>
      ApplyKeepsLedger(db.store, storeOp);
      RecordsOnlyGrow(db.store, storeOp);
      StoreChangeKeepsSound(db, Apply(db.store, storeOp), registration);
    case CompleteScan(scan, grace, nowMs) =>
      if IsCurrentScan(db.tables, scan) {
        CompletionFrame(db, scan, grace, nowMs);
      }
    case ObserveScrubbed(_, identity, location, revision, nowMs) =>
      ObservationTakesEffect(db.store, identity, location, revision, nowMs);
      StoreChangeKeepsSound(db, ObservePresent(db.store, identity, location, revision, nowMs), registration);
    case _ =>
  }

  // ---------- Whole sweeps ----------

  function CandidatesOf(pass: ScanPass): seq<Candidate> {
    if pass.listing.Some? then LookUpTo(pass.listing.value, |pass.listing.value|).candidates else []
  }

  /** The tally the observing loop starts from. */
  function FirstTally(db: Db, registration: SourceRegistration, pass: ScanPass): Tally {
    var changed := if pass.listing.Some? then LookUpTo(pass.listing.value, |pass.listing.value|).changed else 0;
    Tally(BeginSourceScan(db, registration).0, NO_REPORT.(changedDuringScan := changed), [], None)
  }

  lemma CandidatesAreTruthful(config: SourceConfig, world: World, pass: ScanPass)
    requires PassTruthful(config, world, pass)
    ensures AllTruthful(config, world, CandidatesOf(pass))
  {
    if pass.listing.Some? {
      LookedUpAreTruthful(config, world, pass.listing.value, |pass.listing.value|);
    }
  }

  /** A sweep that reaches its commits is its observing loop, with healthy roots and no duplicates around it. */
  lemma PreparedIsObserved(db: Db, config: SourceConfig, pass: ScanPass, world: World)
    requires Honest(db, config.registration, world) && Prepare(db, config, pass).error.None?
    ensures var candidates := CandidatesOf(pass);
            && pass.listing.Some? && !DuplicateIdentity(candidates)
            && LookUpTo(pass.listing.value, |pass.listing.value|).error.None?
            && Prepare(db, config, pass)
               == ObserveUpTo(FirstTally(db, config.registration, pass), NextScan(db, config.registration), config,
                              candidates, |candidates|)
  {
    BeginningSweeps(db, config.registration, world, []);
  }

  lemma FirstTallyIsHonest(db: Db, config: SourceConfig, pass: ScanPass, world: World, candidates: seq<Candidate>)
    requires Honest(db, config.registration, world)
    ensures var t := FirstTally(db, config.registration, pass);
            && t.error.None? && t.accepted == [] && t.report.bytesHashed == 0
            && SweptHonestly(t, db.store, NextScan(db, config.registration), config.registration, world, candidates, 0)
  {
    BeginningSweeps(db, config.registration, world, candidates);
  }

  lemma SweptSoFar(db: Db, config: SourceConfig, pass: ScanPass, world: World)
    requires Honest(db, config.registration, world) && PassTruthful(config, world, pass)
    ensures var candidates := CandidatesOf(pass);
            var u := ObserveUpTo(FirstTally(db, config.registration, pass), NextScan(db, config.registration), config,
                                 candidates, |candidates|);
            && SweptHonestly(u, db.store, NextScan(db, config.registration), config.registration, world, candidates,
                             |candidates|)
            && AdmissionsFrom(u.accepted, world, candidates)
  {
    var candidates, t := CandidatesOf(pass), FirstTally(db, config.registration, pass);
    var scan := NextScan(db, config.registration);
    CandidatesAreTruthful(config, world, pass);
    FirstTallyIsHonest(db, config, pass, world, candidates);
    var us := TalliesOf(t, scan, config, candidates);
    SweepKeepsHonesty(us, t, db.store, scan, config, world, candidates, |candidates|);
    AcceptedAreAdmissible(us, t, scan, config, world, candidates);
  }

  /** However a sweep fails before its commits, honesty stands. */
  lemma PreparingKeepsHonesty(db: Db, config: SourceConfig, pass: ScanPass, world: World)
    requires Honest(db, config.registration, world) && PassTruthful(config, world, pass)
    ensures Honest(Prepare(db, config, pass).db, config.registration, world)
    ensures Prepare(db, config, pass).db.store == db.store
  {
    SweptSoFar(db, config, pass, world);
    BeginningSweeps(db, config.registration, world, []);
  }

  /** A truthful sweep commits without error once it has got that far. */
  lemma CommittedHonestly(db: Db, config: SourceConfig, pass: ScanPass, world: World)
    requires Honest(db, config.registration, world) && PassTruthful(config, world, pass)
    requires Prepare(db, config, pass).error.None?
    ensures var scan, prepared := NextScan(db, config.registration), Prepare(db, config, pass);
            var committed := CommitUpTo(prepared.db, scan, config.registration, prepared.accepted, |prepared.accepted|);
            && committed.error.None?
            && AllTruthful(config, world, CandidatesOf(pass)) && !DuplicateIdentity(CandidatesOf(pass))
            && Sweeping(committed.db, scan, config.registration, CandidatesOf(pass), |CandidatesOf(pass)|)
            && TrustedNow(committed.db, scan, world)
  {
    var scan, prepared := NextScan(db, config.registration), Prepare(db, config, pass);
    CandidatesAreTruthful(config, world, pass);
    PreparedIsObserved(db, config, pass, world);
    SweptSoFar(db, config, pass, world);
    var us := CommitsOf(prepared.db, scan, config.registration, prepared.accepted);
    CommitsKeepTrust(us, prepared.db, scan, config, world, CandidatesOf(pass), prepared.accepted);
  }

  /**
   * Whatever the tree did before, every sweep that runs to its end or fails leaves the source honest; and a sweep
   * only fails before its first commit.
   */
  lemma ScanKeepsHonesty(db: Db, config: SourceConfig, pass: ScanPass, world: World)
    requires Honest(db, config.registration, world) && PassTruthful(config, world, pass)
    ensures Honest(ScanOnce(db, config, pass).db, config.registration, world)
    ensures ScanOnce(db, config, pass).error == Prepare(db, config, pass).error
  {
    var scan, prepared := NextScan(db, config.registration), Prepare(db, config, pass);
    if prepared.error.Some? {
      PreparingKeepsHonesty(db, config, pass, world);
    } else {
      CommittedHonestly(db, config, pass, world);
      var committed := CommitUpTo(prepared.db, scan, config.registration, prepared.accepted, |prepared.accepted|);
      CompletionIsHonest(committed.db, scan, config, world, CandidatesOf(pass), pass.completeMs);
    }
  }
}
