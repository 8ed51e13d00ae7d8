/**
 * What a scrub visit does to the promise behind skipping a hash. It may move a record without touching the observation
 * that vouches for it; it may also bring a record back that every sweep passes over.
 */
module Visits {
  import opened Wrappers
  import opened Domain
  import opened Tables
  import opened Ledger
  import opened Sources
  import opened Files
  import opened Scan
  import opened Honesty
  import opened Crashes
  import opened Converge

  /** A transaction of this source's scrub. */
  predicate ScrubWork(op: DbOp, id: SourceId) {
    match op
    case AdvanceScrub(sourceId, _, _) => sourceId == id
    case ObserveScrubbed(sourceId, _, _, _, _) => sourceId == id
    case _ => false
  }

  /** Every watched, admitted fingerprint of the visited record stands for just what was visited. */
  predicate VisitAgrees(db: Db, id: SourceId, world: World, identity: RecordIdentity, location: LogicalLocation,
                        revision: CanonicalRevision) {
    forall key :: key in db.tables.observations && key.0 == id && Vouched(db, world, key) ==>
      var known := world.holds(key.1, db.tables.observations[key].fingerprint);
      known.Some? && known.value.0 == identity ==> key.1 == location && known.value.1 == revision
  }

  lemma VisitedRow(db: Db, world: World, a: Admission, key: (SourceId, LogicalLocation))
    requires LedgerInv(db.store) && key in db.tables.observations && RowTrusted(db, world, key)
    requires Vouched(db, world, key)
    ensures var t := ObservePresent(db.store, a.record.identity, a.record.location, a.revision, a.commitMs);
            var row := db.tables.observations[key];
            var known := world.holds(key.1, row.fingerprint);
            && known.Some?
            && (Settled(t, world, key.1, row.fingerprint) <==>
                  (known.value.0 == a.record.identity ==> key.1 == a.record.location && known.value.1 == a.revision))
  {
    ObservationMatters(db.store, world, key.1, db.tables.observations[key].fingerprint, a);
  }

  /**
   * A visit that observes keeps an honest source honest if and only if no admitted fingerprint of the same record
   * stands for another place or revision.
   */
  lemma VisitIsHonestIff(db: Db, registration: SourceRegistration, world: World, identity: RecordIdentity,
                         location: LogicalLocation, revision: CanonicalRevision, nowMs: Millis)
    requires Honest(db, registration, world) && ScrubOwns(db, registration.sourceId, identity)
    ensures var op := ObserveScrubbed(registration.sourceId, identity, location, revision, nowMs);
            Honest(ApplyDb(db, op), registration, world)
            <==> VisitAgrees(db, registration.sourceId, world, identity, location, revision)
  {
    var op := ObserveScrubbed(registration.sourceId, identity, location, revision, nowMs);
    var t, id := ApplyDb(db, op), registration.sourceId;
    var a := Admission(ParsedRecord(identity, location), revision, nowMs);
    OwnOpKeepsSound(db, op, registration);
    forall key | key in db.tables.observations && key.0 == id && Vouched(db, world, key)
      ensures var known := world.holds(key.1, db.tables.observations[key].fingerprint);
              && known.Some?
              && (RowTrusted(t, world, key) <==>
                    (known.value.0 == identity ==> key.1 == location && known.value.1 == revision))
    {
      assert RowTrusted(db, world, key);
      VisitedRow(db, world, a, key);
    }
  }

  lemma ScrubTouchesNoObservation(db: Db, op: DbOp)
    requires op.AdvanceScrub? || op.ObserveScrubbed?
    ensures var t := ApplyDb(db, op);
            && t.tables.observations == db.tables.observations && t.tables.owners == db.tables.owners
            && t.tables.missing == db.tables.missing && t.tables.sources == db.tables.sources
            && (op.AdvanceScrub? || !ScrubOwns(db, op.sourceId, op.identity) ==> t.store == db.store)
  {
  }

  /** A move of the cursor, or a visit to a record the source does not own. */
  lemma SilentVisitKeepsHonesty(db: Db, registration: SourceRegistration, world: World, op: DbOp)
    requires Honest(db, registration, world)
    requires op.AdvanceScrub? || (op.ObserveScrubbed? && !ScrubOwns(db, op.sourceId, op.identity))
    ensures Honest(ApplyDb(db, op), registration, world)
  {
    ScrubTouchesNoObservation(db, op);
    OwnOpKeepsSound(db, op, registration);
    forall key | key in db.tables.observations && key.0 == registration.sourceId
      ensures RowTrusted(ApplyDb(db, op), world, key)
    {
      assert RowTrusted(db, world, key);
    }
  }

  // ---------- Visits to the files of a tree ----------

  /** This visit read that file, as it is. */
  predicate VisitOf(world: World, op: DbOp, f: FileCandidate) {
    && op.ObserveScrubbed? && IsRecord(world, f) && op.location == f.location
    && world.holds(f.location, f.fingerprint) == Some((op.identity, op.revision))
  }

  predicate VisitsTree(world: World, tree: set<FileCandidate>, op: DbOp) {
    op.ObserveScrubbed? ==> exists f :: f in tree && VisitOf(world, op, f)
  }

  /** Each watched fingerprint belongs to a record that no other file of the tree claims. */
  ghost predicate Apart(world: World, tree: set<FileCandidate>) {
    forall l, p, g :: world.watched(l, p) && g in tree && IsRecord(world, g) ==>
      world.holds(l, p).Some?
      && (world.holds(l, p).value.0 == IdentityOf(world, g) ==> g == FileCandidate(l, p))
  }

  /** Visiting the files of a tree hurts nothing watched, as long as no two of them claim one watched record. */
  lemma TreeVisitsKeepHonesty(db: Db, registration: SourceRegistration, world: World, tree: set<FileCandidate>, op: DbOp)
    requires Honest(db, registration, world) && Apart(world, tree)
    requires ScrubWork(op, registration.sourceId) && VisitsTree(world, tree, op)
    ensures Honest(ApplyDb(db, op), registration, world)
  {
    if op.ObserveScrubbed? && ScrubOwns(db, op.sourceId, op.identity) {
      var f :| f in tree && VisitOf(world, op, f);
      forall key | key in db.tables.observations && key.0 == op.sourceId && Vouched(db, world, key)
        ensures var known := world.holds(key.1, db.tables.observations[key].fingerprint);
                known.Some? && known.value.0 == op.identity ==> key.1 == op.location && known.value.1 == op.revision
      {
        assert world.watched(key.1, db.tables.observations[key].fingerprint) && f in tree && IsRecord(world, f);
      }
      VisitIsHonestIff(db, registration, world, op.identity, op.location, op.revision, op.nowMs);
    } else {
      SilentVisitKeepsHonesty(db, registration, world, op);
    }
  }

  /** A visit to a file whose record the source owns makes it active as read, however it stood before. */
  lemma VisitMends(db: Db, world: World, op: DbOp, f: FileCandidate)
    requires LedgerInv(db.store) && VisitOf(world, op, f) && ScrubOwns(db, op.sourceId, op.identity)
    ensures ActiveAsRead(ApplyDb(db, op).store, world, f)
  {
    ObservationSettles(db.store, world, f.location, f.fingerprint, op.nowMs);
  }
}
