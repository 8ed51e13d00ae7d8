/** Replaying every event and rebuilding from a snapshot leave a consumer with the same records. */
module ReplayModes {
  import opened Wrappers
  import opened Domain
  import opened Tables
  import opened Ledger
  import opened Queue
  import opened QueueLaws
  import opened Owed

  /** The payload says of its record what the records table says now. */
  predicate IsCurrent(s: Store, p: DeliveryPayload, k: SubscriptionId, r: RecordId)
    requires r < |s.records|
  {
    var row := s.records[r];
    && p.subscriptionId == k && p.recordId == r
    && p.recordVersion == row.recordVersion
    && (p.kind == RecordTombstoned <==> row.state == Tombstoned)
    && p.revisionId == row.currentRevisionId
    && p.location == Some(row.location)
  }

  predicate HasCurrentRow(s: Store, k: SubscriptionId, r: RecordId)
    requires r < |s.records|
  {
    exists i :: 0 <= i < |s.deliveries| && IsCurrent(s, s.deliveries[i].payload, k, r)
  }

  predicate NamesRecord(d: Delivery, k: SubscriptionId, r: RecordId) {
    Mine(d, k) && d.payload.recordId == r
  }

  predicate NoRowFor(s: Store, k: SubscriptionId, r: RecordId) {
    forall i :: 0 <= i < |s.deliveries| ==> !NamesRecord(s.deliveries[i], k, r)
  }

  /** Of every record the subscription has the current row, or no row at all because the record was gone. */
  predicate Covered(s: Store, k: SubscriptionId, r: RecordId)
    requires r < |s.records|
  {
    s.records[r].recordVersion > 0 ==>
      HasCurrentRow(s, k, r) || (s.records[r].state == Tombstoned && NoRowFor(s, k, r))
  }

  predicate Covers(s: Store, k: SubscriptionId) {
    k < |s.subscriptions| && forall r :: 0 <= r < |s.records| ==> Covered(s, k, r)
  }

  // ---------- Every transaction keeps the coverage ----------

  lemma TransitionKeepsCoverage(s: Store, r: RecordId, kind: EventKind, revisionId: Option<RevisionId>,
                                location: LogicalLocation, state: RecordState, nowMs: Millis, k: SubscriptionId)
    requires r < |s.records| && Covers(s, k)
    requires state == if kind == RecordTombstoned then Tombstoned else Active
    ensures Covers(Transition(s, r, kind, revisionId, location, state, nowMs), k)
  {
    var t := Transition(s, r, kind, revisionId, location, state, nowMs);
    forall q | 0 <= q < |t.records| ensures Covered(t, k, q) {
      if q == r {
        assert IsCurrent(t, t.deliveries[|s.deliveries| + k].payload, k, r);
      } else {
        OtherRecordsStayCovered(s, t, k, q, r);
      }
    }
  }

  lemma OtherRecordsStayCovered(s: Store, t: Store, k: SubscriptionId, q: RecordId, r: RecordId)
    requires q < |s.records| && q < |t.records| && q != r && t.records[q] == s.records[q]
    requires s.deliveries <= t.deliveries
    requires forall i :: |s.deliveries| <= i < |t.deliveries| ==> t.deliveries[i].payload.recordId == r
    requires Covered(s, k, q)
    ensures Covered(t, k, q)
  {
    if HasCurrentRow(s, k, q) {
      var i :| 0 <= i < |s.deliveries| && IsCurrent(s, s.deliveries[i].payload, k, q);
      assert IsCurrent(t, t.deliveries[i].payload, k, q);
    }
  }

  /** Same payloads for this subscription, same records: same coverage. */
  lemma SameRowsKeepCoverage(s: Store, t: Store, k: SubscriptionId)
    requires Covers(s, k) && s.records <= t.records && |s.subscriptions| <= |t.subscriptions|
    requires forall r :: |s.records| <= r < |t.records| ==> t.records[r].recordVersion == 0
    requires |s.deliveries| <= |t.deliveries|
    requires forall i :: 0 <= i < |s.deliveries| ==> t.deliveries[i].payload == s.deliveries[i].payload
    requires forall i :: |s.deliveries| <= i < |t.deliveries| ==> !Mine(t.deliveries[i], k)
    ensures Covers(t, k)
  {
    forall r | 0 <= r < |t.records| ensures Covered(t, k, r) {
      if r < |s.records| {
        assert Covered(s, k, r);
        if HasCurrentRow(s, k, r) {
          var i :| 0 <= i < |s.deliveries| && IsCurrent(s, s.deliveries[i].payload, k, r);
          assert IsCurrent(t, t.deliveries[i].payload, k, r);
        } else if s.records[r].recordVersion > 0 {
          forall i | 0 <= i < |t.deliveries| ensures !NamesRecord(t.deliveries[i], k, r) {
            assert i < |s.deliveries| ==> !NamesRecord(s.deliveries[i], k, r);
          }
        }
      }
    }
  }

  lemma CommitKeepsCoverage(s: Store, r: RecordId, location: LogicalLocation, revision: CanonicalRevision,
                            nowMs: Millis, k: SubscriptionId)
    requires r < |s.records| && Covers(s, k)
    ensures Covers(CommitObserved(s, r, location, revision, nowMs), k)
  {
    var (mid, id) := EnsureRevision(s, r, revision);
    SameRowsKeepCoverage(s, mid, k);
    if RevisionOf(s.revisions, s.records[r].currentRevisionId) != Some(revision) {
      TransitionKeepsCoverage(mid, r, RevisionCommitted, Some(id), location, Active, nowMs, k);
    } else if s.records[r].location != location {
      TransitionKeepsCoverage(mid, r, LocationChanged, mid.records[r].currentRevisionId, location, Active, nowMs, k);
    }
  }

  lemma ObserveKeepsCoverage(s: Store, identity: RecordIdentity, location: LogicalLocation,
                             revision: CanonicalRevision, nowMs: Millis, k: SubscriptionId)
    requires Covers(s, k)
    ensures Covers(ObservePresent(s, identity, location, revision, nowMs), k)
  {
    var (admitted, r) := AdmitRecord(s, identity, location);
    SameRowsKeepCoverage(s, admitted, k);
    var restored := RestoreIfTombstoned(admitted, r, location, nowMs);
    if admitted.records[r].state == Tombstoned {
      TransitionKeepsCoverage(admitted, r, RecordRestored, admitted.records[r].currentRevisionId, location, Active,
                              nowMs, k);
    }
    CommitKeepsCoverage(restored, r, location, revision, nowMs, k);
  }

  lemma ApplyKeepsCoverage(s: Store, op: Op, k: SubscriptionId)
    requires Covers(s, k)
    ensures Covers(Apply(s, op), k)
  {
    match op
    case Observe(identity, location, revision, nowMs) =>
      ObserveKeepsCoverage(s, identity, location, revision, nowMs, k);
    case Tombstone(identity, nowMs) =>
      var found := FindRecord(s.records, identity);
      if found.Some? && s.records[found.value].state == Active {
        var r := found.value;
        TransitionKeepsCoverage(s, r, RecordTombstoned, s.records[r].currentRevisionId, s.records[r].location,
                                Tombstoned, nowMs, k);
      }
    case Lease(l, nowMs, durationMs) =>
      LeaseNextCases(s, l, nowMs, durationMs);
      SameRowsKeepCoverage(s, Apply(s, op), k);
    case _ => SameRowsKeepCoverage(s, Apply(s, op), k);
  }

  lemma {:induction false} RunKeepsCoverage(s: Store, ops: seq<Op>, k: SubscriptionId)
    requires Covers(s, k)
    ensures Covers(Run(s, ops), k)
    decreases |ops|
  {
    if ops != [] {
      ApplyKeepsCoverage(s, ops[0], k);
      RunKeepsCoverage(Apply(s, ops[0]), ops[1..], k);
    }
  }

  // ---------- Both modes start covered ----------

  lemma ReplayFromZeroCovers(s: Store, config: SubscriptionConfig, nowMs: Millis, r: RecordId)
    requires StoreInv(s) && Created(s, config, ReplayEvents, nowMs) && config.replayAfterSequence == 0
    requires r < |s.records|
    ensures HasCurrentRow(Apply(s, Create(config, ReplayEvents, nowMs)), |s.subscriptions|, r)
  {
    assert RecordOk(s, r);
    var i := ReplayWitness(s.events, r);
    LedgerIsEnqueueable(s, 0);
    NewRowsAreAt(s, config, ReplayEvents, nowMs, i);
    var t := Apply(s, Create(config, ReplayEvents, nowMs));
    assert IsCurrent(t, t.deliveries[|s.deliveries| + i].payload, |s.subscriptions|, r);
  }

  lemma SnapshotCovers(s: Store, config: SubscriptionConfig, nowMs: Millis, r: RecordId)
    requires StoreInv(s) && Created(s, config, RebuildCurrent, nowMs)
    requires r < |s.records| && s.records[r].state == Active
    ensures HasCurrentRow(Apply(s, Create(config, RebuildCurrent, nowMs)), |s.subscriptions|, r)
  {
    SnapshotsOfActiveRecords(s.records, s.nextId, nowMs);
    var i := SnapshotExists(s.records, s.nextId, nowMs, r);
    var snapshot := Snapshots(s.records, s.nextId, nowMs)[i];
    assert SnapshotOf(snapshot, s.records);
    NewRowsAreAt(s, config, RebuildCurrent, nowMs, i);
    var t := Apply(s, Create(config, RebuildCurrent, nowMs));
    assert IsCurrent(t, t.deliveries[|s.deliveries| + i].payload, |s.subscriptions|, r);
  }

  lemma SnapshotOmitsTombstoned(s: Store, config: SubscriptionConfig, nowMs: Millis, r: RecordId)
    requires StoreInv(s) && Created(s, config, RebuildCurrent, nowMs)
    requires r < |s.records| && s.records[r].state == Tombstoned
    ensures NoRowFor(Apply(s, Create(config, RebuildCurrent, nowMs)), |s.subscriptions|, r)
  {
    SnapshotsOfActiveRecords(s.records, s.nextId, nowMs);
    var snapshots := Snapshots(s.records, s.nextId, nowMs);
    var t := Apply(s, Create(config, RebuildCurrent, nowMs));
    forall i | 0 <= i < |t.deliveries| ensures !NamesRecord(t.deliveries[i], |s.subscriptions|, r) {
      if i < |s.deliveries| {
        assert RowOk(s, s.deliveries[i]);
      } else {
        assert SnapshotOf(snapshots[i - |s.deliveries|], s.records);
      }
    }
  }

  predicate FullEpoch(config: SubscriptionConfig, mode: SubscriptionMode) {
    mode == RebuildCurrent || config.replayAfterSequence == 0
  }

  lemma CreationCovers(s: Store, config: SubscriptionConfig, mode: SubscriptionMode, nowMs: Millis)
    requires StoreInv(s) && Created(s, config, mode, nowMs) && FullEpoch(config, mode)
    ensures Covers(Apply(s, Create(config, mode, nowMs)), |s.subscriptions|)
  {
    var t := Apply(s, Create(config, mode, nowMs));
    forall r | 0 <= r < |t.records| ensures Covered(t, |s.subscriptions|, r) {
      if mode == ReplayEvents {
        ReplayFromZeroCovers(s, config, nowMs, r);
      } else if s.records[r].state == Active {
        SnapshotCovers(s, config, nowMs, r);
      } else {
        SnapshotOmitsTombstoned(s, config, nowMs, r);
      }
    }
  }

  // ---------- The two modes agree ----------

  /** The catalog's active records, as a consumer would hold them. */
  function ActiveView(s: Store): View {
    map r | 0 <= r < |s.records| && s.records[r].state == Active ::
      Held(s.records[r].recordVersion, s.records[r].currentRevisionId, Some(s.records[r].location))
  }

  lemma CoveredRecordIsHeldExactly(s: Store, view: View, k: SubscriptionId, r: RecordId)
    requires StoreInv(s) && Covers(s, k) && ViewOk(s, view, k) && AllAcknowledged(s.deliveries, k)
    requires r < |s.records|
    ensures s.records[r].state == Tombstoned ==> r !in view
    ensures s.records[r].state == Active ==> r in view && view[r] == ActiveView(s)[r]
  {
    assert Covered(s, k, r);
    if HasCurrentRow(s, k, r) {
      var i :| 0 <= i < |s.deliveries| && IsCurrent(s, s.deliveries[i].payload, k, r);
      assert Mine(s.deliveries[i], k);
      forall j | 0 <= j < |s.deliveries| && Acked(s, j, k) && s.deliveries[j].payload.recordId == r
        ensures s.deliveries[j].payload.recordVersion <= s.deliveries[i].payload.recordVersion
      {
        assert RowOk(s, s.deliveries[j]);
      }
      assert LatestAcked(s, i, k);
    }
  }

  lemma CoveredViewIsActiveView(s: Store, view: View, k: SubscriptionId)
    requires StoreInv(s) && Covers(s, k) && ViewOk(s, view, k) && AllAcknowledged(s.deliveries, k)
    ensures view == ActiveView(s)
  {
    forall r: RecordId
      ensures r in view <==> r in ActiveView(s)
      ensures r in view ==> view[r] == ActiveView(s)[r]
    {
      if r < |s.records| {
        CoveredRecordIsHeldExactly(s, view, k, r);
      } else if r in view {
        GroundedRecordsExist(s, k, r);
      }
    }
  }

  lemma GroundedRecordsExist(s: Store, k: SubscriptionId, r: RecordId)
    requires RowsOk(s) && Grounded(s, k, r)
    ensures r < |s.records|
  {
    var i :| 0 <= i < |s.deliveries| && Acked(s, i, k) && s.deliveries[i].payload.recordId == r;
    assert RowOk(s, s.deliveries[i]);
  }

  /**
   * A consumer that applies each delivery as it is acknowledged, in whatever order the records interleave, ends up
   * with exactly the catalog's active records once all its deliveries are acknowledged. This holds of a replay from
   * the first event and of a snapshot with the events after it, whatever else the catalog does meanwhile.
   */
  lemma FullyAcknowledgedEpochsHoldTheActiveRecords(s: Store, config: SubscriptionConfig, mode: SubscriptionMode,
                                                    nowMs: Millis, more: seq<Op>)
    requires StoreInv(s) && Created(s, config, mode, nowMs) && FullEpoch(config, mode)
    ensures var k := |s.subscriptions|;
            var created := Apply(s, Create(config, mode, nowMs));
            var t := Run(created, more);
            AllAcknowledged(t.deliveries, k) ==> TrackRun(created, map[], more, k) == ActiveView(t)
  {
    var created := Apply(s, Create(config, mode, nowMs));
    ApplyKeepsStore(s, Create(config, mode, nowMs));
    CreationCovers(s, config, mode, nowMs);
    NothingAckedYet(s, config, mode, nowMs);
    EpochHoldsActiveRecords(created, |s.subscriptions|, more);
  }

  lemma NothingAckedYet(s: Store, config: SubscriptionConfig, mode: SubscriptionMode, nowMs: Millis)
    requires StoreInv(s) && Created(s, config, mode, nowMs)
    ensures ViewOk(Apply(s, Create(config, mode, nowMs)), map[], |s.subscriptions|)
  {
    var t := Apply(s, Create(config, mode, nowMs));
    forall i | 0 <= i < |t.deliveries| ensures !Acked(t, i, |s.subscriptions|) {
      assert i < |s.deliveries| ==> RowOk(s, s.deliveries[i]);
    }
  }

  lemma EpochHoldsActiveRecords(created: Store, k: SubscriptionId, more: seq<Op>)
    requires StoreInv(created) && Covers(created, k) && ViewOk(created, map[], k)
    ensures var t := Run(created, more);
            AllAcknowledged(t.deliveries, k) ==> TrackRun(created, map[], more, k) == ActiveView(t)
  {
    RunKeepsStore(created, more);
    RunKeepsCoverage(created, more, k);
    TrackRunKeepsView(created, map[], more, k);
    if AllAcknowledged(Run(created, more).deliveries, k) {
      CoveredViewIsActiveView(Run(created, more), TrackRun(created, map[], more, k), k);
    }
  }
}
