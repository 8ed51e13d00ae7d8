/** Which kinds of event a subscription takes is decided when a row is enqueued, and never reconsidered. */
module Admission {
  import opened Wrappers
  import opened Domain
  import opened Tables
  import opened Queue

  predicate Accepts(subscription: Subscription, kind: EventKind) {
    && (kind == LocationChanged ==> subscription.acceptsMoves)
    && (kind == RecordTombstoned ==> subscription.acceptsTombstones)
  }

  /** A row of an unaccepted kind is blocked and was never leased; one of an accepted kind waits until it is leased. */
  predicate RowAdmitted(s: Store, d: Delivery) {
    && d.payload.subscriptionId < |s.subscriptions|
    && if Accepts(s.subscriptions[d.payload.subscriptionId], d.payload.kind)
       then d.attempts == 0 ==> d.state == Queued
       else d.attempts == 0 && d.state == Blocked
  }

  predicate RowsAdmitted(s: Store) {
    forall i :: 0 <= i < |s.deliveries| ==> RowAdmitted(s, s.deliveries[i])
  }

  lemma NewRowIsAdmitted(s: Store, k: SubscriptionId, event: ArchiveEvent, isSnapshot: bool)
    requires k < |s.subscriptions|
    ensures RowAdmitted(s, NewDelivery(k, s.subscriptions[k], event, isSnapshot))
  {
  }

  lemma TransitionAdmits(s: Store, r: RecordId, kind: EventKind, revisionId: Option<RevisionId>,
                         location: LogicalLocation, state: RecordState, nowMs: Millis)
    requires r < |s.records| && RowsAdmitted(s)
    ensures RowsAdmitted(Transition(s, r, kind, revisionId, location, state, nowMs))
  {
    var t := Transition(s, r, kind, revisionId, location, state, nowMs);
    forall i | 0 <= i < |t.deliveries| ensures RowAdmitted(t, t.deliveries[i]) {
      if i < |s.deliveries| {
        assert RowAdmitted(s, s.deliveries[i]);
      } else {
        NewRowIsAdmitted(t, i - |s.deliveries|, NextEvent(s, r, kind, revisionId, location, nowMs), false);
      }
    }
  }

  /** Subscriptions keep what they accept, and rows are as before. */
  lemma SameRowsStayAdmitted(s: Store, t: Store)
    requires RowsAdmitted(s) && t.deliveries == s.deliveries && |s.subscriptions| <= |t.subscriptions|
    requires forall k :: 0 <= k < |s.subscriptions| ==>
               && t.subscriptions[k].acceptsMoves == s.subscriptions[k].acceptsMoves
               && t.subscriptions[k].acceptsTombstones == s.subscriptions[k].acceptsTombstones
    ensures RowsAdmitted(t)
  {
    forall i | 0 <= i < |t.deliveries| ensures RowAdmitted(t, t.deliveries[i]) {
      assert RowAdmitted(s, s.deliveries[i]);
    }
  }

  lemma CommitAdmits(s: Store, r: RecordId, location: LogicalLocation, revision: CanonicalRevision, nowMs: Millis)
    requires r < |s.records| && RowsAdmitted(s)
    ensures RowsAdmitted(CommitObserved(s, r, location, revision, nowMs))
  {
    var (mid, id) := EnsureRevision(s, r, revision);
    SameRowsStayAdmitted(s, mid);
    if RevisionOf(s.revisions, s.records[r].currentRevisionId) != Some(revision) {
      TransitionAdmits(mid, r, RevisionCommitted, Some(id), location, Active, nowMs);
    } else if s.records[r].location != location {
      TransitionAdmits(mid, r, LocationChanged, mid.records[r].currentRevisionId, location, Active, nowMs);
    }
  }

  lemma ObserveAdmits(s: Store, identity: RecordIdentity, location: LogicalLocation, revision: CanonicalRevision,
                      nowMs: Millis)
    requires RowsAdmitted(s)
    ensures RowsAdmitted(ObservePresent(s, identity, location, revision, nowMs))
  {
    var (admitted, r) := AdmitRecord(s, identity, location);
    SameRowsStayAdmitted(s, admitted);
    if admitted.records[r].state == Tombstoned {
      TransitionAdmits(admitted, r, RecordRestored, admitted.records[r].currentRevisionId, location, Active, nowMs);
    }
    CommitAdmits(RestoreIfTombstoned(admitted, r, location, nowMs), r, location, revision, nowMs);
  }

  lemma CreateAdmits(s: Store, config: SubscriptionConfig, mode: SubscriptionMode, nowMs: Millis)
    requires RowsAdmitted(s)
    ensures RowsAdmitted(CreateSubscription(s, config, mode, nowMs).0)
  {
    var (t, created) := CreateSubscription(s, config, mode, nowMs);
    if created.Ok? {
      var events := InitialEvents(s, config, mode, nowMs);
      forall i | 0 <= i < |t.deliveries| ensures RowAdmitted(t, t.deliveries[i]) {
        if i < |s.deliveries| {
          assert RowAdmitted(s, s.deliveries[i]);
        } else {
          assert t.subscriptions[|s.subscriptions|] == NewSubscription(config, mode);
          NewRowIsAdmitted(t, |s.subscriptions|, events[i - |s.deliveries|], mode == RebuildCurrent);
        }
      }
    }
  }

  lemma LeasingAdmits(s: Store, k: SubscriptionId, nowMs: Millis, durationMs: nat)
    requires StoreInv(s) && RowsAdmitted(s)
    ensures RowsAdmitted(LeaseNext(s, k, nowMs, durationMs).0)
  {
    var t := LeaseNext(s, k, nowMs, durationMs).0;
    LeaseNextCases(s, k, nowMs, durationMs);
    forall i | 0 <= i < |t.deliveries| ensures RowAdmitted(t, t.deliveries[i]) {
      assert RowAdmitted(s, s.deliveries[i]) && RowOk(s, s.deliveries[i]);
    }
  }

  lemma ReleasingAdmits(s: Store, op: Op)
    requires StoreInv(s) && RowsAdmitted(s) && (op.Settle? || op.Retry? || op.Block?)
    ensures RowsAdmitted(Apply(s, op))
  {
    var t := Apply(s, op);
    forall i | 0 <= i < |t.deliveries| ensures RowAdmitted(t, t.deliveries[i]) {
      assert RowAdmitted(s, s.deliveries[i]) && RowOk(s, s.deliveries[i]);
    }
  }

  lemma ApplyAdmits(s: Store, op: Op)
    requires StoreInv(s) && RowsAdmitted(s)
    ensures RowsAdmitted(Apply(s, op))
  {
    match op
    case Observe(identity, location, revision, nowMs) => ObserveAdmits(s, identity, location, revision, nowMs);
    case Tombstone(identity, nowMs) =>
      var found := FindRecord(s.records, identity);
      if found.Some? && s.records[found.value].state == Active {
        var row := s.records[found.value];
        TransitionAdmits(s, found.value, RecordTombstoned, row.currentRevisionId, row.location, Tombstoned, nowMs);
      }
    case Create(config, mode, nowMs) => CreateAdmits(s, config, mode, nowMs);
    case SetEnabled(_, _) => SameRowsStayAdmitted(s, Apply(s, op));
    case Lease(k, nowMs, durationMs) => LeasingAdmits(s, k, nowMs, durationMs);
    case _ => ReleasingAdmits(s, op);
  }

  lemma {:induction false} RunAdmits(s: Store, ops: seq<Op>)
    requires StoreInv(s) && RowsAdmitted(s)
    ensures RowsAdmitted(Run(s, ops))
    decreases |ops|
  {
    if ops != [] {
      ApplyKeepsStore(s, ops[0]);
      ApplyAdmits(s, ops[0]);
      RunAdmits(Apply(s, ops[0]), ops[1..]);
    }
  }

  /**
   * In every reachable state, an event of a kind the subscription does not accept sits blocked and was never leased,
   * and an event of any other kind that was never leased is still queued.
   */
  lemma UnacceptedKindsAreNeverLeased(ops: seq<Op>)
    ensures RowsAdmitted(Run(EMPTY_STORE, ops))
  {
    ReachableStoresAreSound([]);
    RunAdmits(EMPTY_STORE, ops);
  }
}
