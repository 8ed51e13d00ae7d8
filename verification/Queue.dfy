/** What every transaction keeps true of the delivery queue. */
module Queue {
  import opened Wrappers
  import opened Domain
  import opened Backoff
  import opened Tables
  import opened Ledger

  // ---------- The invariant ----------

  /** What one delivery row always satisfies. */
  predicate RowOk(s: Store, d: Delivery) {
    var p := d.payload;
    && p.subscriptionId < |s.subscriptions|
    && p.recordId < |s.records|
    && 1 <= p.recordVersion <= s.records[p.recordId].recordVersion
    && p.eventId < s.nextId
    && p.location.Some? && p.revisionId.Some? && p.revisionId.value < |s.revisions|
    && d.leaseToken.Some? == d.leaseExpiresAtMs.Some? == d.state.Leased?
    && (d.leaseToken.Some? ==> d.leaseToken.value < s.nextId)
    && var limit := s.subscriptions[p.subscriptionId].retryPolicy.maxAttempts;
    && d.attempts <= limit
    && (d.state.Queued? ==> d.attempts < limit)
    && (d.state.Leased? || d.state.DeadLettered? || d.state.Advancing() ==> 0 < d.attempts)
  }

  /** What an earlier row and a later row of the table satisfy together. */
  predicate PairOk(earlier: Delivery, later: Delivery) {
    earlier.payload.subscriptionId == later.payload.subscriptionId ==>
      && earlier.payload.eventId < later.payload.eventId
      && (earlier.payload.recordId == later.payload.recordId ==>
            && earlier.payload.recordVersion < later.payload.recordVersion
            && (later.attempts > 0 ==> earlier.state.Advancing()))
  }

  predicate RowsOk(s: Store) {
    forall i :: 0 <= i < |s.deliveries| ==> RowOk(s, s.deliveries[i])
  }

  predicate PairsOk(deliveries: seq<Delivery>) {
    forall i, j :: 0 <= i < j < |deliveries| ==> PairOk(deliveries[i], deliveries[j])
  }

  predicate WithinLimits(s: Store) {
    forall k :: 0 <= k < |s.subscriptions| ==>
      CountState(s.deliveries, k, Leased) <= s.subscriptions[k].maxActiveLeases
  }

  predicate QueueOk(s: Store) {
    RowsOk(s) && PairsOk(s.deliveries) && WithinLimits(s)
  }

  predicate StoreInv(s: Store) {
    LedgerInv(s) && QueueOk(s)
  }

  // ---------- How rows evolve ----------

  /** A row's columns may only change this way; `issued` bounds the tokens handed out so far. */
  predicate RowEvolves(d: Delivery, e: Delivery, issued: Uuid) {
    && e.payload == d.payload
    && d.attempts <= e.attempts
    && (d.state.Final() ==> e == d)
    && (e.leaseToken.Some? && e.leaseToken.value < issued ==>
          && e.leaseToken == d.leaseToken
          && e.leaseExpiresAtMs == d.leaseExpiresAtMs
          && e.attempts == d.attempts)
  }

  predicate Untouched(d: Delivery) {
    d.attempts == 0 && d.leaseToken.None? && (d.state.Queued? || d.state.Blocked?)
  }

  predicate Evolves(s: Store, t: Store) {
    && s.nextId <= t.nextId
    && |s.deliveries| <= |t.deliveries|
    && (forall i :: 0 <= i < |s.deliveries| ==> RowEvolves(s.deliveries[i], t.deliveries[i], s.nextId))
    && (forall i :: |s.deliveries| <= i < |t.deliveries| ==>
          t.deliveries[i].leaseToken.Some? ==> s.nextId <= t.deliveries[i].leaseToken.value)
    && |s.subscriptions| <= |t.subscriptions|
    && (forall k :: 0 <= k < |s.subscriptions| ==>
          t.subscriptions[k] == s.subscriptions[k].(enabled := t.subscriptions[k].enabled))
    && s.revisions <= t.revisions
  }

  lemma EvolvesIsTransitive(s: Store, t: Store, u: Store)
    requires Evolves(s, t) && Evolves(t, u)
    ensures Evolves(s, u)
  {
    forall i | 0 <= i < |u.deliveries|
      ensures i < |s.deliveries| ==> RowEvolves(s.deliveries[i], u.deliveries[i], s.nextId)
      ensures i >= |s.deliveries| ==>
                u.deliveries[i].leaseToken.Some? ==> s.nextId <= u.deliveries[i].leaseToken.value
    {
      assert i < |t.deliveries| ==> RowEvolves(t.deliveries[i], u.deliveries[i], t.nextId);
      assert i < |s.deliveries| ==> RowEvolves(s.deliveries[i], t.deliveries[i], s.nextId);
    }
  }

  // ---------- Counting leases ----------

  lemma {:induction false} CountAppend(a: seq<Delivery>, b: seq<Delivery>, k: SubscriptionId, state: DeliveryState)
    ensures CountState(a + b, k, state) == CountState(a, k, state) + CountState(b, k, state)
    decreases |b|
  {
    if b == [] {
      assert a + b == a;
    } else {
      assert (a + b)[..|a + b| - 1] == a + b[..|b| - 1];
      CountAppend(a, b[..|b| - 1], k, state);
    }
  }

  predicate CountsFor(d: Delivery, k: SubscriptionId, state: DeliveryState) {
    d.payload.subscriptionId == k && d.state == state
  }

  lemma {:induction false} CountShrinks(a: seq<Delivery>, b: seq<Delivery>, k: SubscriptionId, state: DeliveryState)
    requires |a| == |b|
    requires forall i :: 0 <= i < |a| ==> CountsFor(b[i], k, state) ==> CountsFor(a[i], k, state)
    ensures CountState(b, k, state) <= CountState(a, k, state)
    decreases |a|
  {
    if a != [] {
      CountShrinks(a[..|a| - 1], b[..|b| - 1], k, state);
    }
  }

  lemma {:induction false} CountNone(a: seq<Delivery>, k: SubscriptionId, state: DeliveryState)
    requires forall i :: 0 <= i < |a| ==> !CountsFor(a[i], k, state)
    ensures CountState(a, k, state) == 0
    decreases |a|
  {
    if a != [] {
      CountNone(a[..|a| - 1], k, state);
    }
  }

  lemma {:induction false} CountUpdate(a: seq<Delivery>, i: nat, d: Delivery, k: SubscriptionId, state: DeliveryState)
    requires i < |a|
    ensures CountState(a[i := d], k, state)
            == CountState(a, k, state) - (if CountsFor(a[i], k, state) then 1 else 0)
               + (if CountsFor(d, k, state) then 1 else 0)
    decreases |a|
  {
    var n := |a| - 1;
    if i == n {
      assert a[i := d][..n] == a[..n];
    } else {
      assert a[i := d][..n] == a[..n][i := d];
      CountUpdate(a[..n], i, d, k, state);
    }
  }

  // ---------- Rewriting rows in place ----------

  /** A statement that only rewrites rows, and leases no row that an unsettled lower version bars. */
  predicate Rewrites(s: Store, t: Store) {
    && t == s.(deliveries := t.deliveries, nextId := t.nextId)
    && s.nextId <= t.nextId
    && |t.deliveries| == |s.deliveries|
    && (forall i :: 0 <= i < |s.deliveries| ==> RowEvolves(s.deliveries[i], t.deliveries[i], s.nextId))
    && (forall i :: 0 <= i < |s.deliveries| ==> RowOk(t, t.deliveries[i]))
    && (forall i :: 0 <= i < |s.deliveries| ==>
          s.deliveries[i].attempts == t.deliveries[i].attempts
          || Unobstructed(s.deliveries, s.deliveries[i].payload))
  }

  lemma RewriteKeepsPairs(s: Store, t: Store)
    requires PairsOk(s.deliveries) && Rewrites(s, t)
    ensures PairsOk(t.deliveries) && Evolves(s, t)
  {
    forall i, j | 0 <= i < j < |t.deliveries|
      ensures PairOk(t.deliveries[i], t.deliveries[j])
    {
      assert PairOk(s.deliveries[i], s.deliveries[j]);
      assert RowEvolves(s.deliveries[i], t.deliveries[i], s.nextId);
      assert RowEvolves(s.deliveries[j], t.deliveries[j], s.nextId);
    }
  }

  /** The statement that puts expired leases back. */
  function Expire(s: Store, k: SubscriptionId, nowMs: Millis): Store
    requires k < |s.subscriptions|
  {
    s.(deliveries := ExpireLeases(s.deliveries, k, s.subscriptions[k].retryPolicy, nowMs))
  }

  lemma ExpireKeepsQueue(s: Store, k: SubscriptionId, nowMs: Millis)
    requires QueueOk(s) && k < |s.subscriptions|
    ensures QueueOk(Expire(s, k, nowMs)) && Evolves(s, Expire(s, k, nowMs))
  {
    var t := Expire(s, k, nowMs);
    forall i | 0 <= i < |s.deliveries|
      ensures RowEvolves(s.deliveries[i], t.deliveries[i], s.nextId) && RowOk(t, t.deliveries[i])
    {
      assert RowOk(s, s.deliveries[i]);
    }
    RewriteKeepsPairs(s, t);
    forall j | 0 <= j < |s.subscriptions|
      ensures CountState(t.deliveries, j, Leased) <= s.subscriptions[j].maxActiveLeases
    {
      CountShrinks(s.deliveries, t.deliveries, j, Leased);
    }
  }

  /** Rewriting one leased row without leasing it. */
  lemma ReleaseKeepsQueue(s: Store, i: DeliveryId, d: Delivery)
    requires QueueOk(s) && i < |s.deliveries|
    requires s.deliveries[i].state == Leased && d.state != Leased
    requires RowEvolves(s.deliveries[i], d, s.nextId) && RowOk(s, d) && d.attempts == s.deliveries[i].attempts
    ensures QueueOk(UpdateRow(s, i, d)) && Evolves(s, UpdateRow(s, i, d))
  {
    var t := UpdateRow(s, i, d);
    assert forall j :: 0 <= j < |s.deliveries| ==> RowOk(s, s.deliveries[j]) && RowOk(t, t.deliveries[j]);
    RewriteKeepsPairs(s, t);
    forall k | 0 <= k < |s.subscriptions|
      ensures CountState(t.deliveries, k, Leased) <= s.subscriptions[k].maxActiveLeases
    {
      CountUpdate(s.deliveries, i, d, k, Leased);
    }
  }

  /** What a granted lease did: it expired old leases, then leased the least eligible row. */
  predicate Grants(s: Store, k: SubscriptionId, nowMs: Millis, t: Store, lease: DeliveryLease)
    requires k < |s.subscriptions|
  {
    var mid := Expire(s, k, nowMs);
    var i := lease.deliveryId;
    && i < |mid.deliveries|
    && Eligible(mid.deliveries, i, k, nowMs)
    && CountState(mid.deliveries, k, Leased) < s.subscriptions[k].maxActiveLeases
    && lease == LeaseFor(s, i, mid.deliveries[i], lease.expiresAtMs)
    && t == WithLease(mid, i, lease.expiresAtMs)
  }

  function WithLease(s: Store, i: DeliveryId, expiresAtMs: Millis): Store
    requires i < |s.deliveries|
  {
    s.(deliveries := s.deliveries[i := LeaseRow(s.deliveries[i], s.nextId, expiresAtMs)], nextId := s.nextId + 1)
  }

  /** `lease_next` changes nothing, or only expires leases, or grants one. */
  lemma LeaseNextCases(s: Store, k: SubscriptionId, nowMs: Millis, durationMs: nat)
    ensures var (t, result) := LeaseNext(s, k, nowMs, durationMs);
            match result
            case Err(_) => t == s
            case Ok(None) => k < |s.subscriptions| && (t == s || t == Expire(s, k, nowMs))
            case Ok(Some(lease)) =>
              && k < |s.subscriptions| && Grants(s, k, nowMs, t, lease)
              && lease.expiresAtMs == nowMs + durationMs && 0 < durationMs
  {
  }

  lemma LeaseKeepsQueue(s: Store, k: SubscriptionId, nowMs: Millis, durationMs: nat)
    requires QueueOk(s)
    ensures var t := LeaseNext(s, k, nowMs, durationMs).0;
            QueueOk(t) && Evolves(s, t)
  {
    LeaseNextCases(s, k, nowMs, durationMs);
    var (t, result) := LeaseNext(s, k, nowMs, durationMs);
    if t == s {
      EvolvesIsReflexive(s);
    } else {
      ExpireKeepsQueue(s, k, nowMs);
      var mid := Expire(s, k, nowMs);
      if result.Ok? && result.value.Some? {
        GrantKeepsQueue(s, mid, k, nowMs, t, result.value.value);
      }
    }
  }

  lemma EvolvesIsReflexive(s: Store)
    requires QueueOk(s)
    ensures Evolves(s, s)
  {
    assert forall i :: 0 <= i < |s.deliveries| ==> RowOk(s, s.deliveries[i]);
  }

  lemma GrantKeepsQueue(s: Store, mid: Store, k: SubscriptionId, nowMs: Millis, t: Store, lease: DeliveryLease)
    requires k < |s.subscriptions| && mid == Expire(s, k, nowMs) && Grants(s, k, nowMs, t, lease)
    requires QueueOk(mid) && Evolves(s, mid)
    ensures QueueOk(t) && Evolves(s, t)
  {
    LeasedRowKeepsQueue(mid, lease.deliveryId, lease.expiresAtMs);
    EvolvesIsTransitive(s, mid, t);
  }

  lemma LeasedRowKeepsQueue(s: Store, i: DeliveryId, expiresAtMs: Millis)
    requires QueueOk(s) && i < |s.deliveries|
    requires s.deliveries[i].state == Queued && Unobstructed(s.deliveries, s.deliveries[i].payload)
    requires var k := s.deliveries[i].payload.subscriptionId;
             k < |s.subscriptions| && CountState(s.deliveries, k, Leased) < s.subscriptions[k].maxActiveLeases
    ensures QueueOk(WithLease(s, i, expiresAtMs)) && Evolves(s, WithLease(s, i, expiresAtMs))
  {
    var d := LeaseRow(s.deliveries[i], s.nextId, expiresAtMs);
    var t := WithLease(s, i, expiresAtMs);
    forall j | 0 <= j < |s.deliveries|
      ensures RowEvolves(s.deliveries[j], t.deliveries[j], s.nextId) && RowOk(t, t.deliveries[j])
    {
      assert RowOk(s, s.deliveries[j]);
    }
    RewriteKeepsPairs(s, t);
    forall k | 0 <= k < |s.subscriptions|
      ensures CountState(t.deliveries, k, Leased) <= s.subscriptions[k].maxActiveLeases
    {
      CountUpdate(s.deliveries, i, d, k, Leased);
    }
  }

  // ---------- Appending rows ----------

  /** A statement that keeps every row and only appends rows nobody has leased yet. */
  predicate Appends(s: Store, t: Store, added: seq<Delivery>) {
    && t.deliveries == s.deliveries + added
    && s.nextId <= t.nextId
    && |s.records| <= |t.records|
    && (forall r :: 0 <= r < |s.records| ==> s.records[r].recordVersion <= t.records[r].recordVersion)
    && s.revisions <= t.revisions
    && s.subscriptions <= t.subscriptions
    && (forall i :: 0 <= i < |added| ==> Untouched(added[i]) && RowOk(t, added[i]))
    && (forall i, j :: 0 <= i < j < |added| ==> PairOk(added[i], added[j]))
    && (forall i, j :: 0 <= i < |s.deliveries| && 0 <= j < |added| ==> PairOk(s.deliveries[i], added[j]))
  }

  lemma AppendKeepsQueue(s: Store, t: Store, added: seq<Delivery>)
    requires QueueOk(s) && Appends(s, t, added)
    requires forall k :: |s.subscriptions| <= k < |t.subscriptions| ==>
               CountState(s.deliveries, k, Leased) <= t.subscriptions[k].maxActiveLeases
    ensures QueueOk(t) && Evolves(s, t)
  {
    forall i | 0 <= i < |t.deliveries|
      ensures RowOk(t, t.deliveries[i])
    {
      assert i < |s.deliveries| ==> RowOk(s, s.deliveries[i]);
    }
    forall k | 0 <= k < |t.subscriptions|
      ensures CountState(t.deliveries, k, Leased) <= t.subscriptions[k].maxActiveLeases
    {
      CountAppend(s.deliveries, added, k, Leased);
      CountNone(added, k, Leased);
    }
  }

  lemma TransitionKeepsQueue(s: Store, r: RecordId, kind: EventKind, revisionId: Option<RevisionId>,
                             location: LogicalLocation, state: RecordState, nowMs: Millis)
    requires QueueOk(s) && r < |s.records|
    requires revisionId.Some? && revisionId.value < |s.revisions|
    ensures var t := Transition(s, r, kind, revisionId, location, state, nowMs);
            QueueOk(t) && Evolves(s, t)
  {
    var t := Transition(s, r, kind, revisionId, location, state, nowMs);
    var added := FanOut(s.subscriptions, NextEvent(s, r, kind, revisionId, location, nowMs));
    forall i | 0 <= i < |added|
      ensures RowOk(t, added[i])
    {
    }
    forall i, j | 0 <= i < |s.deliveries| && 0 <= j < |added|
      ensures PairOk(s.deliveries[i], added[j])
    {
      assert RowOk(s, s.deliveries[i]);
    }
    AppendKeepsQueue(s, t, added);
  }

  lemma GrowthKeepsQueue(s: Store, t: Store)
    requires QueueOk(s)
    requires t == s.(records := t.records, revisions := t.revisions)
    requires s.records <= t.records && s.revisions <= t.revisions
    ensures QueueOk(t) && Evolves(s, t)
  {
    assert t.deliveries == s.deliveries + [];
    AppendKeepsQueue(s, t, []);
  }

  lemma ObserveKeepsQueue(s: Store, identity: RecordIdentity, location: LogicalLocation,
                          revision: CanonicalRevision, nowMs: Millis)
    requires StoreInv(s)
    ensures var t := ObservePresent(s, identity, location, revision, nowMs);
            QueueOk(t) && Evolves(s, t)
  {
    var (admitted, r) := AdmitRecord(s, identity, location);
    AdmitKeepsLedger(s, identity, location);
    GrowthKeepsQueue(s, admitted);
    var restored := RestoreIfTombstoned(admitted, r, location, nowMs);
    RestoreKeepsLedger(admitted, r, location, nowMs);
    assert RecordOk(admitted, r);
    if admitted.records[r].state == Tombstoned {
      TransitionKeepsQueue(admitted, r, RecordRestored, admitted.records[r].currentRevisionId, location, Active, nowMs);
      EvolvesIsTransitive(s, admitted, restored);
    }
    CommitKeepsQueue(restored, r, location, revision, nowMs);
    EvolvesIsTransitive(s, restored, CommitObserved(restored, r, location, revision, nowMs));
  }

  lemma CommitKeepsQueue(s: Store, r: RecordId, location: LogicalLocation, revision: CanonicalRevision, nowMs: Millis)
    requires LedgerOk(s) && QueueOk(s) && r < |s.records|
    ensures var t := CommitObserved(s, r, location, revision, nowMs);
            QueueOk(t) && Evolves(s, t)
  {
    var (mid, id) := EnsureRevision(s, r, revision);
    EnsureRevisionKeepsLedger(s, r, revision);
    GrowthKeepsQueue(s, mid);
    assert RecordOk(mid, r);
    var t := CommitObserved(s, r, location, revision, nowMs);
    if RevisionOf(s.revisions, s.records[r].currentRevisionId) != Some(revision) {
      TransitionKeepsQueue(mid, r, RevisionCommitted, Some(id), location, Active, nowMs);
      EvolvesIsTransitive(s, mid, t);
    } else if s.records[r].location != location {
      TransitionKeepsQueue(mid, r, LocationChanged, mid.records[r].currentRevisionId, location, Active, nowMs);
      EvolvesIsTransitive(s, mid, t);
    }
  }

  lemma TombstoneKeepsQueue(s: Store, r: RecordId, nowMs: Millis)
    requires StoreInv(s) && r < |s.records|
    ensures QueueOk(TombstoneRecord(s, r, nowMs)) && Evolves(s, TombstoneRecord(s, r, nowMs))
  {
    assert RecordOk(s, r);
    if s.records[r].state == Active {
      TransitionKeepsQueue(s, r, RecordTombstoned, s.records[r].currentRevisionId, s.records[r].location,
                           Tombstoned, nowMs);
    }
  }

  // ---------- Creating a subscription ----------

  /** The events strictly after a sequence are a suffix of the ledger. */
  lemma {:induction false} EventsAfterIsSuffix(events: seq<ArchiveEvent>, after: nat)
    requires forall i :: 0 <= i < |events| ==> events[i].sequence == i + 1
    ensures EventsAfter(events, after) == events[Min(after, |events|)..]
    decreases |events|
  {
    if events != [] {
      var n := |events| - 1;
      EventsAfterIsSuffix(events[..n], after);
      if after <= n {
        assert events[after..] == events[..n][after..] + [events[n]];
      }
    }
  }

  predicate SnapshotsOk(snapshots: seq<ArchiveEvent>, records: seq<RecordRow>, firstId: Uuid) {
    && (forall i :: 0 <= i < |snapshots| ==> snapshots[i].id == firstId + i && SnapshotOf(snapshots[i], records))
    && (forall i, j :: 0 <= i < j < |snapshots| ==> snapshots[i].recordId < snapshots[j].recordId)
  }

  /** Snapshots name active records only, in table order, under consecutive fresh identities. */
  lemma {:induction false} SnapshotsOfActiveRecords(records: seq<RecordRow>, firstId: Uuid, nowMs: Millis)
    ensures SnapshotsOk(Snapshots(records, firstId, nowMs), records, firstId)
    decreases |records|
  {
    if records != [] {
      var n := |records| - 1;
      SnapshotsOfActiveRecords(records[..n], firstId, nowMs);
      var earlier := Snapshots(records[..n], firstId, nowMs);
      assert SnapshotsOk(earlier, records[..n], firstId);
      assert forall i :: 0 <= i < |earlier| ==> SnapshotOf(earlier[i], records);
    }
  }

  predicate SnapshotOf(e: ArchiveEvent, records: seq<RecordRow>) {
    && e.kind == RevisionCommitted
    && e.recordId < |records|
    && var row := records[e.recordId];
    && row.state == Active
    && e.recordVersion == row.recordVersion
    && e.revisionId == row.currentRevisionId && e.location == Some(row.location)
  }

  /** Every active record has a snapshot. */
  lemma {:induction false} SnapshotExists(records: seq<RecordRow>, firstId: Uuid, nowMs: Millis, r: RecordId)
    returns (i: nat)
    requires r < |records| && records[r].state == Active
    ensures i < |Snapshots(records, firstId, nowMs)| && Snapshots(records, firstId, nowMs)[i].recordId == r
    decreases |records|
  {
    var n := |records| - 1;
    if r < n {
      i := SnapshotExists(records[..n], firstId, nowMs, r);
    } else {
      i := |Snapshots(records[..n], firstId, nowMs)|;
    }
  }

  /** Rows for a new subscription, over events that name live records in ledger order. */
  predicate Enqueueable(s: Store, events: seq<ArchiveEvent>, nextId: Uuid) {
    && (forall i :: 0 <= i < |events| ==>
          var e := events[i];
          && e.recordId < |s.records| && 1 <= e.recordVersion <= s.records[e.recordId].recordVersion
          && e.id < nextId && e.location.Some?
          && e.revisionId.Some? && e.revisionId.value < |s.revisions|)
    && (forall i, j :: 0 <= i < j < |events| ==>
          && events[i].id < events[j].id
          && (events[i].recordId == events[j].recordId ==> events[i].recordVersion < events[j].recordVersion))
  }

  lemma AddedRowsAreAppended(s: Store, subscription: Subscription, events: seq<ArchiveEvent>, isSnapshot: bool)
    requires RowsOk(s)
    requires Enqueueable(s, events, AddSubscription(s, subscription, events, isSnapshot).nextId)
    ensures var t := AddSubscription(s, subscription, events, isSnapshot);
            Appends(s, t, EnqueueAll(|s.subscriptions|, subscription, events, isSnapshot))
    ensures forall i :: 0 <= i < |s.deliveries| ==> s.deliveries[i].payload.subscriptionId < |s.subscriptions|
  {
    var t := AddSubscription(s, subscription, events, isSnapshot);
    var k := |s.subscriptions|;
    var added := EnqueueAll(k, subscription, events, isSnapshot);
    forall i | 0 <= i < |s.deliveries|
      ensures s.deliveries[i].payload.subscriptionId < k
    {
      assert RowOk(s, s.deliveries[i]);
    }
    forall i | 0 <= i < |added|
      ensures Untouched(added[i]) && RowOk(t, added[i])
    {
      assert t.subscriptions[k] == subscription;
    }
  }

  lemma AddSubscriptionKeepsQueue(s: Store, subscription: Subscription, events: seq<ArchiveEvent>, isSnapshot: bool)
    requires QueueOk(s) && 0 < subscription.maxActiveLeases
    requires Enqueueable(s, events, AddSubscription(s, subscription, events, isSnapshot).nextId)
    ensures var t := AddSubscription(s, subscription, events, isSnapshot);
            QueueOk(t) && Evolves(s, t)
  {
    var k := |s.subscriptions|;
    AddedRowsAreAppended(s, subscription, events, isSnapshot);
    CountNone(s.deliveries, k, Leased);
    AppendKeepsQueue(s, AddSubscription(s, subscription, events, isSnapshot),
                     EnqueueAll(k, subscription, events, isSnapshot));
  }

  lemma LedgerIsEnqueueable(s: Store, after: nat)
    requires LedgerInv(s)
    ensures EventsAfter(s.events, after) == s.events[Min(after, |s.events|)..]
    ensures Enqueueable(s, EventsAfter(s.events, after), s.nextId)
  {
    forall i | 0 <= i < |s.events| ensures EventOk(s, i) && s.events[i].location.Some? {
      LawfulHasLocations(s.events, i);
    }
    EventsAfterIsSuffix(s.events, after);
  }

  lemma SnapshotsAreEnqueueable(s: Store, nowMs: Millis)
    requires LedgerInv(s)
    ensures var snapshots := Snapshots(s.records, s.nextId, nowMs);
            Enqueueable(s, snapshots, s.nextId + |snapshots|)
  {
    var snapshots := Snapshots(s.records, s.nextId, nowMs);
    SnapshotsOfActiveRecords(s.records, s.nextId, nowMs);
    forall i | 0 <= i < |snapshots|
      ensures SnapshotOf(snapshots[i], s.records) && RecordOk(s, snapshots[i].recordId)
    {
    }
  }

  lemma CreateKeepsQueue(s: Store, config: SubscriptionConfig, mode: SubscriptionMode, nowMs: Millis)
    requires StoreInv(s)
    ensures var t := CreateSubscription(s, config, mode, nowMs).0;
            QueueOk(t) && Evolves(s, t)
  {
    if CreateSubscription(s, config, mode, nowMs).1.Err? {
      EvolvesIsReflexive(s);
    } else {
      if mode == ReplayEvents {
        LedgerIsEnqueueable(s, config.replayAfterSequence);
      } else {
        SnapshotsAreEnqueueable(s, nowMs);
      }
      AddSubscriptionKeepsQueue(s, NewSubscription(config, mode), InitialEvents(s, config, mode, nowMs),
                                mode == RebuildCurrent);
    }
  }

  lemma {:induction false} LawfulHasLocations(events: seq<ArchiveEvent>, i: nat)
    requires Lawful(events) && i < |events|
    ensures events[i].location.Some? && events[i].revisionId.Some?
    decreases |events|
  {
    if i < |events| - 1 {
      LawfulHasLocations(events[..|events| - 1], i);
    }
  }

  lemma EnableKeepsQueue(s: Store, k: SubscriptionId, enabled: bool)
    requires QueueOk(s)
    ensures var t := SetSubscriptionEnabled(s, k, enabled).0;
            QueueOk(t) && Evolves(s, t)
  {
    var t := SetSubscriptionEnabled(s, k, enabled).0;
    forall i | 0 <= i < |s.deliveries|
      ensures RowOk(t, s.deliveries[i]) && RowEvolves(s.deliveries[i], t.deliveries[i], s.nextId)
    {
      assert RowOk(s, s.deliveries[i]);
    }
  }

  // ---------- Every run ----------

  lemma SettlementKeepsQueue(s: Store, op: Op)
    requires QueueOk(s) && (op.Settle? || op.Retry? || op.Block?)
    ensures QueueOk(Apply(s, op)) && Evolves(s, Apply(s, op))
  {
    if Apply(s, op) != s {
      var i := op.lease.deliveryId;
      assert RowOk(s, s.deliveries[i]);
      ReleaseKeepsQueue(s, i, Apply(s, op).deliveries[i]);
    }
  }

  lemma ApplyKeepsStore(s: Store, op: Op)
    requires StoreInv(s)
    ensures StoreInv(Apply(s, op)) && Evolves(s, Apply(s, op))
  {
    ApplyKeepsLedger(s, op);
    match op
    case Observe(identity, location, revision, nowMs) => ObserveKeepsQueue(s, identity, location, revision, nowMs);
    case Tombstone(identity, nowMs) =>
      var found := FindRecord(s.records, identity);
      if found.Some? {
        TombstoneKeepsQueue(s, found.value, nowMs);
      }
    case Create(config, mode, nowMs) => CreateKeepsQueue(s, config, mode, nowMs);
    case SetEnabled(k, enabled) => EnableKeepsQueue(s, k, enabled);
    case Lease(k, nowMs, durationMs) => LeaseKeepsQueue(s, k, nowMs, durationMs);
    case _ => SettlementKeepsQueue(s, op);
  }

  lemma {:induction false} RunKeepsStore(s: Store, ops: seq<Op>)
    requires StoreInv(s)
    ensures StoreInv(Run(s, ops)) && Evolves(s, Run(s, ops))
    decreases |ops|
  {
    if ops != [] {
      ApplyKeepsStore(s, ops[0]);
      RunKeepsStore(Apply(s, ops[0]), ops[1..]);
      EvolvesIsTransitive(s, Apply(s, ops[0]), Run(s, ops));
    }
  }

  /** Every state the catalog can reach satisfies the ledger and the queue invariant. */
  lemma ReachableStoresAreSound(ops: seq<Op>)
    ensures StoreInv(Run(EMPTY_STORE, ops))
  {
    RunKeepsStore(EMPTY_STORE, ops);
  }
}
