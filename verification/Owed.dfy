/** A subscription is owed exactly the events it should be, and both replay modes rebuild the same picture. */
module Owed {
  import opened Wrappers
  import opened Domain
  import opened Backoff
  import opened Tables
  import opened Ledger
  import opened Queue
  import opened QueueLaws

  // ---------- The rows of one subscription ----------

  function PayloadsOf(deliveries: seq<Delivery>, k: SubscriptionId): seq<DeliveryPayload> {
    if deliveries == [] then []
    else
      var n := |deliveries| - 1;
      PayloadsOf(deliveries[..n], k) + if Mine(deliveries[n], k) then [deliveries[n].payload] else []
  }

  /** What a subscription is owed for a stretch of events. */
  function Payloads(k: SubscriptionId, events: seq<ArchiveEvent>, isSnapshot: bool): seq<DeliveryPayload> {
    seq(|events|, i requires 0 <= i < |events| => PayloadOf(k, events[i], isSnapshot))
  }

  lemma {:induction false} PayloadsAppend(a: seq<Delivery>, b: seq<Delivery>, k: SubscriptionId)
    ensures PayloadsOf(a + b, k) == PayloadsOf(a, k) + PayloadsOf(b, k)
    decreases |b|
  {
    if b == [] {
      assert a + b == a;
    } else {
      assert (a + b)[..|a + b| - 1] == a + b[..|b| - 1];
      PayloadsAppend(a, b[..|b| - 1], k);
    }
  }

  lemma {:induction false} PayloadsSame(a: seq<Delivery>, b: seq<Delivery>, k: SubscriptionId)
    requires |a| == |b| && forall i :: 0 <= i < |a| ==> a[i].payload == b[i].payload
    ensures PayloadsOf(a, k) == PayloadsOf(b, k)
    decreases |a|
  {
    if a != [] {
      PayloadsSame(a[..|a| - 1], b[..|b| - 1], k);
    }
  }

  lemma {:induction false} PayloadsNone(a: seq<Delivery>, k: SubscriptionId)
    requires forall i :: 0 <= i < |a| ==> !Mine(a[i], k)
    ensures PayloadsOf(a, k) == []
    decreases |a|
  {
    if a != [] {
      PayloadsNone(a[..|a| - 1], k);
    }
  }

  lemma {:induction false} PayloadsAll(a: seq<Delivery>, k: SubscriptionId, events: seq<ArchiveEvent>, isSnapshot: bool)
    requires |a| == |events|
    requires forall i :: 0 <= i < |a| ==> a[i].payload == PayloadOf(k, events[i], isSnapshot)
    ensures PayloadsOf(a, k) == Payloads(k, events, isSnapshot)
    decreases |a|
  {
    if a != [] {
      PayloadsAll(a[..|a| - 1], k, events[..|a| - 1], isSnapshot);
    }
  }

  lemma FanOutPayload(subscriptions: seq<Subscription>, e: ArchiveEvent, k: SubscriptionId)
    requires k < |subscriptions|
    ensures PayloadsOf(FanOut(subscriptions, e), k) == [PayloadOf(k, e, false)]
  {
    var rows := FanOut(subscriptions, e);
    assert rows == rows[..k] + [rows[k]] + rows[k + 1..];
    PayloadsNone(rows[..k], k);
    PayloadsNone(rows[k + 1..], k);
    PayloadsAppend(rows[..k] + [rows[k]], rows[k + 1..], k);
    PayloadsAppend(rows[..k], [rows[k]], k);
  }

  // ---------- Owed for every event ----------

  /** Between two states the subscription gained one row per new event, in order, and lost none. */
  predicate Owes(s: Store, t: Store, k: SubscriptionId) {
    && s.events <= t.events
    && |s.subscriptions| <= |t.subscriptions|
    && PayloadsOf(t.deliveries, k) == PayloadsOf(s.deliveries, k) + Payloads(k, t.events[|s.events|..], false)
  }

  lemma OwesIsTransitive(s: Store, t: Store, u: Store, k: SubscriptionId)
    requires Owes(s, t, k) && Owes(t, u, k)
    ensures Owes(s, u, k)
  {
    var a, b := t.events[|s.events|..], u.events[|t.events|..];
    assert u.events[|s.events|..] == a + b;
    assert Payloads(k, a + b, false) == Payloads(k, a, false) + Payloads(k, b, false);
  }

  lemma SamePayloadsOwe(s: Store, t: Store, k: SubscriptionId)
    requires t.events == s.events && |s.subscriptions| <= |t.subscriptions|
    requires |s.deliveries| <= |t.deliveries|
    requires forall i :: 0 <= i < |s.deliveries| ==> t.deliveries[i].payload == s.deliveries[i].payload
    requires forall i :: |s.deliveries| <= i < |t.deliveries| ==> !Mine(t.deliveries[i], k)
    ensures Owes(s, t, k)
  {
    var n := |s.deliveries|;
    assert t.deliveries == t.deliveries[..n] + t.deliveries[n..];
    PayloadsAppend(t.deliveries[..n], t.deliveries[n..], k);
    PayloadsSame(s.deliveries, t.deliveries[..n], k);
    PayloadsNone(t.deliveries[n..], k);
  }

  lemma TransitionOwes(s: Store, r: RecordId, kind: EventKind, revisionId: Option<RevisionId>,
                       location: LogicalLocation, state: RecordState, nowMs: Millis, k: SubscriptionId)
    requires r < |s.records| && k < |s.subscriptions|
    ensures Owes(s, Transition(s, r, kind, revisionId, location, state, nowMs), k)
  {
    var t := Transition(s, r, kind, revisionId, location, state, nowMs);
    var e := NextEvent(s, r, kind, revisionId, location, nowMs);
    PayloadsAppend(s.deliveries, FanOut(s.subscriptions, e), k);
    FanOutPayload(s.subscriptions, e, k);
    assert t.events[|s.events|..] == [e];
    assert Payloads(k, [e], false) == [PayloadOf(k, e, false)];
  }

  lemma CommitOwes(s: Store, r: RecordId, location: LogicalLocation, revision: CanonicalRevision, nowMs: Millis,
                   k: SubscriptionId)
    requires r < |s.records| && k < |s.subscriptions|
    ensures Owes(s, CommitObserved(s, r, location, revision, nowMs), k)
  {
    var (mid, id) := EnsureRevision(s, r, revision);
    SamePayloadsOwe(s, mid, k);
    var t := CommitObserved(s, r, location, revision, nowMs);
    if RevisionOf(s.revisions, s.records[r].currentRevisionId) != Some(revision) {
      TransitionOwes(mid, r, RevisionCommitted, Some(id), location, Active, nowMs, k);
      OwesIsTransitive(s, mid, t, k);
    } else if s.records[r].location != location {
      TransitionOwes(mid, r, LocationChanged, mid.records[r].currentRevisionId, location, Active, nowMs, k);
      OwesIsTransitive(s, mid, t, k);
    }
  }

  lemma ObserveOwes(s: Store, identity: RecordIdentity, location: LogicalLocation, revision: CanonicalRevision,
                    nowMs: Millis, k: SubscriptionId)
    requires k < |s.subscriptions|
    ensures Owes(s, ObservePresent(s, identity, location, revision, nowMs), k)
  {
    var (admitted, r) := AdmitRecord(s, identity, location);
    SamePayloadsOwe(s, admitted, k);
    var restored := RestoreIfTombstoned(admitted, r, location, nowMs);
    if admitted.records[r].state == Tombstoned {
      TransitionOwes(admitted, r, RecordRestored, admitted.records[r].currentRevisionId, location, Active, nowMs, k);
    } else {
      SamePayloadsOwe(admitted, restored, k);
    }
    OwesIsTransitive(s, admitted, restored, k);
    CommitOwes(restored, r, location, revision, nowMs, k);
    OwesIsTransitive(s, restored, CommitObserved(restored, r, location, revision, nowMs), k);
  }

  lemma TombstoneOwes(s: Store, r: RecordId, nowMs: Millis, k: SubscriptionId)
    requires r < |s.records| && k < |s.subscriptions|
    ensures Owes(s, TombstoneRecord(s, r, nowMs), k)
  {
    if s.records[r].state == Active {
      TransitionOwes(s, r, RecordTombstoned, s.records[r].currentRevisionId, s.records[r].location,
                     Tombstoned, nowMs, k);
    } else {
      SamePayloadsOwe(s, s, k);
    }
  }

  lemma ApplyOwes(s: Store, op: Op, k: SubscriptionId)
    requires k < |s.subscriptions|
    ensures Owes(s, Apply(s, op), k)
  {
    match op
    case Observe(identity, location, revision, nowMs) => ObserveOwes(s, identity, location, revision, nowMs, k);
    case Tombstone(identity, nowMs) =>
      var found := FindRecord(s.records, identity);
      if found.Some? {
        TombstoneOwes(s, found.value, nowMs, k);
      } else {
        SamePayloadsOwe(s, s, k);
      }
    case Lease(l, nowMs, durationMs) =>
      LeaseNextCases(s, l, nowMs, durationMs);
      SamePayloadsOwe(s, Apply(s, op), k);
    case _ => SamePayloadsOwe(s, Apply(s, op), k);
  }

  lemma {:induction false} RunOwes(s: Store, ops: seq<Op>, k: SubscriptionId)
    requires k < |s.subscriptions|
    ensures Owes(s, Run(s, ops), k)
    decreases |ops|
  {
    if ops == [] {
      SamePayloadsOwe(s, s, k);
    } else {
      ApplyOwes(s, ops[0], k);
      RunOwes(Apply(s, ops[0]), ops[1..], k);
      OwesIsTransitive(s, Apply(s, ops[0]), Run(s, ops), k);
    }
  }

  /** A successful creation, seen from the state it leaves. */
  predicate Created(s: Store, config: SubscriptionConfig, mode: SubscriptionMode, nowMs: Millis) {
    CreateSubscription(s, config, mode, nowMs).1.Ok?
  }

  lemma CreationPayloads(s: Store, config: SubscriptionConfig, mode: SubscriptionMode, nowMs: Millis)
    requires RowsOk(s) && Created(s, config, mode, nowMs)
    ensures var t := Apply(s, Create(config, mode, nowMs));
            && t.events == s.events && t.records == s.records && |t.subscriptions| == |s.subscriptions| + 1
            && PayloadsOf(t.deliveries, |s.subscriptions|)
               == Payloads(|s.subscriptions|, InitialEvents(s, config, mode, nowMs), mode == RebuildCurrent)
  {
    var k := |s.subscriptions|;
    forall i | 0 <= i < |s.deliveries| ensures !Mine(s.deliveries[i], k) {
      assert RowOk(s, s.deliveries[i]);
    }
    PayloadsNone(s.deliveries, k);
    var events := InitialEvents(s, config, mode, nowMs);
    var added := EnqueueAll(k, NewSubscription(config, mode), events, mode == RebuildCurrent);
    PayloadsAppend(s.deliveries, added, k);
    PayloadsAll(added, k, events, mode == RebuildCurrent);
  }

  /**
   * In every state after its creation, a replaying subscription has precisely one row for each event above its
   * start, and a rebuilding one has its snapshots followed by one row for each later event. The rows come in that
   * order, with the payload the event gave them.
   */
  lemma DeliveriesAreExactlyTheEventsOwed(s: Store, config: SubscriptionConfig, mode: SubscriptionMode, nowMs: Millis,
                                          more: seq<Op>)
    requires StoreInv(s) && Created(s, config, mode, nowMs)
    ensures var k := |s.subscriptions|;
            var t := Run(Apply(s, Create(config, mode, nowMs)), more);
            && s.events <= t.events
            && PayloadsOf(t.deliveries, k) == match mode
               case ReplayEvents => Payloads(k, t.events[Min(config.replayAfterSequence, |s.events|)..], false)
               case RebuildCurrent =>
                 Payloads(k, Snapshots(s.records, s.nextId, nowMs), true) + Payloads(k, t.events[|s.events|..], false)
  {
    var k := |s.subscriptions|;
    var created := Apply(s, Create(config, mode, nowMs));
    CreationPayloads(s, config, mode, nowMs);
    RunOwes(created, more, k);
    if mode == ReplayEvents {
      LedgerIsEnqueueable(s, config.replayAfterSequence);
      SuffixesJoin(k, s.events, Run(created, more).events, Min(config.replayAfterSequence, |s.events|));
    }
  }

  lemma SuffixesJoin(k: SubscriptionId, before: seq<ArchiveEvent>, after: seq<ArchiveEvent>, from: nat)
    requires before <= after && from <= |before|
    ensures Payloads(k, before[from..], false) + Payloads(k, after[|before|..], false) == Payloads(k, after[from..], false)
  {
    assert after[from..] == before[from..] + after[|before|..];
  }

  /** A new replaying epoch that accepts every kind drains its whole backlog, in sequence order. */
  lemma NewEpochDrainsInOrder(s: Store, config: SubscriptionConfig, createdMs: Millis, nowMs: Millis, durationMs: nat,
                              n: nat)
    requires StoreInv(s) && Created(s, config, ReplayEvents, createdMs)
    requires config.acceptsMoves && config.acceptsTombstones
    requires 0 <= nowMs && 0 < durationMs <= I64_MAX && nowMs + durationMs <= I64_MAX && |s.events| <= n
    ensures var k := |s.subscriptions|;
            var (t, delivered) := Drain(Apply(s, Create(config, ReplayEvents, createdMs)), k, nowMs, durationMs, n);
            && delivered == Payloads(k, s.events[Min(config.replayAfterSequence, |s.events|)..], false)
            && AllAcknowledged(t.deliveries, k)
  {
    var k := |s.subscriptions|;
    var created := Apply(s, Create(config, ReplayEvents, createdMs));
    ApplyKeepsStore(s, Create(config, ReplayEvents, createdMs));
    CreationPayloads(s, config, ReplayEvents, createdMs);
    LedgerIsEnqueueable(s, config.replayAfterSequence);
    NewEpochIsDrainable(s, config, createdMs, nowMs);
    QueuedPayloads(created.deliveries, k);
    DrainingIsTotalAndInOrder(created, k, nowMs, durationMs, n);
  }

  predicate Numbered(payload: DeliveryPayload, events: seq<ArchiveEvent>) {
    exists e :: 0 <= e < |events| && payload.eventSequence == Some(events[e].sequence)
  }

  predicate AllNumbered(deliveries: seq<Delivery>, k: SubscriptionId, events: seq<ArchiveEvent>) {
    forall i :: 0 <= i < |deliveries| && Mine(deliveries[i], k) ==> Numbered(deliveries[i].payload, events)
  }

  predicate SequencesAscend(events: seq<ArchiveEvent>) {
    forall i, j :: 0 <= i < j < |events| ==> events[i].sequence < events[j].sequence
  }

  lemma NumberedFurther(payload: DeliveryPayload, events: seq<ArchiveEvent>)
    requires events != [] && SequencesAscend(events) && Numbered(payload, events[..|events| - 1])
    ensures Numbered(payload, events) && payload.eventSequence.value < events[|events| - 1].sequence
  {
    var i :| 0 <= i < |events| - 1 && payload.eventSequence == Some(events[..|events| - 1][i].sequence);
    assert events[..|events| - 1][i] == events[i];
  }

  /** One more row, and perhaps one more event, keep the rows in sequence. */
  lemma {:induction false} NextRowIsInSequence(deliveries: seq<Delivery>, k: SubscriptionId, events: seq<ArchiveEvent>)
    requires deliveries != [] && Mine(deliveries[|deliveries| - 1], k) && events != [] && SequencesAscend(events)
    requires InSequence(deliveries[..|deliveries| - 1], k)
    requires AllNumbered(deliveries[..|deliveries| - 1], k, events[..|events| - 1])
    requires deliveries[|deliveries| - 1].payload.eventSequence == Some(events[|events| - 1].sequence)
    ensures InSequence(deliveries, k) && AllNumbered(deliveries, k, events)
  {
    var n := |deliveries| - 1;
    forall i | 0 <= i < n && Mine(deliveries[i], k)
      ensures Numbered(deliveries[i].payload, events)
      ensures deliveries[i].payload.eventSequence.value < events[|events| - 1].sequence
    {
      assert deliveries[..n][i] == deliveries[i];
      NumberedFurther(deliveries[i].payload, events);
    }
    forall i, j | 0 <= i < j < n && Mine(deliveries[i], k) && Mine(deliveries[j], k)
      ensures deliveries[i].payload.eventSequence.value < deliveries[j].payload.eventSequence.value
    {
      assert deliveries[..n][i] == deliveries[i] && deliveries[..n][j] == deliveries[j];
    }
  }

  lemma {:induction false} OtherRowIsInSequence(deliveries: seq<Delivery>, k: SubscriptionId, events: seq<ArchiveEvent>)
    requires deliveries != [] && !Mine(deliveries[|deliveries| - 1], k)
    requires InSequence(deliveries[..|deliveries| - 1], k) && AllNumbered(deliveries[..|deliveries| - 1], k, events)
    ensures InSequence(deliveries, k) && AllNumbered(deliveries, k, events)
  {
    var n := |deliveries| - 1;
    assert forall i :: 0 <= i < n ==> deliveries[..n][i] == deliveries[i];
  }

  lemma {:induction false} LastPayload(deliveries: seq<Delivery>, k: SubscriptionId, events: seq<ArchiveEvent>)
    requires deliveries != [] && Mine(deliveries[|deliveries| - 1], k)
    requires PayloadsOf(deliveries, k) == Payloads(k, events, false)
    ensures events != []
    ensures PayloadsOf(deliveries[..|deliveries| - 1], k) == Payloads(k, events[..|events| - 1], false)
    ensures deliveries[|deliveries| - 1].payload.eventSequence == Some(events[|events| - 1].sequence)
  {
    var n, m := |deliveries| - 1, |events| - 1;
    assert Payloads(k, events, false)[m] == deliveries[n].payload;
    assert PayloadsOf(deliveries[..n], k) == PayloadsOf(deliveries, k)[..m];
    assert Payloads(k, events, false)[..m] == Payloads(k, events[..m], false);
  }

  /** Rows whose payloads are those of a stretch of the ledger come in the ledger's order. */
  lemma {:induction false} LedgerRowsAreInSequence(deliveries: seq<Delivery>, k: SubscriptionId, events: seq<ArchiveEvent>)
    requires PayloadsOf(deliveries, k) == Payloads(k, events, false) && SequencesAscend(events)
    ensures InSequence(deliveries, k) && AllNumbered(deliveries, k, events)
    decreases |deliveries|
  {
    if deliveries != [] {
      var n := |deliveries| - 1;
      if Mine(deliveries[n], k) {
        LastPayload(deliveries, k, events);
        LedgerRowsAreInSequence(deliveries[..n], k, events[..|events| - 1]);
        NextRowIsInSequence(deliveries, k, events);
      } else {
        LedgerRowsAreInSequence(deliveries[..n], k, events);
        OtherRowIsInSequence(deliveries, k, events);
      }
    }
  }

  /**
   * At any later moment at which a replaying subscription is enabled and none of its rows is leased, waiting or a
   * barrier, leasing and acknowledging delivers exactly its queued events, once each, in sequence order.
   */
  lemma ReadyReplaysDrainInOrder(s: Store, config: SubscriptionConfig, createdMs: Millis, more: seq<Op>, nowMs: Millis,
                                 durationMs: nat, n: nat)
    requires StoreInv(s) && Created(s, config, ReplayEvents, createdMs)
    requires 0 < durationMs <= I64_MAX && nowMs + durationMs <= I64_MAX
    requires var t := Run(Apply(s, Create(config, ReplayEvents, createdMs)), more);
             ReadyRows(t, |s.subscriptions|, nowMs) && |Backlog(t.deliveries, |s.subscriptions|)| <= n
    ensures var k := |s.subscriptions|;
            var t := Run(Apply(s, Create(config, ReplayEvents, createdMs)), more);
            var (drained, delivered) := Drain(t, k, nowMs, durationMs, n);
            && InSequence(t.deliveries, k)
            && delivered == Backlog(t.deliveries, k)
            && FullyDrained(t.deliveries, drained.deliveries, k)
  {
    var k := |s.subscriptions|;
    var created := Apply(s, Create(config, ReplayEvents, createdMs));
    var t := Run(created, more);
    ApplyKeepsStore(s, Create(config, ReplayEvents, createdMs));
    RunKeepsStore(created, more);
    DeliveriesAreExactlyTheEventsOwed(s, config, ReplayEvents, createdMs, more);
    StretchIsInSequence(t, Min(config.replayAfterSequence, |s.events|));
    LedgerRowsAreInSequence(t.deliveries, k, t.events[Min(config.replayAfterSequence, |s.events|)..]);
    DrainingIsTotalAndInOrder(t, k, nowMs, durationMs, n);
  }

  lemma StretchIsInSequence(s: Store, from: nat)
    requires LedgerInv(s) && from <= |s.events|
    ensures SequencesAscend(s.events[from..])
  {
    forall i, j | 0 <= i < j < |s.events[from..]|
      ensures s.events[from..][i].sequence < s.events[from..][j].sequence
    {
      assert EventOk(s, from + i) && EventOk(s, from + j);
    }
  }

  /** The rows a creation adds, by their place among its initial events. */
  lemma NewRowsAreAt(s: Store, config: SubscriptionConfig, mode: SubscriptionMode, nowMs: Millis, i: nat)
    requires Created(s, config, mode, nowMs) && i < |InitialEvents(s, config, mode, nowMs)|
    ensures var t := Apply(s, Create(config, mode, nowMs));
            && t.records == s.records
            && |s.deliveries| + i < |t.deliveries|
            && t.deliveries[|s.deliveries| + i]
               == NewDelivery(|s.subscriptions|, NewSubscription(config, mode), InitialEvents(s, config, mode, nowMs)[i],
                              mode == RebuildCurrent)
  {
  }

  lemma NewRowsAreLast(s: Store, config: SubscriptionConfig, mode: SubscriptionMode, nowMs: Millis, i: DeliveryId)
    requires RowsOk(s) && Created(s, config, mode, nowMs)
    requires i < |Apply(s, Create(config, mode, nowMs)).deliveries|
    requires Mine(Apply(s, Create(config, mode, nowMs)).deliveries[i], |s.subscriptions|)
    ensures |s.deliveries| <= i < |s.deliveries| + |InitialEvents(s, config, mode, nowMs)|
  {
    assert i < |s.deliveries| ==> RowOk(s, s.deliveries[i]);
  }

  lemma NewEpochRows(s: Store, config: SubscriptionConfig, createdMs: Millis, i: DeliveryId)
    requires StoreInv(s) && Created(s, config, ReplayEvents, createdMs)
    requires i < |Apply(s, Create(config, ReplayEvents, createdMs)).deliveries|
    requires Mine(Apply(s, Create(config, ReplayEvents, createdMs)).deliveries[i], |s.subscriptions|)
    ensures var from := Min(config.replayAfterSequence, |s.events|);
            && |s.deliveries| <= i && from + (i - |s.deliveries|) < |s.events|
            && var e := s.events[from + (i - |s.deliveries|)];
            && e.sequence == from + (i - |s.deliveries|) + 1
            && Apply(s, Create(config, ReplayEvents, createdMs)).deliveries[i]
               == NewDelivery(|s.subscriptions|, NewSubscription(config, ReplayEvents), e, false)
  {
    NewRowsAreLast(s, config, ReplayEvents, createdMs, i);
    NewRowsAreAt(s, config, ReplayEvents, createdMs, i - |s.deliveries|);
    BacklogAt(s, config.replayAfterSequence, i - |s.deliveries|);
  }

  lemma BacklogAt(s: Store, after: nat, n: nat)
    requires StoreInv(s) && n < |EventsAfter(s.events, after)|
    ensures var at := Min(after, |s.events|) + n;
            at < |s.events| && s.events[at].sequence == at + 1 && EventsAfter(s.events, after)[n] == s.events[at]
  {
    LedgerIsEnqueueable(s, after);
    assert EventOk(s, Min(after, |s.events|) + n);
  }

  lemma NewEpochIsDrainable(s: Store, config: SubscriptionConfig, createdMs: Millis, nowMs: Millis)
    requires StoreInv(s) && Created(s, config, ReplayEvents, createdMs)
    requires config.acceptsMoves && config.acceptsTombstones && 0 <= nowMs
    ensures var created := Apply(s, Create(config, ReplayEvents, createdMs));
            && Drainable(created, |s.subscriptions|, nowMs)
            && AllQueued(created.deliveries, |s.subscriptions|)
  {
    var k := |s.subscriptions|;
    var created := Apply(s, Create(config, ReplayEvents, createdMs));
    forall i | 0 <= i < |created.deliveries| && Mine(created.deliveries[i], k)
      ensures |s.deliveries| <= i && created.deliveries[i].state == Queued
      ensures created.deliveries[i].notBeforeMs == 0 && created.deliveries[i].attempts == 0
      ensures created.deliveries[i].payload.eventSequence
              == Some(Min(config.replayAfterSequence, |s.events|) + (i - |s.deliveries|) + 1)
    {
      NewEpochRows(s, config, createdMs, i);
    }
    assert created.subscriptions[k] == NewSubscription(config, ReplayEvents);
  }

  predicate AllQueued(deliveries: seq<Delivery>, k: SubscriptionId) {
    forall i :: 0 <= i < |deliveries| && Mine(deliveries[i], k) ==> deliveries[i].state == Queued
  }

  lemma {:induction false} QueuedPayloads(deliveries: seq<Delivery>, k: SubscriptionId)
    requires AllQueued(deliveries, k)
    ensures Backlog(deliveries, k) == PayloadsOf(deliveries, k)
    decreases |deliveries|
  {
    if deliveries != [] {
      QueuedPayloads(deliveries[..|deliveries| - 1], k);
    }
  }

  // ---------- A consumer that applies what it acknowledges ----------

  datatype Held = Held(recordVersion: nat, revisionId: Option<RevisionId>, location: Option<LogicalLocation>)

  type View = map<RecordId, Held>

  function Consume(view: View, p: DeliveryPayload): View {
    if p.kind == RecordTombstoned then view - {p.recordId}
    else view[p.recordId := Held(p.recordVersion, p.revisionId, p.location)]
  }

  predicate Acknowledges(s: Store, op: Op, k: SubscriptionId) {
    && op.Settle? && op.outcome == OutcomeAcknowledged && HoldsLease(s.deliveries, op.lease, op.nowMs)
    && Mine(s.deliveries[op.lease.deliveryId], k)
  }

  /** The consumer's picture after one transaction: it moves only when a delivery of its own is acknowledged. */
  function Track(s: Store, view: View, op: Op, k: SubscriptionId): View {
    if Acknowledges(s, op, k) then Consume(view, s.deliveries[op.lease.deliveryId].payload) else view
  }

  function TrackRun(s: Store, view: View, ops: seq<Op>, k: SubscriptionId): View
    decreases |ops|
  {
    if ops == [] then view else TrackRun(Apply(s, ops[0]), Track(s, view, ops[0], k), ops[1..], k)
  }

  predicate Acked(s: Store, i: DeliveryId, k: SubscriptionId) {
    i < |s.deliveries| && Mine(s.deliveries[i], k) && s.deliveries[i].state == Acknowledged
  }

  predicate Reflects(view: View, p: DeliveryPayload) {
    if p.kind == RecordTombstoned then p.recordId !in view
    else p.recordId in view && view[p.recordId] == Held(p.recordVersion, p.revisionId, p.location)
  }

  /** Row `i` is the highest acknowledged version of its record. */
  predicate LatestAcked(s: Store, i: DeliveryId, k: SubscriptionId) {
    && Acked(s, i, k)
    && forall j :: 0 <= j < |s.deliveries| && Acked(s, j, k) ==>
         s.deliveries[j].payload.recordId == s.deliveries[i].payload.recordId ==>
           s.deliveries[j].payload.recordVersion <= s.deliveries[i].payload.recordVersion
  }

  predicate Grounded(s: Store, k: SubscriptionId, r: RecordId) {
    exists i :: 0 <= i < |s.deliveries| && Acked(s, i, k) && s.deliveries[i].payload.recordId == r
  }

  predicate ViewOk(s: Store, view: View, k: SubscriptionId) {
    && (forall i :: 0 <= i < |s.deliveries| && LatestAcked(s, i, k) ==> Reflects(view, s.deliveries[i].payload))
    && (forall r :: r in view ==> Grounded(s, k, r))
  }

  /** Only an acknowledging settlement adds an acknowledged row, and it adds just the one. */
  lemma OnlySettlingAcknowledges(s: Store, op: Op, k: SubscriptionId, i: DeliveryId)
    requires StoreInv(s) && Acked(Apply(s, op), i, k)
    ensures i < |s.deliveries| && s.deliveries[i].payload == Apply(s, op).deliveries[i].payload
    ensures Acked(s, i, k) || (Acknowledges(s, op, k) && op.lease.deliveryId == i)
  {
    if op.Observe? {
      OnlyLeasingCountsAttempts(s, op);
      ApplyKeepsStore(s, op);
      assert RowOk(Apply(s, op), Apply(s, op).deliveries[i]);
      ObserveKeepsStates(s, op, i);
    } else {
      OtherOpsAcknowledgeNothing(s, op, k, i);
    }
  }

  lemma OtherOpsAcknowledgeNothing(s: Store, op: Op, k: SubscriptionId, i: DeliveryId)
    requires !op.Observe? && Acked(Apply(s, op), i, k)
    ensures i < |s.deliveries| && s.deliveries[i].payload == Apply(s, op).deliveries[i].payload
    ensures Acked(s, i, k) || (Acknowledges(s, op, k) && op.lease.deliveryId == i)
  {
    if op.Lease? {
      LeaseNextCases(s, op.k, op.nowMs, op.durationMs);
    }
  }

  lemma ObserveKeepsStates(s: Store, op: Op, i: DeliveryId)
    requires op.Observe? && i < |s.deliveries|
    ensures i < |Apply(s, op).deliveries| && Apply(s, op).deliveries[i] == s.deliveries[i]
  {
    var (admitted, r) := AdmitRecord(s, op.identity, op.location);
    var restored := RestoreIfTombstoned(admitted, r, op.location, op.nowMs);
    assert OnlyAppends(s, restored);
    CommitOnlyAppends(restored, r, op.location, op.revision, op.nowMs);
  }

  lemma AckedRowsStay(s: Store, t: Store, k: SubscriptionId, i: DeliveryId)
    requires Evolves(s, t) && Acked(s, i, k)
    ensures Acked(t, i, k) && t.deliveries[i] == s.deliveries[i]
  {
    assert RowEvolves(s.deliveries[i], t.deliveries[i], s.nextId);
  }

  /** A row that is latest after a step was latest before it, unless the step acknowledged its record. */
  lemma LatestBefore(s: Store, t: Store, k: SubscriptionId, i: DeliveryId)
    requires Evolves(s, t) && Acked(s, i, k) && LatestAcked(t, i, k)
    ensures LatestAcked(s, i, k) && t.deliveries[i] == s.deliveries[i]
  {
    AckedRowsStay(s, t, k, i);
    forall j | 0 <= j < |s.deliveries| && Acked(s, j, k)
      ensures s.deliveries[j].payload.recordId == s.deliveries[i].payload.recordId ==>
                s.deliveries[j].payload.recordVersion <= s.deliveries[i].payload.recordVersion
    {
      AckedRowsStay(s, t, k, j);
    }
  }

  lemma StaysGrounded(s: Store, t: Store, k: SubscriptionId, r: RecordId)
    requires Evolves(s, t) && Grounded(s, k, r)
    ensures Grounded(t, k, r)
  {
    var i :| 0 <= i < |s.deliveries| && Acked(s, i, k) && s.deliveries[i].payload.recordId == r;
    AckedRowsStay(s, t, k, i);
  }

  lemma SilentStepKeepsView(s: Store, t: Store, view: View, k: SubscriptionId)
    requires Evolves(s, t) && ViewOk(s, view, k)
    requires forall i: DeliveryId :: Acked(t, i, k) ==> Acked(s, i, k)
    ensures ViewOk(t, view, k)
  {
    forall i | 0 <= i < |t.deliveries| && LatestAcked(t, i, k)
      ensures Reflects(view, t.deliveries[i].payload)
    {
      LatestBefore(s, t, k, i);
    }
    forall r | r in view ensures Grounded(t, k, r) {
      StaysGrounded(s, t, k, r);
    }
  }

  lemma AcknowledgedIsLatest(s: Store, k: SubscriptionId, a: DeliveryId, j: DeliveryId)
    requires QueueOk(s) && a < |s.deliveries| && Mine(s.deliveries[a], k) && s.deliveries[a].state == Leased
    requires Acked(s, j, k) && s.deliveries[j].payload.recordId == s.deliveries[a].payload.recordId
    ensures s.deliveries[j].payload.recordVersion < s.deliveries[a].payload.recordVersion
  {
    assert RowOk(s, s.deliveries[j]);
    assert a < j ==> PairOk(s.deliveries[a], s.deliveries[j]);
    assert j < a ==> PairOk(s.deliveries[j], s.deliveries[a]);
  }

  lemma AckStepKeepsView(s: Store, t: Store, view: View, k: SubscriptionId, a: DeliveryId)
    requires QueueOk(s) && Evolves(s, t) && ViewOk(s, view, k)
    requires a < |s.deliveries| && Mine(s.deliveries[a], k) && s.deliveries[a].state == Leased
    requires Acked(t, a, k) && t.deliveries[a].payload == s.deliveries[a].payload
    requires forall i: DeliveryId :: Acked(t, i, k) ==> i == a || Acked(s, i, k)
    ensures ViewOk(t, Consume(view, s.deliveries[a].payload), k)
  {
    var p := s.deliveries[a].payload;
    var after := Consume(view, p);
    forall i | 0 <= i < |t.deliveries| && LatestAcked(t, i, k)
      ensures Reflects(after, t.deliveries[i].payload)
    {
      if i != a {
        LatestBefore(s, t, k, i);
        if s.deliveries[i].payload.recordId == p.recordId {
          AcknowledgedIsLatest(s, k, a, i);
        }
      }
    }
    forall r | r in after ensures Grounded(t, k, r) {
      if r != p.recordId {
        StaysGrounded(s, t, k, r);
      }
    }
  }

  lemma TrackKeepsView(s: Store, view: View, op: Op, k: SubscriptionId)
    requires StoreInv(s) && ViewOk(s, view, k)
    ensures ViewOk(Apply(s, op), Track(s, view, op, k), k)
  {
    var t := Apply(s, op);
    ApplyKeepsStore(s, op);
    forall i: DeliveryId | Acked(t, i, k)
      ensures Acked(s, i, k) || (Acknowledges(s, op, k) && op.lease.deliveryId == i)
    {
      OnlySettlingAcknowledges(s, op, k, i);
    }
    if Acknowledges(s, op, k) {
      AckStepKeepsView(s, t, view, k, op.lease.deliveryId);
    } else {
      SilentStepKeepsView(s, t, view, k);
    }
  }

  lemma {:induction false} TrackRunKeepsView(s: Store, view: View, ops: seq<Op>, k: SubscriptionId)
    requires StoreInv(s) && ViewOk(s, view, k)
    ensures ViewOk(Run(s, ops), TrackRun(s, view, ops, k), k)
    decreases |ops|
  {
    if ops != [] {
      TrackKeepsView(s, view, ops[0], k);
      ApplyKeepsStore(s, ops[0]);
      TrackRunKeepsView(Apply(s, ops[0]), Track(s, view, ops[0], k), ops[1..], k);
    }
  }
}
