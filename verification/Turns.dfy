/** The turns of a controlled run: what each does to the catalog, and what the report says of it. */
module Turns {
  import opened Wrappers
  import opened Domain
  import opened Tables
  import opened Queue

  datatype UnavailablePayloadPolicy = RetryUnavailable | BlockUnavailable

  datatype RunLimitFields = RunLimitFields(
    maxDeliveries: nat,
    maxPayloadBytes: nat,
    leaseDurationMs: nat,
    unavailablePayloadPolicy: UnavailablePayloadPolicy)

  /** What `ControlledRunLimits::new` lets through. */
  type ControlledRunLimits = l: RunLimitFields |
    0 < l.maxDeliveries && 0 < l.leaseDurationMs && l.maxPayloadBytes <= U64_MAX
    witness RunLimitFields(1, 0, 1, RetryUnavailable)

  datatype AttemptOutcome =
    | Settled(outcome: DeliveryOutcome)
    | Retried
    | BlockedByPayload
    | DeferredByByteBudget

  datatype ControlledDeliveryAttempt = ControlledDeliveryAttempt(
    eventId: Uuid,
    recordId: RecordId,
    recordVersion: nat,
    outcome: AttemptOutcome)

  datatype ControlledRunReport = ControlledRunReport(attempts: seq<ControlledDeliveryAttempt>, payloadBytesAdmitted: nat)

  function BytesOf(lease: DeliveryLease): nat {
    if lease.revision.Some? then lease.revision.value.byteLength else 0
  }

  /** The bytes of the deliveries a report settled. */
  function SettledBytes(leases: seq<DeliveryLease>, attempts: seq<ControlledDeliveryAttempt>): nat
    requires |leases| == |attempts|
  {
    if attempts == [] then 0
    else
      var n := |attempts| - 1;
      SettledBytes(leases[..n], attempts[..n]) + if attempts[n].outcome.Settled? then BytesOf(leases[n]) else 0
  }

  // ---------- One turn ----------

  /** What became of a lease in hand. */
  predicate ReleaseIs(s: Store, t: Store, lease: DeliveryLease, outcome: AttemptOutcome, nowMs: Millis) {
    match outcome
    case Settled(o) => SettleDelivery(s, lease, o, nowMs) == (t, Ok(()))
    case BlockedByPayload => BlockDelivery(s, lease, nowMs) == (t, Ok(()))
    case Retried => RetryDelivery(s, lease, nowMs) == (t, Ok(()))
    case DeferredByByteBudget => RetryDelivery(s, lease, nowMs) == (t, Ok(()))
  }

  /** A lease was granted at this instant, and this became of it. */
  predicate TurnIs(s: Store, t: Store, k: SubscriptionId, lease: DeliveryLease, outcome: AttemptOutcome, nowMs: Millis,
                   durationMs: nat)
  {
    var (held, granted) := LeaseNext(s, k, nowMs, durationMs);
    && granted == Ok(Some(lease)) && ReleaseIs(held, t, lease, outcome, nowMs)
  }

  /** The same rows for the same events, whatever their states. */
  predicate SameRows(s: Store, t: Store) {
    && |t.deliveries| == |s.deliveries| && t.revisions == s.revisions && t.subscriptions == s.subscriptions
    && t.records == s.records && t.events == s.events
    && forall i :: 0 <= i < |s.deliveries| ==> t.deliveries[i].payload == s.deliveries[i].payload
  }

  /** No row of another subscription moved. */
  predicate OthersStand(s: Store, t: Store, k: SubscriptionId) {
    && |t.deliveries| == |s.deliveries|
    && forall i :: 0 <= i < |s.deliveries| && s.deliveries[i].payload.subscriptionId != k ==>
         t.deliveries[i] == s.deliveries[i]
  }

  predicate IsAcked(s: Store, i: DeliveryId) {
    i < |s.deliveries| && s.deliveries[i].state == Acknowledged
  }

  /** The lease speaks for a row of the subscription that carries bytes and was not acknowledged. */
  predicate SpeaksFor(s: Store, k: SubscriptionId, lease: DeliveryLease) {
    && lease.deliveryId < |s.deliveries| && !IsAcked(s, lease.deliveryId)
    && var p := s.deliveries[lease.deliveryId].payload;
    && lease.payload == p && p.subscriptionId == k
    && p.revisionId.Some? && p.revisionId.value < |s.revisions|
    && lease.revision == Some(s.revisions[p.revisionId.value].revision)
  }

  /** What the row of a lease shows after its turn. */
  predicate Shown(d: Delivery, outcome: AttemptOutcome) {
    match outcome
    case Settled(o) => o == OutcomeAcknowledged && d.state == Acknowledged
    case BlockedByPayload => d.state == Blocked
    case _ => d.state == Queued || d.state == DeadLettered
  }

  predicate ShownLast(t: Store, lease: DeliveryLease, outcome: AttemptOutcome) {
    lease.deliveryId < |t.deliveries| && Shown(t.deliveries[lease.deliveryId], outcome)
  }

  /** Acknowledged after, if acknowledged before or settled in this turn. */
  predicate AcksOnly(s: Store, t: Store, lease: DeliveryLease, outcome: AttemptOutcome) {
    forall i :: 0 <= i < |t.deliveries| ==>
      (IsAcked(t, i) <==> IsAcked(s, i) || (i == lease.deliveryId && outcome.Settled?))
  }

  /** A delivery with bytes is settled as acknowledged, one without as ignored. */
  predicate SettledAsReceipted(lease: DeliveryLease, outcome: AttemptOutcome) {
    outcome.Settled? ==> outcome.outcome == if lease.revision.Some? then OutcomeAcknowledged else OutcomeIgnoredByPolicy
  }

  lemma ExpiryAcksNothing(s: Store, k: SubscriptionId, nowMs: Millis)
    requires k < |s.subscriptions|
    ensures var t := Expire(s, k, nowMs);
            && SameRows(s, t) && OthersStand(s, t, k)
            && forall i :: 0 <= i < |t.deliveries| ==> (IsAcked(t, i) <==> IsAcked(s, i))
  {
  }

  lemma GrantKeepsAcks(s: Store, t: Store, k: SubscriptionId, lease: DeliveryLease, nowMs: Millis, durationMs: nat)
    requires LeaseNext(s, k, nowMs, durationMs) == (t, Ok(Some(lease)))
    ensures SameRows(s, t) && OthersStand(s, t, k)
    ensures lease.deliveryId < |s.deliveries| && !IsAcked(s, lease.deliveryId)
    ensures var p := s.deliveries[lease.deliveryId].payload;
            lease.payload == p && p.subscriptionId == k && lease.revision == RevisionOf(s.revisions, p.revisionId)
    ensures forall i :: 0 <= i < |t.deliveries| ==> (IsAcked(t, i) <==> IsAcked(s, i))
  {
    LeaseNextCases(s, k, nowMs, durationMs);
    ExpiryAcksNothing(s, k, nowMs);
  }

  lemma GrantSpeaksForRow(s: Store, t: Store, k: SubscriptionId, lease: DeliveryLease, nowMs: Millis, durationMs: nat)
    requires StoreInv(s) && LeaseNext(s, k, nowMs, durationMs) == (t, Ok(Some(lease)))
    ensures StoreInv(t) && SpeaksFor(s, k, lease)
  {
    ApplyKeepsStore(s, Lease(k, nowMs, durationMs));
    GrantKeepsAcks(s, t, k, lease, nowMs, durationMs);
    assert RowOk(s, s.deliveries[lease.deliveryId]);
  }

  function ReleaseOp(lease: DeliveryLease, outcome: AttemptOutcome, nowMs: Millis): Op {
    match outcome
    case Settled(o) => Settle(lease, o, nowMs)
    case BlockedByPayload => Block(lease, nowMs)
    case _ => Retry(lease, nowMs)
  }

  lemma ReleaseIsOp(s: Store, t: Store, lease: DeliveryLease, outcome: AttemptOutcome, nowMs: Millis)
    requires ReleaseIs(s, t, lease, outcome, nowMs)
    ensures t == Apply(s, ReleaseOp(lease, outcome, nowMs))
  {
  }

  lemma ReleaseKeepsStore(s: Store, t: Store, lease: DeliveryLease, outcome: AttemptOutcome, nowMs: Millis)
    requires StoreInv(s) && ReleaseIs(s, t, lease, outcome, nowMs)
    ensures StoreInv(t)
  {
    ReleaseIsOp(s, t, lease, outcome, nowMs);
    ApplyKeepsStore(s, ReleaseOp(lease, outcome, nowMs));
  }

  lemma ReleaseAcksJustIt(s: Store, t: Store, lease: DeliveryLease, outcome: AttemptOutcome, nowMs: Millis)
    requires ReleaseIs(s, t, lease, outcome, nowMs)
    requires SettledAsReceipted(lease, outcome) && lease.revision.Some?
    ensures SameRows(s, t) && lease.deliveryId < |t.deliveries|
    ensures Shown(t.deliveries[lease.deliveryId], outcome) && AcksOnly(s, t, lease, outcome)
    ensures OthersStand(s, t, s.deliveries[lease.deliveryId].payload.subscriptionId)
  {
  }

  /** A turn acknowledges its own row if it settled it, and no other. */
  lemma TurnTakesEffect(s: Store, t: Store, k: SubscriptionId, lease: DeliveryLease, outcome: AttemptOutcome,
                        nowMs: Millis, durationMs: nat)
    requires StoreInv(s) && TurnIs(s, t, k, lease, outcome, nowMs, durationMs) && SettledAsReceipted(lease, outcome)
    ensures StoreInv(t) && SameRows(s, t) && OthersStand(s, t, k) && SpeaksFor(s, k, lease)
    ensures Shown(t.deliveries[lease.deliveryId], outcome) && AcksOnly(s, t, lease, outcome)
  {
    var held := LeaseNext(s, k, nowMs, durationMs).0;
    GrantSpeaksForRow(s, held, k, lease, nowMs, durationMs);
    GrantKeepsAcks(s, held, k, lease, nowMs, durationMs);
    ReleaseKeepsStore(held, t, lease, outcome, nowMs);
    ReleaseAcksJustIt(held, t, lease, outcome, nowMs);
  }

  // ---------- A whole run ----------

  /** Turn by turn, from the first store to the last. */
  predicate Turned(stores: seq<Store>, leases: seq<DeliveryLease>, attempts: seq<ControlledDeliveryAttempt>,
                   k: SubscriptionId, nowMs: Millis, durationMs: nat)
  {
    && |stores| == |leases| + 1 && |attempts| == |leases|
    && forall n :: 0 <= n < |leases| ==>
         && TurnIs(stores[n], stores[n + 1], k, leases[n], attempts[n].outcome, nowMs, durationMs)
         && SettledAsReceipted(leases[n], attempts[n].outcome)
  }

  /** Nothing more to lease at this instant: an expiry at most. */
  predicate NothingLeft(s: Store, t: Store, k: SubscriptionId, nowMs: Millis, durationMs: nat) {
    LeaseNext(s, k, nowMs, durationMs) == (t, Ok(None))
  }

  /** One of the first `n` attempts settled this row. */
  predicate SettledRow(leases: seq<DeliveryLease>, attempts: seq<ControlledDeliveryAttempt>, n: nat, i: DeliveryId)
    requires n <= |leases| == |attempts|
  {
    exists m :: 0 <= m < n && leases[m].deliveryId == i && attempts[m].outcome.Settled?
  }

  /** The rows a run acknowledged are just those it reports as settled. */
  predicate AcknowledgedTheSettled(s: Store, t: Store, leases: seq<DeliveryLease>,
                                   attempts: seq<ControlledDeliveryAttempt>, n: nat)
    requires n <= |leases| == |attempts|
  {
    && SameRows(s, t)
    && forall i :: 0 <= i < |t.deliveries| ==> (IsAcked(t, i) <==> IsAcked(s, i) || SettledRow(leases, attempts, n, i))
  }

  /** The length of the revision a row carries. */
  function RowBytes(s: Store, i: DeliveryId): nat
    requires i < |s.deliveries|
  {
    match s.deliveries[i].payload.revisionId
    case Some(id) => if id < |s.revisions| then s.revisions[id].revision.byteLength else 0
    case None => 0
  }

  /** The bytes of the rows, among the first `n`, that became acknowledged. */
  function NewlyAckedBytes(s: Store, t: Store, n: nat): nat
    requires n <= |s.deliveries| == |t.deliveries|
  {
    if n == 0 then 0
    else NewlyAckedBytes(s, t, n - 1) + if IsAcked(t, n - 1) && !IsAcked(s, n - 1) then RowBytes(s, n - 1) else 0
  }

  lemma {:induction false} OneMoreAcked(s: Store, t: Store, u: Store, n: nat, lease: DeliveryLease, outcome: AttemptOutcome)
    requires n <= |s.deliveries| == |t.deliveries| == |u.deliveries|
    requires AcksOnly(t, u, lease, outcome) && !IsAcked(t, lease.deliveryId) && lease.deliveryId < |s.deliveries|
    requires forall i :: 0 <= i < |s.deliveries| ==> IsAcked(s, i) ==> IsAcked(t, i)
    ensures NewlyAckedBytes(s, u, n)
            == NewlyAckedBytes(s, t, n)
               + if lease.deliveryId < n && outcome.Settled? then RowBytes(s, lease.deliveryId) else 0
    decreases n
  {
    if n > 0 {
      OneMoreAcked(s, t, u, n - 1, lease, outcome);
    }
  }

  lemma {:induction false} NoneAcked(s: Store, n: nat)
    requires n <= |s.deliveries|
    ensures NewlyAckedBytes(s, s, n) == 0
    decreases n
  {
    if n > 0 {
      NoneAcked(s, n - 1);
    }
  }

  /** The account of the first `n` turns, in the catalog's own rows. */
  predicate AccountsFor(s: Store, t: Store, k: SubscriptionId, leases: seq<DeliveryLease>,
                        attempts: seq<ControlledDeliveryAttempt>, n: nat)
    requires n <= |leases| == |attempts|
  {
    && OthersStand(s, t, k) && AcknowledgedTheSettled(s, t, leases, attempts, n)
    && (n > 0 ==> ShownLast(t, leases[n - 1], attempts[n - 1].outcome))
    && SettledBytes(leases[..n], attempts[..n]) == NewlyAckedBytes(s, t, |s.deliveries|)
  }

  lemma TurnAcknowledges(s: Store, t: Store, u: Store, leases: seq<DeliveryLease>,
                         attempts: seq<ControlledDeliveryAttempt>, n: nat)
    requires n < |leases| == |attempts| && AcknowledgedTheSettled(s, t, leases, attempts, n)
    requires SameRows(t, u) && AcksOnly(t, u, leases[n], attempts[n].outcome)
    ensures AcknowledgedTheSettled(s, u, leases, attempts, n + 1)
  {
    forall i | 0 <= i < |u.deliveries|
      ensures SettledRow(leases, attempts, n + 1, i)
              <==> SettledRow(leases, attempts, n, i) || (leases[n].deliveryId == i && attempts[n].outcome.Settled?)
    {
    }
  }

  lemma SettledBytesSnoc(leases: seq<DeliveryLease>, attempts: seq<ControlledDeliveryAttempt>, n: nat)
    requires n < |leases| == |attempts|
    ensures SettledBytes(leases[..n + 1], attempts[..n + 1])
            == SettledBytes(leases[..n], attempts[..n]) + if attempts[n].outcome.Settled? then BytesOf(leases[n]) else 0
  {
    assert leases[..n + 1][..n] == leases[..n] && attempts[..n + 1][..n] == attempts[..n];
  }

  lemma TurnAccounts(s: Store, t: Store, u: Store, leases: seq<DeliveryLease>, attempts: seq<ControlledDeliveryAttempt>,
                     n: nat, k: SubscriptionId, nowMs: Millis, durationMs: nat)
    requires n < |leases| == |attempts| && AccountsFor(s, t, k, leases, attempts, n) && StoreInv(t)
    requires TurnIs(t, u, k, leases[n], attempts[n].outcome, nowMs, durationMs)
    requires SettledAsReceipted(leases[n], attempts[n].outcome)
    ensures AccountsFor(s, u, k, leases, attempts, n + 1) && StoreInv(u)
  {
    TurnTakesEffect(t, u, k, leases[n], attempts[n].outcome, nowMs, durationMs);
    OneMoreAcked(s, t, u, |s.deliveries|, leases[n], attempts[n].outcome);
    SettledBytesSnoc(leases, attempts, n);
    TurnAcknowledges(s, t, u, leases, attempts, n);
  }

  /** After any run of turns from a sound catalog. */
  lemma {:induction false} TurnsAccount(stores: seq<Store>, leases: seq<DeliveryLease>,
                                        attempts: seq<ControlledDeliveryAttempt>, k: SubscriptionId, nowMs: Millis,
                                        durationMs: nat)
    requires Turned(stores, leases, attempts, k, nowMs, durationMs) && StoreInv(stores[0])
    ensures AccountsFor(stores[0], stores[|leases|], k, leases, attempts, |leases|) && StoreInv(stores[|leases|])
  {
    NoneAcked(stores[0], |stores[0].deliveries|);
    for n := 0 to |leases|
      invariant AccountsFor(stores[0], stores[n], k, leases, attempts, n) && StoreInv(stores[n])
    {
      TurnAccounts(stores[0], stores[n], stores[n + 1], leases, attempts, n, k, nowMs, durationMs);
    }
  }

  lemma {:induction false} SameAcksSameBytes(s: Store, t: Store, u: Store, n: nat)
    requires n <= |s.deliveries| == |t.deliveries| == |u.deliveries|
    requires forall i :: 0 <= i < |u.deliveries| ==> (IsAcked(u, i) <==> IsAcked(t, i))
    ensures NewlyAckedBytes(s, u, n) == NewlyAckedBytes(s, t, n)
    decreases n
  {
    if n > 0 {
      SameAcksSameBytes(s, t, u, n - 1);
    }
  }

  /** Asking once more at the same instant finds nothing again. */
  lemma NothingLeftStays(s: Store, t: Store, k: SubscriptionId, nowMs: Millis, durationMs: nat)
    requires NothingLeft(s, t, k, nowMs, durationMs)
    ensures NothingLeft(t, t, k, nowMs, durationMs)
  {
    if s.subscriptions[k].enabled {
      var policy := s.subscriptions[k].retryPolicy;
      assert t == Expire(s, k, nowMs);
      assert ExpireLeases(t.deliveries, k, policy, nowMs) == t.deliveries;
    }
  }

  lemma EndingKeepsRows(t: Store, u: Store, k: SubscriptionId, nowMs: Millis, durationMs: nat)
    requires NothingLeft(t, u, k, nowMs, durationMs)
    ensures SameRows(t, u) && OthersStand(t, u, k)
    ensures forall i :: 0 <= i < |u.deliveries| ==> (IsAcked(u, i) <==> IsAcked(t, i))
    ensures forall i :: 0 <= i < |u.deliveries| && t.deliveries[i].state != Leased ==> u.deliveries[i] == t.deliveries[i]
  {
    LeaseNextCases(t, k, nowMs, durationMs);
    ExpiryAcksNothing(t, k, nowMs);
  }

  lemma EndingIsLease(t: Store, u: Store, k: SubscriptionId, nowMs: Millis, durationMs: nat)
    requires NothingLeft(t, u, k, nowMs, durationMs)
    ensures u == Apply(t, Lease(k, nowMs, durationMs))
  {
  }

  lemma EndingKeepsStore(t: Store, u: Store, k: SubscriptionId, nowMs: Millis, durationMs: nat)
    requires StoreInv(t) && u == Apply(t, Lease(k, nowMs, durationMs))
    ensures StoreInv(u)
  {
    ApplyKeepsStore(t, Lease(k, nowMs, durationMs));
  }

  /** And that last question acknowledges nothing. */
  lemma EndingAcksNothing(s: Store, t: Store, u: Store, leases: seq<DeliveryLease>,
                          attempts: seq<ControlledDeliveryAttempt>, k: SubscriptionId, nowMs: Millis, durationMs: nat)
    requires |leases| == |attempts| && AccountsFor(s, t, k, leases, attempts, |leases|)
    requires NothingLeft(t, u, k, nowMs, durationMs)
    ensures AccountsFor(s, u, k, leases, attempts, |leases|)
  {
    EndingKeepsRows(t, u, k, nowMs, durationMs);
    SameAcksSameBytes(s, t, u, |s.deliveries|);
  }
}
