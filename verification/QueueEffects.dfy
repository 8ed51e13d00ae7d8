/** What each transaction on the queue does, column by column, and what it refuses. */
module QueueEffects {
  import opened Wrappers
  import opened Domain
  import opened Backoff
  import opened Tables
  import opened Queue
  import opened Admission

  // ---------- Policies ----------

  /** Every subscription's backoff fits 64 bits, as creation demands. */
  predicate PoliciesFit(s: Store) {
    forall k :: 0 <= k < |s.subscriptions| ==> s.subscriptions[k].retryPolicy.maxBackoffMs <= I64_MAX
  }

  lemma PoliciesStayFit(s: Store, op: Op)
    requires PoliciesFit(s)
    ensures PoliciesFit(Apply(s, op))
  {
    if op.Lease? {
      LeaseNextCases(s, op.k, op.nowMs, op.durationMs);
    }
  }

  /** So do those of every store a run leads to, and the laws below hold of it. */
  lemma {:induction false} PoliciesFitForEver(s: Store, ops: seq<Op>)
    requires PoliciesFit(s)
    ensures PoliciesFit(Run(s, ops))
    decreases |ops|
  {
    if ops != [] {
      PoliciesStayFit(s, ops[0]);
      PoliciesFitForEver(Apply(s, ops[0]), ops[1..]);
    }
  }

  // ---------- Giving a lease back ----------

  function AttemptsBefore(attempt: nat): nat { if attempt == 0 then 0 else attempt - 1 }

  /** Queued again after its backoff, or among the dead letters once its attempts are spent. */
  predicate GivenBack(d: Delivery, e: Delivery, policy: RetryPolicy, attempt: nat, nowMs: Millis) {
    var delay := policy.initialBackoffMs * Pow2(AttemptsBefore(attempt));
    && e.payload == d.payload && e.attempts == d.attempts && e.leaseToken.None? && e.leaseExpiresAtMs.None?
    && (d.attempts < policy.maxAttempts ==>
          && e.state == Queued && e.settledAtMs.None?
          && e.notBeforeMs == nowMs + if delay < policy.maxBackoffMs then delay else policy.maxBackoffMs)
    && (d.attempts >= policy.maxAttempts ==>
          && e.state == DeadLettered && e.settledAtMs == Some(nowMs) && e.notBeforeMs == d.notBeforeMs)
  }

  /** Leased to this subscription's consumer under this token, and not expired. */
  predicate HeldBy(s: Store, lease: DeliveryLease, nowMs: Millis) {
    && lease.deliveryId < |s.deliveries|
    && var d := s.deliveries[lease.deliveryId];
    && d.payload.subscriptionId == lease.payload.subscriptionId && d.state == Leased
    && d.leaseToken == Some(lease.token) && d.leaseExpiresAtMs.Some? && nowMs < d.leaseExpiresAtMs.value
  }

  /** Only this row of the deliveries changed, and nothing else of the store. */
  predicate OnlyRow(s: Store, t: Store, i: DeliveryId)
    requires i < |s.deliveries|
  {
    && t == s.(deliveries := t.deliveries) && |t.deliveries| == |s.deliveries|
    && forall j :: 0 <= j < |s.deliveries| && j != i ==> t.deliveries[j] == s.deliveries[j]
  }

  /** The instant a row would be ready again does not fit 64 bits. */
  predicate Overflows(policy: RetryPolicy, attempt: nat, nowMs: Millis) {
    var delay := policy.initialBackoffMs * Pow2(AttemptsBefore(attempt));
    nowMs + (if delay < policy.maxBackoffMs then delay else policy.maxBackoffMs) > I64_MAX
  }

  lemma DelayIs(policy: RetryPolicy, attempt: nat)
    requires policy.maxBackoffMs <= I64_MAX
    ensures var delay := policy.initialBackoffMs * Pow2(AttemptsBefore(attempt));
            RetryDelayMs(policy, attempt) == if delay < policy.maxBackoffMs then delay else policy.maxBackoffMs
  {
    if attempt == 0 {
      BackoffIsCappedExponential(policy, 1);
    } else {
      BackoffIsCappedExponential(policy, attempt);
    }
  }

  /**
   * A retry of a held lease gives its row back and touches nothing else. It is refused, without effect, for an
   * unknown subscription, an instant beyond 64 bits, or a lease not held.
   */
  lemma RetryTakesEffect(s: Store, lease: DeliveryLease, nowMs: Millis)
    requires PoliciesFit(s)
    ensures var (t, r) := RetryDelivery(s, lease, nowMs);
            var k := lease.payload.subscriptionId;
            if k >= |s.subscriptions| then t == s && r == Err(UnknownSubscription)
            else if Overflows(s.subscriptions[k].retryPolicy, lease.attempt, nowMs) then
              t == s && r == Err(InvalidLeaseDuration)
            else if !HeldBy(s, lease, nowMs) then t == s && r == Err(StaleLease)
            else
              && r == Ok(()) && OnlyRow(s, t, lease.deliveryId)
              && GivenBack(s.deliveries[lease.deliveryId], t.deliveries[lease.deliveryId],
                           s.subscriptions[k].retryPolicy, lease.attempt, nowMs)
  {
    var k := lease.payload.subscriptionId;
    if k < |s.subscriptions| {
      DelayIs(s.subscriptions[k].retryPolicy, lease.attempt);
    }
  }

  // ---------- Leasing ----------

  /** This subscription's, leased, and past its expiry. */
  predicate Lapsed(d: Delivery, k: SubscriptionId, nowMs: Millis) {
    d.payload.subscriptionId == k && d.state == Leased && d.leaseExpiresAtMs.Some? && d.leaseExpiresAtMs.value <= nowMs
  }

  /** Queued for this subscription, its backoff over, and every lower version of its record out of the way. */
  predicate Leasable(rows: seq<Delivery>, i: DeliveryId, k: SubscriptionId, nowMs: Millis)
    requires i < |rows|
  {
    && rows[i].payload.subscriptionId == k && rows[i].state == Queued && rows[i].notBeforeMs <= nowMs
    && forall j :: 0 <= j < |rows| && rows[j].payload.subscriptionId == k
                   && rows[j].payload.recordId == rows[i].payload.recordId
                   && rows[j].payload.recordVersion < rows[i].payload.recordVersion ==>
         rows[j].state == Acknowledged || rows[j].state == Superseded || rows[j].state == IgnoredByPolicy
  }

  /** Not after row `j`: events before snapshots, by sequence, and then in table order. */
  predicate ComesFirst(rows: seq<Delivery>, i: DeliveryId, j: DeliveryId)
    requires i < |rows| && j < |rows|
  {
    var a, b := rows[i].payload.eventSequence, rows[j].payload.eventSequence;
    && (b.Some? ==> a.Some? && a.value <= b.value)
    && (a == b ==> i <= j)
  }

  /** Lapsed rows are given back, by their own attempts; the others are as they were. */
  predicate LapsedGivenBack(s: Store, rows: seq<Delivery>, k: SubscriptionId, nowMs: Millis)
    requires k < |s.subscriptions|
  {
    && |rows| == |s.deliveries|
    && forall i :: 0 <= i < |rows| ==>
         if Lapsed(s.deliveries[i], k, nowMs)
         then GivenBack(s.deliveries[i], rows[i], s.subscriptions[k].retryPolicy, s.deliveries[i].attempts, nowMs)
         else rows[i] == s.deliveries[i]
  }

  /** Row `i` is leased under a fresh token, for this long, and the consumer is told so. */
  predicate Granted(s: Store, rows: seq<Delivery>, t: Store, lease: DeliveryLease, nowMs: Millis, durationMs: nat) {
    var i := lease.deliveryId;
    && i < |rows|
    && t == s.(nextId := s.nextId + 1,
               deliveries := rows[i := Delivery(rows[i].payload, Leased, rows[i].attempts + 1, Some(s.nextId),
                                                Some(nowMs + durationMs), rows[i].notBeforeMs, rows[i].settledAtMs)])
    && lease.payload == rows[i].payload && lease.attempt == rows[i].attempts + 1
    && lease.token == s.nextId && lease.expiresAtMs == nowMs + durationMs
    && lease.revision == (match rows[i].payload.revisionId
                          case Some(id) => if id < |s.revisions| then Some(s.revisions[id].revision) else None
                          case None => None)
  }

  function RowsIn(rows: seq<Delivery>, k: SubscriptionId, state: DeliveryState): set<nat> {
    set i | 0 <= i < |rows| && rows[i].payload.subscriptionId == k && rows[i].state == state
  }

  lemma OneRowMore(rows: seq<Delivery>, k: SubscriptionId, state: DeliveryState)
    requires rows != []
    ensures var n := |rows| - 1;
            && n !in RowsIn(rows[..n], k, state)
            && RowsIn(rows, k, state)
               == RowsIn(rows[..n], k, state)
                  + if rows[n].payload.subscriptionId == k && rows[n].state == state then {n} else {}
  {
  }

  /** The count of a state is the number of rows in it. */
  lemma {:induction false} CountIsSize(rows: seq<Delivery>, k: SubscriptionId, state: DeliveryState)
    ensures CountState(rows, k, state) == |RowsIn(rows, k, state)|
    decreases |rows|
  {
    if rows != [] {
      CountIsSize(rows[..|rows| - 1], k, state);
      OneRowMore(rows, k, state);
    }
  }

  lemma ExpiryTakesEffect(s: Store, k: SubscriptionId, nowMs: Millis)
    requires k < |s.subscriptions| && s.subscriptions[k].retryPolicy.maxBackoffMs <= I64_MAX
    requires ExpiryFits(s.deliveries, k, s.subscriptions[k].retryPolicy, nowMs)
    ensures LapsedGivenBack(s, Expire(s, k, nowMs).deliveries, k, nowMs)
  {
    var policy := s.subscriptions[k].retryPolicy;
    forall i | 0 <= i < |s.deliveries| && Lapsed(s.deliveries[i], k, nowMs)
      ensures GivenBack(s.deliveries[i], Expire(s, k, nowMs).deliveries[i], policy, s.deliveries[i].attempts, nowMs)
    {
      DelayIs(policy, s.deliveries[i].attempts);
    }
  }

  lemma LeasableIsEligible(rows: seq<Delivery>, i: DeliveryId, k: SubscriptionId, nowMs: Millis)
    requires i < |rows|
    ensures Eligible(rows, i, k, nowMs) <==> Leasable(rows, i, k, nowMs)
  {
    if Leasable(rows, i, k, nowMs) {
      forall p | 0 <= p < |rows| && Precedes(rows[p].payload, rows[i].payload) ensures rows[p].state.Advancing() {
      }
    }
    if Eligible(rows, i, k, nowMs) {
      forall j | 0 <= j < |rows| && rows[j].payload.subscriptionId == k
                 && rows[j].payload.recordId == rows[i].payload.recordId
                 && rows[j].payload.recordVersion < rows[i].payload.recordVersion
        ensures rows[j].state == Acknowledged || rows[j].state == Superseded || rows[j].state == IgnoredByPolicy
      {
        assert Precedes(rows[j].payload, rows[i].payload);
      }
    }
  }

  /**
   * Leasing for an enabled subscription: lapsed leases are given back; then, within the limit on active leases, the
   * first leasable row is leased, if there is one.
   */
  lemma LeasingTakesEffect(s: Store, k: SubscriptionId, nowMs: Millis, durationMs: nat) returns (rows: seq<Delivery>)
    requires k < |s.subscriptions| && s.subscriptions[k].enabled
    requires PoliciesFit(s) && LeaseNext(s, k, nowMs, durationMs).1.Ok?
    ensures LapsedGivenBack(s, rows, k, nowMs)
    ensures var (t, r) := LeaseNext(s, k, nowMs, durationMs);
            var free := |RowsIn(rows, k, Leased)| < s.subscriptions[k].maxActiveLeases;
            match r.value
            case None =>
              && t == s.(deliveries := rows)
              && (free ==> forall i :: 0 <= i < |rows| ==> !Leasable(rows, i, k, nowMs))
            case Some(lease) =>
              && free && Granted(s, rows, t, lease, nowMs, durationMs) && Leasable(rows, lease.deliveryId, k, nowMs)
              && forall j :: 0 <= j < |rows| && Leasable(rows, j, k, nowMs) ==> ComesFirst(rows, lease.deliveryId, j)
  {
    rows := Expire(s, k, nowMs).deliveries;
    ExpiryTakesEffect(s, k, nowMs);
    CountIsSize(rows, k, Leased);
    forall i | 0 <= i < |rows| ensures Eligible(rows, i, k, nowMs) <==> Leasable(rows, i, k, nowMs) {
      LeasableIsEligible(rows, i, k, nowMs);
    }
  }

  /** What leasing refuses, and that a paused subscription is left alone: no lease, and no row given back. */
  lemma LeasingIsRefused(s: Store, k: SubscriptionId, nowMs: Millis, durationMs: nat)
    requires PoliciesFit(s)
    ensures var (t, r) := LeaseNext(s, k, nowMs, durationMs);
            if durationMs == 0 || durationMs > I64_MAX || nowMs + durationMs > I64_MAX then
              t == s && r == Err(InvalidLeaseDuration)
            else if k >= |s.subscriptions| then t == s && r == Err(UnknownSubscription)
            else if !s.subscriptions[k].enabled then t == s && r == Ok(None)
            else if exists i :: 0 <= i < |s.deliveries| && Lapsed(s.deliveries[i], k, nowMs)
                                && Overflows(s.subscriptions[k].retryPolicy, s.deliveries[i].attempts, nowMs)
            then t == s && r == Err(InvalidLeaseDuration)
            else r.Ok?
  {
    if k < |s.subscriptions| {
      forall i | 0 <= i < |s.deliveries|
        ensures RetryNotBeforeMs(s.subscriptions[k].retryPolicy, s.deliveries[i].attempts, nowMs).None?
                <==> Overflows(s.subscriptions[k].retryPolicy, s.deliveries[i].attempts, nowMs)
      {
        DelayIs(s.subscriptions[k].retryPolicy, s.deliveries[i].attempts);
      }
    }
  }

  // ---------- Settling and blocking ----------

  /** The row carries this state and time, and no lease; its payload, attempts and backoff stand. */
  predicate LetGo(d: Delivery, e: Delivery, state: DeliveryState, settledAtMs: Option<Millis>) {
    e == Delivery(d.payload, state, d.attempts, None, None, d.notBeforeMs, settledAtMs)
  }

  /** Each outcome ends in the state of its own name. */
  lemma SettlingTakesEffect(s: Store, lease: DeliveryLease, outcome: DeliveryOutcome, nowMs: Millis)
    ensures var (t, r) := SettleDelivery(s, lease, outcome, nowMs);
            if !HeldBy(s, lease, nowMs) then t == s && r == Err(StaleLease)
            else
              var d, e := s.deliveries[lease.deliveryId], t.deliveries[lease.deliveryId];
              && r == Ok(()) && OnlyRow(s, t, lease.deliveryId)
              && (outcome == OutcomeAcknowledged ==> LetGo(d, e, Acknowledged, Some(nowMs)))
              && (outcome == OutcomeSuperseded ==> LetGo(d, e, Superseded, Some(nowMs)))
              && (outcome == OutcomeIgnoredByPolicy ==> LetGo(d, e, IgnoredByPolicy, Some(nowMs)))
              && (outcome == OutcomeDeadLettered ==> LetGo(d, e, DeadLettered, Some(nowMs)))
  {
  }

  lemma BlockingTakesEffect(s: Store, lease: DeliveryLease, nowMs: Millis)
    ensures var (t, r) := BlockDelivery(s, lease, nowMs);
            if !HeldBy(s, lease, nowMs) then t == s && r == Err(StaleLease)
            else
              && r == Ok(()) && OnlyRow(s, t, lease.deliveryId)
              && LetGo(s.deliveries[lease.deliveryId], t.deliveries[lease.deliveryId], Blocked, None)
  {
  }

  // ---------- Subscriptions ----------

  /** Pausing and resuming set the flag, and nothing else. */
  lemma PausingTakesEffect(s: Store, k: SubscriptionId, enabled: bool)
    ensures var (t, r) := SetSubscriptionEnabled(s, k, enabled);
            if k >= |s.subscriptions| then t == s && r == Err(UnknownSubscription)
            else
              && r == Ok(()) && t == s.(subscriptions := t.subscriptions) && |t.subscriptions| == |s.subscriptions|
              && t.subscriptions[k].enabled == enabled && t.subscriptions[k] == s.subscriptions[k].(enabled := enabled)
              && forall j :: 0 <= j < |s.subscriptions| && j != k ==> t.subscriptions[j] == s.subscriptions[j]
  {
  }

  /** The terms the caller asked for. */
  predicate OnTerms(subscription: Subscription, config: SubscriptionConfig, mode: SubscriptionMode) {
    && subscription.mode == mode && subscription.consumerId == config.consumerId
    && subscription.maxActiveLeases == config.maxActiveLeases
    && subscription.acceptsMoves == config.acceptsMoves && subscription.acceptsTombstones == config.acceptsTombstones
    && subscription.retryPolicy == config.retryPolicy
  }

  /** A kind that the caller asked to be spared. */
  predicate Unwanted(config: SubscriptionConfig, kind: EventKind) {
    || (kind == LocationChanged && !config.acceptsMoves)
    || (kind == RecordTombstoned && !config.acceptsTombstones)
  }

  /** Rows of unwanted kinds are blocked and were never leased; of the others, those never leased are queued. */
  predicate SparedTheUnwanted(s: Store, k: SubscriptionId, config: SubscriptionConfig) {
    forall i :: 0 <= i < |s.deliveries| && s.deliveries[i].payload.subscriptionId == k ==>
      var d := s.deliveries[i];
      if Unwanted(config, d.payload.kind) then d.state == Blocked && d.attempts == 0
      else d.attempts == 0 ==> d.state == Queued
  }

  lemma AdmittedOnTerms(t: Store, k: SubscriptionId, config: SubscriptionConfig, mode: SubscriptionMode)
    requires RowsAdmitted(t) && k < |t.subscriptions| && OnTerms(t.subscriptions[k], config, mode)
    ensures SparedTheUnwanted(t, k, config)
  {
    forall i | 0 <= i < |t.deliveries| && t.deliveries[i].payload.subscriptionId == k
      ensures RowAdmitted(t, t.deliveries[i])
    {
    }
  }

  lemma CreationTakesEffect(s: Store, config: SubscriptionConfig, mode: SubscriptionMode, nowMs: Millis)
    ensures var (t, r) := CreateSubscription(s, config, mode, nowMs);
            if config.retryPolicy.maxBackoffMs > I64_MAX || (mode == ReplayEvents && config.replayAfterSequence > I64_MAX)
            then t == s && r == Err(ExceedsSqliteRange)
            else
              && r == Ok(|s.subscriptions|) && |t.subscriptions| == |s.subscriptions| + 1
              && t.subscriptions[..|s.subscriptions|] == s.subscriptions && t.subscriptions[|s.subscriptions|].enabled
              && OnTerms(t.subscriptions[|s.subscriptions|], config, mode)
              && |t.deliveries| >= |s.deliveries| && t.deliveries[..|s.deliveries|] == s.deliveries
              && t.nextId == s.nextId + if mode == RebuildCurrent then |t.deliveries| - |s.deliveries| else 0
  {
  }

  /**
   * A creation is refused exactly when SQLite could not hold its numbers. Otherwise the subscription starts enabled, on
   * the caller's terms, and keeps to them for ever.
   */
  lemma CreatedOnTheCallersTerms(ops: seq<Op>, config: SubscriptionConfig, mode: SubscriptionMode, nowMs: Millis,
                                 more: seq<Op>)
    requires config.retryPolicy.maxBackoffMs <= I64_MAX
    requires mode == ReplayEvents ==> config.replayAfterSequence <= I64_MAX
    ensures var s := Run(EMPTY_STORE, ops);
            var k, t := |s.subscriptions|, Run(Apply(s, Create(config, mode, nowMs)), more);
            k < |t.subscriptions| && OnTerms(t.subscriptions[k], config, mode) && SparedTheUnwanted(t, k, config)
  {
    var s := Run(EMPTY_STORE, ops);
    var created := Apply(s, Create(config, mode, nowMs));
    RunKeepsStore(EMPTY_STORE, ops);
    UnacceptedKindsAreNeverLeased(ops);
    ApplyKeepsStore(s, Create(config, mode, nowMs));
    ApplyAdmits(s, Create(config, mode, nowMs));
    RunKeepsStore(created, more);
    RunAdmits(created, more);
    CreationTakesEffect(s, config, mode, nowMs);
    AdmittedOnTerms(Run(created, more), |s.subscriptions|, config, mode);
  }
}
