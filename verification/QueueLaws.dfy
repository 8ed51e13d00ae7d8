/** Ordering, fencing, termination and draining of deliveries, over every run of the catalog. */
module QueueLaws {
  import opened Wrappers
  import opened Domain
  import opened Tables
  import opened Queue

  // ---------- Per-record order ----------

  /** A row that was ever leased has all lower versions of its record settled in an advancing state. */
  lemma LeasedRowsFollowSettledOnes(s: Store, i: DeliveryId, j: DeliveryId)
    requires StoreInv(s) && i < |s.deliveries| && j < |s.deliveries|
    requires Precedes(s.deliveries[i].payload, s.deliveries[j].payload) && s.deliveries[j].attempts > 0
    ensures s.deliveries[i].state.Advancing()
  {
    assert i < j ==> PairOk(s.deliveries[i], s.deliveries[j]);
    assert j < i ==> PairOk(s.deliveries[j], s.deliveries[i]);
  }

  predicate SameRecord(a: DeliveryPayload, b: DeliveryPayload) {
    a.subscriptionId == b.subscriptionId && a.recordId == b.recordId
  }

  /** In every reachable state: one lease per record, advanced versions a prefix, barriers bar what follows. */
  lemma PerRecordOrder(ops: seq<Op>, i: DeliveryId, j: DeliveryId)
    requires var rows := Run(EMPTY_STORE, ops).deliveries;
             i < |rows| && j < |rows| && i != j && SameRecord(rows[i].payload, rows[j].payload)
    ensures var rows := Run(EMPTY_STORE, ops).deliveries;
            && rows[i].payload.recordVersion != rows[j].payload.recordVersion
            && !(rows[i].state == Leased && rows[j].state == Leased)
            && (rows[j].state.Advancing() && Precedes(rows[i].payload, rows[j].payload) ==> rows[i].state.Advancing())
            && (rows[i].state.Blocked? || rows[i].state.DeadLettered? ==>
                  Precedes(rows[i].payload, rows[j].payload) ==> rows[j].attempts == 0)
  {
    ReachableStoresAreSound(ops);
    var s := Run(EMPTY_STORE, ops);
    assert RowOk(s, s.deliveries[i]) && RowOk(s, s.deliveries[j]);
    assert i < j ==> PairOk(s.deliveries[i], s.deliveries[j]);
    assert j < i ==> PairOk(s.deliveries[j], s.deliveries[i]);
  }

  lemma BarrierBars(s: Store, t: Store, i: DeliveryId, j: DeliveryId)
    requires Evolves(s, t) && QueueOk(t)
    requires i < |s.deliveries| && j < |t.deliveries|
    requires s.deliveries[i].state == Blocked || s.deliveries[i].state == DeadLettered
    requires Precedes(s.deliveries[i].payload, t.deliveries[j].payload)
    ensures t.deliveries[i] == s.deliveries[i]
    ensures t.deliveries[j].attempts == 0 && t.deliveries[j].state != Leased
  {
    assert RowEvolves(s.deliveries[i], t.deliveries[i], s.nextId);
    assert RowOk(t, t.deliveries[j]);
    assert i < j ==> PairOk(t.deliveries[i], t.deliveries[j]);
    assert j < i ==> PairOk(t.deliveries[j], t.deliveries[i]);
  }

  /** A blocked or dead-lettered version stays put, and no later version is ever leased. */
  lemma BarriersHoldForever(s: Store, more: seq<Op>, i: DeliveryId, j: DeliveryId)
    requires StoreInv(s) && i < |s.deliveries| && j < |Run(s, more).deliveries|
    requires s.deliveries[i].state == Blocked || s.deliveries[i].state == DeadLettered
    requires Precedes(s.deliveries[i].payload, Run(s, more).deliveries[j].payload)
    ensures i < |Run(s, more).deliveries| && Run(s, more).deliveries[i] == s.deliveries[i]
    ensures Run(s, more).deliveries[j].attempts == 0 && Run(s, more).deliveries[j].state != Leased
  {
    RunKeepsStore(s, more);
    BarrierBars(s, Run(s, more), i, j);
  }

  /** In every reachable state no subscription holds more leases than it may. */
  lemma ActiveLeasesStayWithinTheLimit(ops: seq<Op>, k: SubscriptionId)
    requires k < |Run(EMPTY_STORE, ops).subscriptions|
    ensures var s := Run(EMPTY_STORE, ops);
            CountState(s.deliveries, k, Leased) <= s.subscriptions[k].maxActiveLeases
  {
    ReachableStoresAreSound(ops);
  }

  /** In every reachable state a queued row has attempts to spare, and a leased row spent at least one. */
  lemma AttemptsStayWithinTheLimit(ops: seq<Op>, i: DeliveryId)
    requires i < |Run(EMPTY_STORE, ops).deliveries|
    ensures var s := Run(EMPTY_STORE, ops);
            var d := s.deliveries[i];
            && d.payload.subscriptionId < |s.subscriptions|
            && var limit := s.subscriptions[d.payload.subscriptionId].retryPolicy.maxAttempts;
            && (d.state == Queued ==> d.attempts < limit)
            && (d.state == Leased ==> 1 <= d.attempts <= limit)
            && d.attempts <= limit
            && d.payload.revisionId.Some? && d.payload.location.Some?
  {
    ReachableStoresAreSound(ops);
    assert RowOk(Run(EMPTY_STORE, ops), Run(EMPTY_STORE, ops).deliveries[i]);
  }

  function SumStates(deliveries: seq<Delivery>, k: SubscriptionId): nat {
    CountState(deliveries, k, Queued) + CountState(deliveries, k, Leased) + CountState(deliveries, k, Blocked)
    + CountState(deliveries, k, Acknowledged) + CountState(deliveries, k, Superseded)
    + CountState(deliveries, k, IgnoredByPolicy) + CountState(deliveries, k, DeadLettered)
  }

  function RowsOf(deliveries: seq<Delivery>, k: SubscriptionId): seq<Delivery> {
    if deliveries == [] then []
    else
      var n := |deliveries| - 1;
      RowsOf(deliveries[..n], k) + if deliveries[n].payload.subscriptionId == k then [deliveries[n]] else []
  }

  /** `delivery_counts` accounts for every row of the subscription exactly once. */
  lemma {:induction false} CountsAccountForEveryRow(deliveries: seq<Delivery>, k: SubscriptionId)
    ensures SumStates(deliveries, k) == |RowsOf(deliveries, k)|
    decreases |deliveries|
  {
    if deliveries != [] {
      CountsAccountForEveryRow(deliveries[..|deliveries| - 1], k);
    }
  }

  /** This unexpired lease, and the delivery it was given for. */
  predicate HoldsDelivery(s: Store, lease: DeliveryLease, nowMs: Millis) {
    HoldsLease(s.deliveries, lease, nowMs) && s.deliveries[lease.deliveryId].payload == lease.payload
  }

  /**
   * However many consumers serve a subscription: whoever acts on a record while holding its lease acts on no lower
   * version than anybody did who held one before.
   */
  lemma HoldersComeInOrder(s: Store, more: seq<Op>, a: DeliveryLease, b: DeliveryLease, nowMs: Millis, laterMs: Millis)
    requires StoreInv(s) && HoldsDelivery(s, a, nowMs) && HoldsDelivery(Run(s, more), b, laterMs)
    requires SameRecord(a.payload, b.payload)
    ensures a.payload.recordVersion <= b.payload.recordVersion
  {
    var t := Run(s, more);
    RunKeepsStore(s, more);
    assert RowOk(s, s.deliveries[a.deliveryId]);
    assert RowEvolves(s.deliveries[a.deliveryId], t.deliveries[a.deliveryId], s.nextId);
    if b.payload.recordVersion < a.payload.recordVersion {
      LeasedRowsFollowSettledOnes(t, b.deliveryId, a.deliveryId);
    }
  }

  // ---------- Fencing ----------

  predicate TokenHeld(s: Store, lease: DeliveryLease) {
    lease.deliveryId < |s.deliveries| && s.deliveries[lease.deliveryId].leaseToken == Some(lease.token)
  }

  /** The transaction is a settle, retry or block under this token, and it succeeds. */
  predicate Wins(s: Store, op: Op, lease: DeliveryLease) {
    match op
    case Settle(l, outcome, nowMs) =>
      l.deliveryId == lease.deliveryId && l.token == lease.token && SettleDelivery(s, l, outcome, nowMs).1.Ok?
    case Retry(l, nowMs) =>
      l.deliveryId == lease.deliveryId && l.token == lease.token && RetryDelivery(s, l, nowMs).1.Ok?
    case Block(l, nowMs) =>
      l.deliveryId == lease.deliveryId && l.token == lease.token && BlockDelivery(s, l, nowMs).1.Ok?
    case _ => false
  }

  function WinCount(s: Store, ops: seq<Op>, lease: DeliveryLease): nat
    decreases |ops|
  {
    if ops == [] then 0
    else (if Wins(s, ops[0], lease) then 1 else 0) + WinCount(Apply(s, ops[0]), ops[1..], lease)
  }

  /** A token that left its row never comes back to it, and nothing succeeds under it again. */
  lemma {:induction false} LostTokensStayLost(s: Store, ops: seq<Op>, lease: DeliveryLease)
    requires StoreInv(s) && lease.token < s.nextId && !TokenHeld(s, lease)
    ensures !TokenHeld(Run(s, ops), lease) && WinCount(s, ops, lease) == 0
    decreases |ops|
  {
    if ops != [] {
      var t := Apply(s, ops[0]);
      ApplyKeepsStore(s, ops[0]);
      LostTokenStaysLost(s, t, lease);
      LostTokensStayLost(t, ops[1..], lease);
    }
  }

  lemma LostTokenStaysLost(s: Store, t: Store, lease: DeliveryLease)
    requires Evolves(s, t) && lease.token < s.nextId && !TokenHeld(s, lease) && RowsOk(s) && RowsOk(t)
    ensures !TokenHeld(t, lease)
  {
    var i := lease.deliveryId;
    assert i < |s.deliveries| ==> RowEvolves(s.deliveries[i], t.deliveries[i], s.nextId);
  }

  lemma WinningGivesUpTheToken(s: Store, op: Op, lease: DeliveryLease)
    requires Wins(s, op, lease)
    ensures !TokenHeld(Apply(s, op), lease)
  {
  }

  lemma {:induction false} AtMostOneWin(s: Store, ops: seq<Op>, lease: DeliveryLease)
    requires StoreInv(s) && lease.token < s.nextId
    ensures WinCount(s, ops, lease) <= 1
    decreases |ops|
  {
    if ops != [] {
      var t := Apply(s, ops[0]);
      ApplyKeepsStore(s, ops[0]);
      if Wins(s, ops[0], lease) {
        WinningGivesUpTheToken(s, ops[0], lease);
        LostTokensStayLost(t, ops[1..], lease);
      } else {
        AtMostOneWin(t, ops[1..], lease);
      }
    }
  }

  /** How an issued lease relates to its row in any later state `t`. */
  predicate Fenced(t: Store, lease: DeliveryLease, instantMs: Millis) {
    && lease.deliveryId < |t.deliveries|
    && var row := t.deliveries[lease.deliveryId];
    && (HoldsLease(t.deliveries, lease, instantMs) <==>
          row.leaseToken == Some(lease.token) && instantMs < lease.expiresAtMs)
    && (row.leaseToken == Some(lease.token) ==>
          && row.attempts == lease.attempt
          && (Expired(row, lease.payload.subscriptionId, instantMs) <==> !HoldsLease(t.deliveries, lease, instantMs)))
  }

  lemma IssuedLeasesAreFenced(issued: Store, t: Store, lease: DeliveryLease, instantMs: Millis)
    requires Evolves(issued, t) && RowsOk(t)
    requires lease.deliveryId < |issued.deliveries| && lease.token < issued.nextId
    requires var row := issued.deliveries[lease.deliveryId];
             && row.payload == lease.payload && row.leaseToken == Some(lease.token)
             && row.leaseExpiresAtMs == Some(lease.expiresAtMs) && row.attempts == lease.attempt
    ensures Fenced(t, lease, instantMs)
  {
    assert RowEvolves(issued.deliveries[lease.deliveryId], t.deliveries[lease.deliveryId], issued.nextId);
    assert RowOk(t, t.deliveries[lease.deliveryId]);
  }

  lemma NoWinWithoutTheToken(t: Store, lease: DeliveryLease)
    requires StoreInv(t) && lease.token < t.nextId && !TokenHeld(t, lease)
    ensures forall later :: WinCount(t, later, lease) == 0
  {
    forall later ensures WinCount(t, later, lease) == 0 {
      LostTokensStayLost(t, later, lease);
    }
  }

  /**
   * An issued lease succeeds at most once over any later run. While its token is on the row, the row still
   * shows the lease's attempt and expiry, so at any instant it is usable or reclaimable and never both; once
   * the token has left the row, nothing ever succeeds under it.
   */
  lemma LeaseFencing(s: Store, k: SubscriptionId, nowMs: Millis, durationMs: nat, more: seq<Op>, instantMs: Millis)
    requires StoreInv(s)
    requires LeaseNext(s, k, nowMs, durationMs).1.Ok? && LeaseNext(s, k, nowMs, durationMs).1.value.Some?
    ensures var issued := LeaseNext(s, k, nowMs, durationMs).0;
            var lease := LeaseNext(s, k, nowMs, durationMs).1.value.value;
            var t := Run(issued, more);
            && Fenced(t, lease, instantMs)
            && WinCount(issued, more, lease) <= 1
            && (!TokenHeld(t, lease) ==> forall later :: WinCount(t, later, lease) == 0)
  {
    var (issued, result) := LeaseNext(s, k, nowMs, durationMs);
    IssuedIsHeld(s, k, nowMs, durationMs);
    ApplyKeepsStore(s, Lease(k, nowMs, durationMs));
    FencedAlong(issued, result.value.value, more, instantMs);
  }

  lemma IssuedIsHeld(s: Store, k: SubscriptionId, nowMs: Millis, durationMs: nat)
    requires LeaseNext(s, k, nowMs, durationMs).1.Ok? && LeaseNext(s, k, nowMs, durationMs).1.value.Some?
    ensures var issued := LeaseNext(s, k, nowMs, durationMs).0;
            var lease := LeaseNext(s, k, nowMs, durationMs).1.value.value;
            && lease.deliveryId < |issued.deliveries| && lease.token < issued.nextId
            && var row := issued.deliveries[lease.deliveryId];
            && row.payload == lease.payload && row.leaseToken == Some(lease.token)
            && row.leaseExpiresAtMs == Some(lease.expiresAtMs) && row.attempts == lease.attempt
  {
    LeaseNextCases(s, k, nowMs, durationMs);
  }

  lemma FencedAlong(issued: Store, lease: DeliveryLease, more: seq<Op>, instantMs: Millis)
    requires StoreInv(issued)
    requires lease.deliveryId < |issued.deliveries| && lease.token < issued.nextId
    requires var row := issued.deliveries[lease.deliveryId];
             && row.payload == lease.payload && row.leaseToken == Some(lease.token)
             && row.leaseExpiresAtMs == Some(lease.expiresAtMs) && row.attempts == lease.attempt
    ensures var t := Run(issued, more);
            && Fenced(t, lease, instantMs)
            && WinCount(issued, more, lease) <= 1
            && (!TokenHeld(t, lease) ==> forall later :: WinCount(t, later, lease) == 0)
  {
    var t := Run(issued, more);
    RunKeepsStore(issued, more);
    AtMostOneWin(issued, more, lease);
    IssuedLeasesAreFenced(issued, t, lease, instantMs);
    if !TokenHeld(t, lease) {
      NoWinWithoutTheToken(t, lease);
    }
  }

  // ---------- Attempts are leases, and leases run out ----------

  function SumAttempts(deliveries: seq<Delivery>, k: SubscriptionId): nat {
    if deliveries == [] then 0
    else
      var n := |deliveries| - 1;
      SumAttempts(deliveries[..n], k)
      + if deliveries[n].payload.subscriptionId == k then deliveries[n].attempts else 0
  }

  predicate GrantsLease(s: Store, op: Op, k: SubscriptionId) {
    op.Lease? && op.k == k && LeaseNext(s, k, op.nowMs, op.durationMs).1.Ok?
    && LeaseNext(s, k, op.nowMs, op.durationMs).1.value.Some?
  }

  function GrantCount(s: Store, ops: seq<Op>, k: SubscriptionId): nat
    decreases |ops|
  {
    if ops == [] then 0
    else (if GrantsLease(s, ops[0], k) then 1 else 0) + GrantCount(Apply(s, ops[0]), ops[1..], k)
  }

  lemma {:induction false} SumAttemptsSame(a: seq<Delivery>, b: seq<Delivery>, k: SubscriptionId)
    requires |a| <= |b|
    requires forall i :: 0 <= i < |a| ==> b[i].payload == a[i].payload && b[i].attempts == a[i].attempts
    requires forall i :: |a| <= i < |b| ==> b[i].attempts == 0
    ensures SumAttempts(b, k) == SumAttempts(a, k)
    decreases |b|
  {
    if |b| > |a| {
      SumAttemptsSame(a, b[..|b| - 1], k);
    } else if b != [] {
      SumAttemptsSame(a[..|a| - 1], b[..|b| - 1], k);
    }
  }

  lemma {:induction false} SumAttemptsUpdate(a: seq<Delivery>, i: nat, d: Delivery, k: SubscriptionId)
    requires i < |a| && d.payload == a[i].payload && d.attempts == a[i].attempts + 1
    ensures SumAttempts(a[i := d], k) == SumAttempts(a, k) + if d.payload.subscriptionId == k then 1 else 0
    decreases |a|
  {
    var n := |a| - 1;
    if i == n {
      assert a[i := d][..n] == a[..n];
    } else {
      assert a[i := d][..n] == a[..n][i := d];
      SumAttemptsUpdate(a[..n], i, d, k);
    }
  }

  /** A transaction that keeps the attempts of the rows it finds and adds only unattempted rows. */
  predicate KeepsAttempts(s: Store, t: Store) {
    && |s.deliveries| <= |t.deliveries|
    && (forall i :: 0 <= i < |s.deliveries| ==>
          && t.deliveries[i].payload == s.deliveries[i].payload
          && t.deliveries[i].attempts == s.deliveries[i].attempts)
    && (forall i :: |s.deliveries| <= i < |t.deliveries| ==> t.deliveries[i].attempts == 0)
  }

  predicate OnlyAppends(s: Store, t: Store) {
    s.deliveries <= t.deliveries
    && forall i :: |s.deliveries| <= i < |t.deliveries| ==> t.deliveries[i].attempts == 0
  }

  lemma CommitOnlyAppends(s: Store, r: RecordId, location: LogicalLocation, revision: CanonicalRevision, nowMs: Millis)
    requires r < |s.records|
    ensures OnlyAppends(s, CommitObserved(s, r, location, revision, nowMs))
  {
  }

  lemma OnlyLeasingCountsAttempts(s: Store, op: Op)
    requires !op.Lease?
    ensures KeepsAttempts(s, Apply(s, op))
  {
    if op.Observe? {
      var (admitted, r) := AdmitRecord(s, op.identity, op.location);
      var restored := RestoreIfTombstoned(admitted, r, op.location, op.nowMs);
      assert OnlyAppends(s, restored);
      CommitOnlyAppends(restored, r, op.location, op.revision, op.nowMs);
      assert OnlyAppends(restored, Apply(s, op));
    }
  }

  lemma LeasingAddsOneAttempt(s: Store, op: Op, k: SubscriptionId)
    requires op.Lease?
    ensures SumAttempts(Apply(s, op).deliveries, k)
            == SumAttempts(s.deliveries, k) + if GrantsLease(s, op, k) then 1 else 0
  {
    LeaseNextCases(s, op.k, op.nowMs, op.durationMs);
    var (t, result) := LeaseNext(s, op.k, op.nowMs, op.durationMs);
    if t != s {
      var mid := Expire(s, op.k, op.nowMs);
      SumAttemptsSame(s.deliveries, mid.deliveries, k);
      if result.Ok? && result.value.Some? {
        var lease := result.value.value;
        SumAttemptsUpdate(mid.deliveries, lease.deliveryId, t.deliveries[lease.deliveryId], k);
      }
    }
  }

  /** Conservation: the leases a run grants are exactly the attempts its rows gain, new events or not. */
  lemma {:induction false} GrantsAreAttempts(s: Store, ops: seq<Op>, k: SubscriptionId)
    ensures SumAttempts(Run(s, ops).deliveries, k) == SumAttempts(s.deliveries, k) + GrantCount(s, ops, k)
    decreases |ops|
  {
    if ops != [] {
      var t := Apply(s, ops[0]);
      if ops[0].Lease? {
        LeasingAddsOneAttempt(s, ops[0], k);
      } else {
        OnlyLeasingCountsAttempts(s, ops[0]);
        SumAttemptsSame(s.deliveries, t.deliveries, k);
      }
      GrantsAreAttempts(t, ops[1..], k);
    }
  }

  lemma {:induction false} SumAttemptsBound(deliveries: seq<Delivery>, k: SubscriptionId, limit: nat)
    requires forall i :: 0 <= i < |deliveries| ==> deliveries[i].payload.subscriptionId == k ==> deliveries[i].attempts <= limit
    ensures SumAttempts(deliveries, k) <= limit * |RowsOf(deliveries, k)|
    decreases |deliveries|
  {
    if deliveries != [] {
      SumAttemptsBound(deliveries[..|deliveries| - 1], k, limit);
    }
  }

  /** Over its whole life a subscription is granted at most `max_attempts` leases per row it was owed. */
  lemma GrantsAreBounded(ops: seq<Op>, k: SubscriptionId)
    requires k < |Run(EMPTY_STORE, ops).subscriptions|
    ensures var s := Run(EMPTY_STORE, ops);
            GrantCount(EMPTY_STORE, ops, k) <= s.subscriptions[k].retryPolicy.maxAttempts * |RowsOf(s.deliveries, k)|
  {
    ReachableStoresAreSound(ops);
    var s := Run(EMPTY_STORE, ops);
    GrantsAreAttempts(EMPTY_STORE, ops, k);
    forall i | 0 <= i < |s.deliveries| && s.deliveries[i].payload.subscriptionId == k
      ensures s.deliveries[i].attempts <= s.subscriptions[k].retryPolicy.maxAttempts
    {
      assert RowOk(s, s.deliveries[i]);
    }
    SumAttemptsBound(s.deliveries, k, s.subscriptions[k].retryPolicy.maxAttempts);
  }

  // ---------- Work shrinks ----------

  function LimitOf(subscriptions: seq<Subscription>, d: Delivery): nat {
    if d.payload.subscriptionId < |subscriptions|
    then subscriptions[d.payload.subscriptionId].retryPolicy.maxAttempts else 0
  }

  /** The row changes still ahead of a row: two per remaining attempt, one more while leased. */
  function RowWork(subscriptions: seq<Subscription>, d: Delivery): nat {
    var left := if d.attempts < LimitOf(subscriptions, d) then LimitOf(subscriptions, d) - d.attempts else 0;
    match d.state
    case Queued => 2 * left + 1
    case Leased => 2 * left + 2
    case _ => 0
  }

  function Work(subscriptions: seq<Subscription>, deliveries: seq<Delivery>): nat {
    if deliveries == [] then 0
    else
      var n := |deliveries| - 1;
      Work(subscriptions, deliveries[..n]) + RowWork(subscriptions, deliveries[n])
  }

  lemma {:induction false} WorkShrinksPointwise(subscriptions: seq<Subscription>, a: seq<Delivery>, b: seq<Delivery>)
    requires |a| == |b|
    requires forall i :: 0 <= i < |a| ==> a[i] == b[i] || RowWork(subscriptions, b[i]) < RowWork(subscriptions, a[i])
    ensures Work(subscriptions, b) <= Work(subscriptions, a)
    ensures a != b ==> Work(subscriptions, b) < Work(subscriptions, a)
    decreases |a|
  {
    if a != [] {
      var n := |a| - 1;
      WorkShrinksPointwise(subscriptions, a[..n], b[..n]);
      assert a == a[..n] + [a[n]] && b == b[..n] + [b[n]];
    }
  }

  /** Everything that happens to a queue besides new events and new subscriptions, pauses included. */
  predicate WorkOp(op: Op) { op.Lease? || op.Settle? || op.Retry? || op.Block? || op.SetEnabled? }

  lemma {:induction false} PausingLeavesWork(a: seq<Subscription>, b: seq<Subscription>, deliveries: seq<Delivery>)
    requires |a| == |b| && forall k :: 0 <= k < |a| ==> a[k].retryPolicy == b[k].retryPolicy
    ensures Work(a, deliveries) == Work(b, deliveries)
    decreases |deliveries|
  {
    if deliveries != [] {
      PausingLeavesWork(a, b, deliveries[..|deliveries| - 1]);
    }
  }

  lemma ExpiryShrinksRows(s: Store, k: SubscriptionId, nowMs: Millis, i: DeliveryId)
    requires StoreInv(s) && k < |s.subscriptions| && i < |s.deliveries|
    ensures var e := Expire(s, k, nowMs).deliveries[i];
            e == s.deliveries[i] || RowWork(s.subscriptions, e) < RowWork(s.subscriptions, s.deliveries[i])
  {
    assert RowOk(s, s.deliveries[i]);
  }

  lemma LeasingUsesUpWork(s: Store, op: Op)
    requires StoreInv(s) && op.Lease?
    ensures var t := Apply(s, op);
            && t.subscriptions == s.subscriptions
            && (t.deliveries != s.deliveries ==>
                  Work(s.subscriptions, t.deliveries) < Work(s.subscriptions, s.deliveries))
  {
    var t := Apply(s, op);
    LeaseNextCases(s, op.k, op.nowMs, op.durationMs);
    if t.deliveries != s.deliveries {
      forall i | 0 <= i < |s.deliveries|
        ensures s.deliveries[i] == t.deliveries[i]
                || RowWork(s.subscriptions, t.deliveries[i]) < RowWork(s.subscriptions, s.deliveries[i])
      {
        LeasingShrinksRow(s, op.k, op.nowMs, op.durationMs, i);
      }
      WorkShrinksPointwise(s.subscriptions, s.deliveries, t.deliveries);
    }
  }

  lemma LeasingShrinksRow(s: Store, k: SubscriptionId, nowMs: Millis, durationMs: nat, i: DeliveryId)
    requires StoreInv(s) && i < |s.deliveries|
    ensures var t := LeaseNext(s, k, nowMs, durationMs).0;
            && i < |t.deliveries|
            && (s.deliveries[i] == t.deliveries[i]
                || RowWork(s.subscriptions, t.deliveries[i]) < RowWork(s.subscriptions, s.deliveries[i]))
  {
    LeaseNextCases(s, k, nowMs, durationMs);
    if LeaseNext(s, k, nowMs, durationMs).0 != s {
      ExpiryShrinksRows(s, k, nowMs, i);
      assert RowOk(s, s.deliveries[i]);
    }
  }

  lemma RewritingUsesUpWork(subscriptions: seq<Subscription>, deliveries: seq<Delivery>, i: DeliveryId, d: Delivery)
    requires i < |deliveries| && RowWork(subscriptions, d) < RowWork(subscriptions, deliveries[i])
    ensures Work(subscriptions, deliveries[i := d]) < Work(subscriptions, deliveries)
  {
    assert deliveries[i := d][i] != deliveries[i];
    WorkShrinksPointwise(subscriptions, deliveries, deliveries[i := d]);
  }

  lemma SettlingShrinksRow(s: Store, op: Op)
    requires StoreInv(s) && (op.Settle? || op.Retry? || op.Block?)
    ensures var t, i := Apply(s, op), op.lease.deliveryId;
            t == s || (t.subscriptions == s.subscriptions && i < |s.deliveries| == |t.deliveries|
                       && t.deliveries == s.deliveries[i := t.deliveries[i]]
                       && RowWork(s.subscriptions, t.deliveries[i]) < RowWork(s.subscriptions, s.deliveries[i]))
  {
    if op.lease.deliveryId < |s.deliveries| {
      assert RowOk(s, s.deliveries[op.lease.deliveryId]);
    }
  }

  lemma SettlingUsesUpWork(s: Store, op: Op)
    requires StoreInv(s) && (op.Settle? || op.Retry? || op.Block?)
    ensures var t := Apply(s, op);
            && t.subscriptions == s.subscriptions
            && (t.deliveries != s.deliveries ==>
                  Work(s.subscriptions, t.deliveries) < Work(s.subscriptions, s.deliveries))
  {
    SettlingShrinksRow(s, op);
    var t, i := Apply(s, op), op.lease.deliveryId;
    if t != s {
      RewritingUsesUpWork(s.subscriptions, s.deliveries, i, t.deliveries[i]);
    }
  }

  /** Every lease, expiry, settlement, retry and block that changes a row uses up work, and pausing adds none. */
  lemma WorkOpsUseUpWork(s: Store, op: Op)
    requires StoreInv(s) && WorkOp(op)
    ensures var t := Apply(s, op);
            && Work(t.subscriptions, t.deliveries) <= Work(s.subscriptions, s.deliveries)
            && (t.deliveries != s.deliveries ==>
                  Work(t.subscriptions, t.deliveries) < Work(s.subscriptions, s.deliveries))
  {
    if op.Lease? {
      LeasingUsesUpWork(s, op);
    } else if op.SetEnabled? {
      PausingLeavesWork(s.subscriptions, Apply(s, op).subscriptions, s.deliveries);
    } else {
      SettlingUsesUpWork(s, op);
    }
  }

  function ChangeCount(s: Store, ops: seq<Op>): nat
    decreases |ops|
  {
    if ops == [] then 0
    else (if Apply(s, ops[0]).deliveries != s.deliveries then 1 else 0) + ChangeCount(Apply(s, ops[0]), ops[1..])
  }

  /** With no new events, the row changes of any run, pauses and all, are bounded by the work at its start. */
  lemma {:induction false} DeliveryWorkTerminates(s: Store, ops: seq<Op>)
    requires StoreInv(s) && forall i :: 0 <= i < |ops| ==> WorkOp(ops[i])
    ensures ChangeCount(s, ops) + Work(Run(s, ops).subscriptions, Run(s, ops).deliveries)
            <= Work(s.subscriptions, s.deliveries)
    decreases |ops|
  {
    if ops != [] {
      WorkOpsUseUpWork(s, ops[0]);
      ApplyKeepsStore(s, ops[0]);
      DeliveryWorkTerminates(Apply(s, ops[0]), ops[1..]);
    }
  }

  // ---------- Leasing is total and draining is in order ----------

  /** With capacity and an eligible row, `lease_next` grants the least eligible one; otherwise it grants none. */
  lemma LeaseNextIsTotal(s: Store, k: SubscriptionId, nowMs: Millis, durationMs: nat)
    requires StoreInv(s) && k < |s.subscriptions| && s.subscriptions[k].enabled
    requires 0 < durationMs <= I64_MAX && nowMs + durationMs <= I64_MAX
    requires ExpiryFits(s.deliveries, k, s.subscriptions[k].retryPolicy, nowMs)
    ensures var result := LeaseNext(s, k, nowMs, durationMs).1;
            var rows := Expire(s, k, nowMs).deliveries;
            && result.Ok?
            && (result.value.Some? <==>
                  && CountState(rows, k, Leased) < s.subscriptions[k].maxActiveLeases
                  && exists i :: 0 <= i < |rows| && Eligible(rows, i, k, nowMs))
            && (result.value.Some? ==>
                  && result.value.value.deliveryId < |rows|
                  && Eligible(rows, result.value.value.deliveryId, k, nowMs)
                  && forall i :: 0 <= i < |rows| && Eligible(rows, i, k, nowMs) ==>
                       LeaseOrder(rows, result.value.value.deliveryId, i))
  {
  }

  predicate Mine(d: Delivery, k: SubscriptionId) { d.payload.subscriptionId == k }

  /** The subscription may lease, and each of its rows is ready or already settled in an advancing state. */
  predicate ReadyRows(s: Store, k: SubscriptionId, nowMs: Millis) {
    && k < |s.subscriptions| && s.subscriptions[k].enabled && 0 < s.subscriptions[k].maxActiveLeases
    && forall i :: 0 <= i < |s.deliveries| && Mine(s.deliveries[i], k) ==>
         || s.deliveries[i].state.Advancing()
         || (s.deliveries[i].state == Queued && s.deliveries[i].notBeforeMs <= nowMs)
  }

  /** The rows are ledger events, in sequence order. */
  predicate InSequence(deliveries: seq<Delivery>, k: SubscriptionId) {
    && (forall i :: 0 <= i < |deliveries| && Mine(deliveries[i], k) ==> deliveries[i].payload.eventSequence.Some?)
    && (forall i, j :: 0 <= i < j < |deliveries| && Mine(deliveries[i], k) && Mine(deliveries[j], k) ==>
          deliveries[i].payload.eventSequence.value < deliveries[j].payload.eventSequence.value)
  }

  predicate Drainable(s: Store, k: SubscriptionId, nowMs: Millis) {
    ReadyRows(s, k, nowMs) && InSequence(s.deliveries, k)
  }

  function Backlog(deliveries: seq<Delivery>, k: SubscriptionId): seq<DeliveryPayload> {
    if deliveries == [] then []
    else
      var n := |deliveries| - 1;
      Backlog(deliveries[..n], k) +
      if Mine(deliveries[n], k) && deliveries[n].state == Queued then [deliveries[n].payload] else []
  }

  lemma {:induction false} BacklogHead(deliveries: seq<Delivery>, k: SubscriptionId, i: nat)
    requires i < |deliveries| && Mine(deliveries[i], k) && deliveries[i].state == Queued
    requires forall j :: 0 <= j < i ==> !(Mine(deliveries[j], k) && deliveries[j].state == Queued)
    ensures var done := deliveries[i := deliveries[i].(state := Acknowledged)];
            Backlog(deliveries, k) == [deliveries[i].payload] + Backlog(done, k)
    decreases |deliveries|
  {
    var n := |deliveries| - 1;
    var done := deliveries[i := deliveries[i].(state := Acknowledged)];
    if i == n {
      NoBacklog(deliveries[..n], k);
      assert done[..n] == deliveries[..n];
    } else {
      BacklogHead(deliveries[..n], k, i);
      assert done[..n] == deliveries[..n][i := deliveries[i].(state := Acknowledged)];
    }
  }

  lemma {:induction false} NoBacklog(deliveries: seq<Delivery>, k: SubscriptionId)
    ensures Backlog(deliveries, k) == [] <==>
            forall j :: 0 <= j < |deliveries| ==> !(Mine(deliveries[j], k) && deliveries[j].state == Queued)
    decreases |deliveries|
  {
    if deliveries != [] {
      NoBacklog(deliveries[..|deliveries| - 1], k);
    }
  }

  lemma {:induction false} PendingIgnoresBookkeeping(a: seq<Delivery>, b: seq<Delivery>, k: SubscriptionId)
    requires |a| == |b|
    requires forall i :: 0 <= i < |a| ==> a[i].payload == b[i].payload && a[i].state == b[i].state
    ensures Backlog(a, k) == Backlog(b, k)
    decreases |a|
  {
    if a != [] {
      PendingIgnoresBookkeeping(a[..|a| - 1], b[..|b| - 1], k);
    }
  }

  predicate FirstQueued(deliveries: seq<Delivery>, k: SubscriptionId, i: DeliveryId) {
    && i < |deliveries| && Mine(deliveries[i], k) && deliveries[i].state == Queued
    && forall j :: 0 <= j < i ==> !(Mine(deliveries[j], k) && deliveries[j].state == Queued)
  }

  lemma {:induction false} FirstPending(deliveries: seq<Delivery>, k: SubscriptionId) returns (i: DeliveryId)
    requires Backlog(deliveries, k) != []
    ensures FirstQueued(deliveries, k, i)
    decreases |deliveries|
  {
    var n := |deliveries| - 1;
    if Backlog(deliveries[..n], k) != [] {
      i := FirstPending(deliveries[..n], k);
    } else {
      NoBacklog(deliveries[..n], k);
      i := n;
    }
  }

  lemma NothingToExpire(s: Store, k: SubscriptionId, nowMs: Millis)
    requires Drainable(s, k, nowMs)
    ensures ExpireLeases(s.deliveries, k, s.subscriptions[k].retryPolicy, nowMs) == s.deliveries
    ensures ExpiryFits(s.deliveries, k, s.subscriptions[k].retryPolicy, nowMs)
    ensures CountState(s.deliveries, k, Leased) == 0
  {
    assert forall i :: 0 <= i < |s.deliveries| ==> Mine(s.deliveries[i], k) ==> s.deliveries[i].state != Leased;
    CountNone(s.deliveries, k, Leased);
  }

  lemma FirstQueuedIsEligible(s: Store, k: SubscriptionId, nowMs: Millis, i: DeliveryId)
    requires PairsOk(s.deliveries) && Drainable(s, k, nowMs) && FirstQueued(s.deliveries, k, i)
    ensures Eligible(s.deliveries, i, k, nowMs)
    ensures SelectCandidate(s.deliveries, k, nowMs) == Some(i)
  {
    var rows := s.deliveries;
    forall p | 0 <= p < |rows| && Precedes(rows[p].payload, rows[i].payload)
      ensures rows[p].state.Advancing()
    {
      assert Mine(rows[p], k);
      assert i < p ==> PairOk(rows[i], rows[p]);
    }
    assert Eligible(rows, i, k, nowMs);
    var best := SelectCandidate(rows, k, nowMs).value;
    assert LeaseOrder(rows, best, i) && Mine(rows[best], k);
  }

  lemma DrainLeasesFirstQueued(s: Store, k: SubscriptionId, nowMs: Millis, durationMs: nat, i: DeliveryId)
    requires PairsOk(s.deliveries) && Drainable(s, k, nowMs) && FirstQueued(s.deliveries, k, i)
    requires 0 < durationMs <= I64_MAX && nowMs + durationMs <= I64_MAX
    ensures LeaseNext(s, k, nowMs, durationMs)
            == (WithLease(s, i, nowMs + durationMs),
                Ok(Some(LeaseFor(s, i, s.deliveries[i], nowMs + durationMs))))
  {
    NothingToExpire(s, k, nowMs);
    FirstQueuedIsEligible(s, k, nowMs, i);
  }

  predicate AllAcknowledged(deliveries: seq<Delivery>, k: SubscriptionId) {
    forall i :: 0 <= i < |deliveries| && Mine(deliveries[i], k) ==> deliveries[i].state == Acknowledged
  }

  lemma DrainStopsWhenEmpty(s: Store, k: SubscriptionId, nowMs: Millis, durationMs: nat)
    requires Drainable(s, k, nowMs) && Backlog(s.deliveries, k) == []
    ensures DrainOne(s, k, nowMs, durationMs).1.None?
  {
    NothingToExpire(s, k, nowMs);
    NoBacklog(s.deliveries, k);
    LeaseNextCases(s, k, nowMs, durationMs);
  }

  /** One lease and its acknowledgement; the payload is what was delivered. */
  function DrainOne(s: Store, k: SubscriptionId, nowMs: Millis, durationMs: nat): (Store, Option<DeliveryPayload>) {
    var leased := Apply(s, Lease(k, nowMs, durationMs));
    var result := LeaseNext(s, k, nowMs, durationMs).1;
    if result.Err? || result.value.None? then (leased, None)
    else (Apply(leased, Settle(result.value.value, OutcomeAcknowledged, nowMs)), Some(result.value.value.payload))
  }

  lemma DrainOneKeepsStore(s: Store, k: SubscriptionId, nowMs: Millis, durationMs: nat)
    requires StoreInv(s)
    ensures StoreInv(DrainOne(s, k, nowMs, durationMs).0)
  {
    var leased := Apply(s, Lease(k, nowMs, durationMs));
    var result := LeaseNext(s, k, nowMs, durationMs).1;
    ApplyKeepsStore(s, Lease(k, nowMs, durationMs));
    if result.Ok? && result.value.Some? {
      ApplyKeepsStore(leased, Settle(result.value.value, OutcomeAcknowledged, nowMs));
    }
  }

  lemma LeasedRowSettles(s: Store, k: SubscriptionId, nowMs: Millis, durationMs: nat, i: DeliveryId)
    requires i < |s.deliveries| && 0 < durationMs
    ensures var lease := LeaseFor(s, i, s.deliveries[i], nowMs + durationMs);
            var leased := WithLease(s, i, nowMs + durationMs);
            Apply(leased, Settle(lease, OutcomeAcknowledged, nowMs))
            == UpdateRow(leased, i, ReleaseRow(leased.deliveries[i], Acknowledged, Some(nowMs)))
  {
  }

  lemma DrainOneAcknowledges(s: Store, k: SubscriptionId, nowMs: Millis, durationMs: nat, i: DeliveryId)
    requires PairsOk(s.deliveries) && Drainable(s, k, nowMs) && FirstQueued(s.deliveries, k, i)
    requires 0 < durationMs <= I64_MAX && nowMs + durationMs <= I64_MAX
    ensures var (t, delivered) := DrainOne(s, k, nowMs, durationMs);
            && delivered == Some(s.deliveries[i].payload)
            && t.subscriptions == s.subscriptions
            && |t.deliveries| == |s.deliveries|
            && t.deliveries == s.deliveries[i := t.deliveries[i]]
            && t.deliveries[i].payload == s.deliveries[i].payload && t.deliveries[i].state == Acknowledged
  {
    DrainLeasesFirstQueued(s, k, nowMs, durationMs, i);
    LeasedRowSettles(s, k, nowMs, durationMs, i);
  }

  lemma AcknowledgedStaysDrainable(s: Store, t: Store, k: SubscriptionId, nowMs: Millis, i: DeliveryId)
    requires Drainable(s, k, nowMs) && FirstQueued(s.deliveries, k, i)
    requires t.subscriptions == s.subscriptions && |t.deliveries| == |s.deliveries|
    requires t.deliveries == s.deliveries[i := t.deliveries[i]]
    requires t.deliveries[i].payload == s.deliveries[i].payload && t.deliveries[i].state == Acknowledged
    ensures Drainable(t, k, nowMs)
    ensures Backlog(s.deliveries, k) == [s.deliveries[i].payload] + Backlog(t.deliveries, k)
  {
    BacklogHead(s.deliveries, k, i);
    PendingIgnoresBookkeeping(s.deliveries[i := s.deliveries[i].(state := Acknowledged)], t.deliveries, k);
    forall a, b | 0 <= a < b < |t.deliveries| && Mine(t.deliveries[a], k) && Mine(t.deliveries[b], k)
      ensures t.deliveries[a].payload.eventSequence.value < t.deliveries[b].payload.eventSequence.value
    {
      assert Mine(s.deliveries[a], k) && Mine(s.deliveries[b], k);
    }
  }

  /** Rows are as they were, or were queued and are acknowledged now. */
  predicate DrainedFrom(before: seq<Delivery>, after: seq<Delivery>, k: SubscriptionId) {
    && |after| == |before|
    && forall i :: 0 <= i < |before| ==>
         || after[i] == before[i]
         || (Mine(before[i], k) && before[i].state == Queued
             && after[i].payload == before[i].payload && after[i].state == Acknowledged)
  }

  lemma DrainStep(s: Store, k: SubscriptionId, nowMs: Millis, durationMs: nat, start: seq<Delivery>)
    requires StoreInv(s) && Drainable(s, k, nowMs) && Backlog(s.deliveries, k) != []
    requires 0 < durationMs <= I64_MAX && nowMs + durationMs <= I64_MAX
    requires DrainedFrom(start, s.deliveries, k)
    ensures var (t, delivered) := DrainOne(s, k, nowMs, durationMs);
            && StoreInv(t) && Drainable(t, k, nowMs) && delivered.Some? && DrainedFrom(start, t.deliveries, k)
            && Backlog(s.deliveries, k) == [delivered.value] + Backlog(t.deliveries, k)
  {
    var i := FirstPending(s.deliveries, k);
    DrainOneKeepsStore(s, k, nowMs, durationMs);
    DrainOneAcknowledges(s, k, nowMs, durationMs, i);
    AcknowledgedStaysDrainable(s, DrainOne(s, k, nowMs, durationMs).0, k, nowMs, i);
  }

  /** Repeats a step until it delivers nothing, at most `n` times; returns what was delivered, in order. */
  function Repeat(step: Store -> (Store, Option<DeliveryPayload>), s: Store, n: nat): (Store, seq<DeliveryPayload>)
    decreases n
  {
    if n == 0 || step(s).1.None? then (s, [])
    else
      var (t, rest) := Repeat(step, step(s).0, n - 1);
      (t, [step(s).1.value] + rest)
  }

  /** Each step delivers the head of what is left, and stops only when nothing is. */
  ghost predicate Consumes(step: Store -> (Store, Option<DeliveryPayload>), ready: Store -> bool,
                           left: Store -> seq<DeliveryPayload>) {
    forall s :: ready(s) ==>
      if left(s) == [] then step(s).1.None?
      else && step(s).1.Some? && ready(step(s).0)
           && left(s) == [step(s).1.value] + left(step(s).0)
  }

  lemma {:induction false} RepeatConsumesAll(step: Store -> (Store, Option<DeliveryPayload>), ready: Store -> bool,
                                             left: Store -> seq<DeliveryPayload>, s: Store, n: nat)
    requires Consumes(step, ready, left) && ready(s) && |left(s)| <= n
    ensures Repeat(step, s, n).1 == left(s)
    ensures ready(Repeat(step, s, n).0) && left(Repeat(step, s, n).0) == []
    decreases n
  {
    if left(s) != [] {
      RepeatConsumesAll(step, ready, left, step(s).0, n - 1);
    }
  }

  /** Lease and acknowledge, up to `n` times. */
  function Drain(s: Store, k: SubscriptionId, nowMs: Millis, durationMs: nat, n: nat): (Store, seq<DeliveryPayload>) {
    Repeat(x => DrainOne(x, k, nowMs, durationMs), s, n)
  }

  /** Every queued row is acknowledged, every other row is as it was, and so all rows are advancing. */
  predicate FullyDrained(before: seq<Delivery>, after: seq<Delivery>, k: SubscriptionId) {
    && |after| == |before|
    && forall i :: 0 <= i < |before| ==>
         if Mine(before[i], k) && before[i].state == Queued
         then after[i].payload == before[i].payload && after[i].state == Acknowledged
         else after[i] == before[i] && (Mine(before[i], k) ==> after[i].state.Advancing())
  }

  /** A lease-then-acknowledge loop delivers every pending event once, in order, and leaves nothing behind. */
  lemma DrainingIsTotalAndInOrder(s: Store, k: SubscriptionId, nowMs: Millis, durationMs: nat, n: nat)
    requires StoreInv(s) && Drainable(s, k, nowMs)
    requires 0 < durationMs <= I64_MAX && nowMs + durationMs <= I64_MAX
    requires |Backlog(s.deliveries, k)| <= n
    ensures var (t, delivered) := Drain(s, k, nowMs, durationMs, n);
            delivered == Backlog(s.deliveries, k) && FullyDrained(s.deliveries, t.deliveries, k)
  {
    var step := (x: Store) => DrainOne(x, k, nowMs, durationMs);
    var ready := (x: Store) => StoreInv(x) && Drainable(x, k, nowMs) && DrainedFrom(s.deliveries, x.deliveries, k);
    var left := (x: Store) => Backlog(x.deliveries, k);
    forall x | ready(x)
      ensures left(x) == [] ==> step(x).1.None?
      ensures left(x) != [] ==> && step(x).1.Some? && ready(step(x).0)
                                && left(x) == [step(x).1.value] + left(step(x).0)
    {
      if left(x) == [] {
        DrainStopsWhenEmpty(x, k, nowMs, durationMs);
      } else {
        DrainStep(x, k, nowMs, durationMs, s.deliveries);
      }
    }
    RepeatConsumesAll(step, ready, left, s, n);
    assert Drain(s, k, nowMs, durationMs, n) == Repeat(step, s, n);
    NothingLeftIsFull(s.deliveries, Repeat(step, s, n).0, k, nowMs);
  }

  lemma NothingLeftIsFull(before: seq<Delivery>, t: Store, k: SubscriptionId, nowMs: Millis)
    requires ReadyRows(t, k, nowMs) && DrainedFrom(before, t.deliveries, k) && Backlog(t.deliveries, k) == []
    ensures FullyDrained(before, t.deliveries, k)
  {
    NoBacklog(t.deliveries, k);
  }
}
