/** The catalog's tables as values, and the effect of each transaction on them. */
module Tables {
  import opened Wrappers
  import opened Domain
  import opened Backoff

  // ---------- Rows ----------

  datatype RecordRow = RecordRow(
    identity: RecordIdentity,
    location: LogicalLocation,
    recordVersion: nat,
    state: RecordState,
    currentRevisionId: Option<RevisionId>)

  datatype RevisionRow = RevisionRow(recordId: RecordId, revision: CanonicalRevision)

  datatype SubscriptionMode = ReplayEvents | RebuildCurrent

  datatype SubscriptionConfigFields = SubscriptionConfigFields(
    consumerId: string,
    maxActiveLeases: nat,
    acceptsMoves: bool,
    acceptsTombstones: bool,
    replayAfterSequence: nat,
    retryPolicy: RetryPolicy)

  /** `SubscriptionConfig::new` refuses a zero lease limit. */
  type SubscriptionConfig = c: SubscriptionConfigFields | 0 < c.maxActiveLeases
    witness SubscriptionConfigFields("c", 1, true, true, 0, RetryPolicyFields(8, 1000, 60000))

  datatype Subscription = Subscription(
    mode: SubscriptionMode,
    consumerId: string,
    maxActiveLeases: nat,
    acceptsMoves: bool,
    acceptsTombstones: bool,
    enabled: bool,
    retryPolicy: RetryPolicy)

  datatype DeliveryState = Queued | Leased | Blocked | Acknowledged | Superseded | IgnoredByPolicy | DeadLettered
  {
    /** The states that release later versions of the same record. */
    predicate Advancing() {
      Acknowledged? || Superseded? || IgnoredByPolicy?
    }

    /** The states no transaction of the catalog ever leaves. */
    predicate Final() {
      !Queued? && !Leased?
    }
  }

  /** The columns of a delivery that are written once, when it is enqueued. */
  datatype DeliveryPayload = DeliveryPayload(
    subscriptionId: SubscriptionId,
    eventId: Uuid,
    eventSequence: Option<nat>,
    recordId: RecordId,
    recordVersion: nat,
    kind: EventKind,
    revisionId: Option<RevisionId>,
    location: Option<LogicalLocation>,
    isSnapshot: bool)

  datatype Delivery = Delivery(
    payload: DeliveryPayload,
    state: DeliveryState,
    attempts: nat,
    leaseToken: Option<Uuid>,
    leaseExpiresAtMs: Option<Millis>,
    notBeforeMs: Millis,
    settledAtMs: Option<Millis>)

  datatype DeliveryLease = DeliveryLease(
    deliveryId: DeliveryId,
    payload: DeliveryPayload,
    revision: Option<CanonicalRevision>,
    attempt: nat,
    token: Uuid,
    expiresAtMs: Millis)

  datatype DeliveryError = InvalidLeaseDuration | UnknownSubscription | StaleLease | ExceedsSqliteRange

  datatype Store = Store(
    records: seq<RecordRow>,
    revisions: seq<RevisionRow>,
    events: seq<ArchiveEvent>,
    subscriptions: seq<Subscription>,
    deliveries: seq<Delivery>,
    nextId: Uuid)

  const EMPTY_STORE := Store([], [], [], [], [], 0)

  // ---------- Lookups ----------

  function FindRecord(records: seq<RecordRow>, identity: RecordIdentity): (r: Option<RecordId>)
    ensures r.Some? ==> r.value < |records| && records[r.value].identity == identity
    ensures r.None? ==> forall i :: 0 <= i < |records| ==> records[i].identity != identity
  {
    if records == [] then None
    else
      var last := |records| - 1;
      if records[last].identity == identity then Some(last) else FindRecord(records[..last], identity)
  }

  function FindRevision(revisions: seq<RevisionRow>, row: RevisionRow): (r: Option<RevisionId>)
    ensures r.Some? ==> r.value < |revisions| && revisions[r.value] == row
    ensures r.None? ==> row !in revisions
  {
    if revisions == [] then None
    else
      var last := |revisions| - 1;
      if revisions[last] == row then Some(last) else FindRevision(revisions[..last], row)
  }

  /** The left join of a revision id with the revisions table. */
  function RevisionOf(revisions: seq<RevisionRow>, id: Option<RevisionId>): Option<CanonicalRevision> {
    if id.Some? && id.value < |revisions| then Some(revisions[id.value].revision) else None
  }

  // ---------- Fan-out ----------

  function InitialDeliveryState(acceptsMoves: bool, acceptsTombstones: bool, kind: EventKind)
    : (state: DeliveryState)
    ensures state == Blocked <==> (kind == LocationChanged && !acceptsMoves) || (kind == RecordTombstoned && !acceptsTombstones)
    ensures state == Blocked || state == Queued
  {
    match kind
    case LocationChanged => if acceptsMoves then Queued else Blocked
    case RecordTombstoned => if acceptsTombstones then Queued else Blocked
    case _ => Queued
  }

  function PayloadOf(subscriptionId: SubscriptionId, event: ArchiveEvent, isSnapshot: bool): DeliveryPayload {
    DeliveryPayload(subscriptionId, event.id, if isSnapshot then None else Some(event.sequence), event.recordId,
                    event.recordVersion, event.kind, event.revisionId, event.location, isSnapshot)
  }

  function NewDelivery(subscriptionId: SubscriptionId, subscription: Subscription, event: ArchiveEvent,
                       isSnapshot: bool): Delivery {
    var state := InitialDeliveryState(subscription.acceptsMoves, subscription.acceptsTombstones, event.kind);
    Delivery(PayloadOf(subscriptionId, event, isSnapshot), state, 0, None, None, 0, None)
  }

  /** One row per subscription, paused ones included. */
  function FanOut(subscriptions: seq<Subscription>, event: ArchiveEvent): seq<Delivery> {
    seq(|subscriptions|, i requires 0 <= i < |subscriptions| => NewDelivery(i, subscriptions[i], event, false))
  }

  // ---------- The event ledger ----------

  function NextEvent(s: Store, r: RecordId, kind: EventKind, revisionId: Option<RevisionId>,
                     location: LogicalLocation, nowMs: Millis): ArchiveEvent
    requires r < |s.records|
  {
    ArchiveEvent(s.nextId, |s.events| + 1, r, s.records[r].recordVersion + 1, kind, revisionId, Some(location), nowMs)
  }

  /** Moves one record to its next version, appends the event and fans it out. */
  function Transition(s: Store, r: RecordId, kind: EventKind, revisionId: Option<RevisionId>,
                      location: LogicalLocation, state: RecordState, nowMs: Millis): Store
    requires r < |s.records|
  {
    var event := NextEvent(s, r, kind, revisionId, location, nowMs);
    var row := RecordRow(s.records[r].identity, location, event.recordVersion, state, revisionId);
    s.(records := s.records[r := row],
       events := s.events + [event],
       deliveries := s.deliveries + FanOut(s.subscriptions, event),
       nextId := s.nextId + 1)
  }

  /** Finds the record with this identity, or inserts it at version 0. */
  function AdmitRecord(s: Store, identity: RecordIdentity, location: LogicalLocation): (p: (Store, RecordId))
    ensures p.1 < |p.0.records|
  {
    var found := FindRecord(s.records, identity);
    if found.Some? then (s, found.value)
    else (s.(records := s.records + [RecordRow(identity, location, 0, Active, None)]), |s.records|)
  }

  function RestoreIfTombstoned(s: Store, r: RecordId, location: LogicalLocation, nowMs: Millis): (t: Store)
    requires r < |s.records|
    ensures |t.records| == |s.records|
  {
    if s.records[r].state == Tombstoned
    then Transition(s, r, RecordRestored, s.records[r].currentRevisionId, location, Active, nowMs)
    else s
  }

  function EnsureRevision(s: Store, r: RecordId, revision: CanonicalRevision): (p: (Store, RevisionId))
    ensures p.0.records == s.records
  {
    var row := RevisionRow(r, revision);
    var found := FindRevision(s.revisions, row);
    if found.Some? then (s, found.value)
    else (s.(revisions := s.revisions + [row]), |s.revisions|)
  }

  /** Commits a new revision, or else a move, or else nothing. */
  function CommitObserved(s: Store, r: RecordId, location: LogicalLocation, revision: CanonicalRevision,
                          nowMs: Millis): Store
    requires r < |s.records|
  {
    var current := RevisionOf(s.revisions, s.records[r].currentRevisionId);
    var (t, revisionId) := EnsureRevision(s, r, revision);
    if current != Some(revision) then
      Transition(t, r, RevisionCommitted, Some(revisionId), location, Active, nowMs)
    else if s.records[r].location != location then
      Transition(t, r, LocationChanged, t.records[r].currentRevisionId, location, Active, nowMs)
    else t
  }

  function ObservePresent(s: Store, identity: RecordIdentity, location: LogicalLocation,
                          revision: CanonicalRevision, nowMs: Millis): Store
  {
    var (admitted, r) := AdmitRecord(s, identity, location);
    var restored := RestoreIfTombstoned(admitted, r, location, nowMs);
    CommitObserved(restored, r, location, revision, nowMs)
  }

  function TombstoneRecord(s: Store, r: RecordId, nowMs: Millis): Store
    requires r < |s.records|
  {
    if s.records[r].state == Tombstoned then s
    else Transition(s, r, RecordTombstoned, s.records[r].currentRevisionId, s.records[r].location, Tombstoned, nowMs)
  }

  function TombstoneIdentity(s: Store, identity: RecordIdentity, nowMs: Millis): Store {
    var found := FindRecord(s.records, identity);
    if found.None? then s else TombstoneRecord(s, found.value, nowMs)
  }

  // ---------- Creating a subscription ----------

  function NewSubscription(config: SubscriptionConfig, mode: SubscriptionMode): Subscription {
    Subscription(mode, config.consumerId, config.maxActiveLeases, config.acceptsMoves, config.acceptsTombstones,
                 true, config.retryPolicy)
  }

  /** `SELECT ... FROM events WHERE sequence > after ORDER BY sequence`. */
  function EventsAfter(events: seq<ArchiveEvent>, after: nat): seq<ArchiveEvent> {
    if events == [] then []
    else
      var last := |events| - 1;
      EventsAfter(events[..last], after) + (if events[last].sequence > after then [events[last]] else [])
  }

  function EnqueueAll(k: SubscriptionId, subscription: Subscription, events: seq<ArchiveEvent>,
                      isSnapshot: bool): seq<Delivery> {
    seq(|events|, i requires 0 <= i < |events| => NewDelivery(k, subscription, events[i], isSnapshot))
  }

  /** One synthetic event per active record, in table order, with fresh event identities. */
  function Snapshots(records: seq<RecordRow>, firstId: Uuid, nowMs: Millis): seq<ArchiveEvent> {
    if records == [] then []
    else
      var last := |records| - 1;
      var earlier := Snapshots(records[..last], firstId, nowMs);
      if records[last].state == Tombstoned then earlier
      else earlier + [ArchiveEvent(firstId + |earlier|, 0, last, records[last].recordVersion, RevisionCommitted,
                                   records[last].currentRevisionId, Some(records[last].location), nowMs)]
  }

  /** Inserts the subscription and its first rows; snapshot events use up fresh identities. */
  function AddSubscription(s: Store, subscription: Subscription, events: seq<ArchiveEvent>, isSnapshot: bool): Store {
    s.(subscriptions := s.subscriptions + [subscription],
       deliveries := s.deliveries + EnqueueAll(|s.subscriptions|, subscription, events, isSnapshot),
       nextId := s.nextId + if isSnapshot then |events| else 0)
  }

  function InitialEvents(s: Store, config: SubscriptionConfig, mode: SubscriptionMode, nowMs: Millis)
    : seq<ArchiveEvent> {
    match mode
    case ReplayEvents => EventsAfter(s.events, config.replayAfterSequence)
    case RebuildCurrent => Snapshots(s.records, s.nextId, nowMs)
  }

  function CreateSubscription(s: Store, config: SubscriptionConfig, mode: SubscriptionMode, nowMs: Millis)
    : (Store, Result<SubscriptionId, DeliveryError>)
  {
    if config.retryPolicy.maxBackoffMs > I64_MAX then (s, Err(ExceedsSqliteRange))
    else if mode == ReplayEvents && config.replayAfterSequence > I64_MAX then (s, Err(ExceedsSqliteRange))
    else
      var events := InitialEvents(s, config, mode, nowMs);
      (AddSubscription(s, NewSubscription(config, mode), events, mode == RebuildCurrent), Ok(|s.subscriptions|))
  }

  function SetSubscriptionEnabled(s: Store, k: SubscriptionId, enabled: bool): (Store, Result<(), DeliveryError>) {
    if k >= |s.subscriptions| then (s, Err(UnknownSubscription))
    else (s.(subscriptions := s.subscriptions[k := s.subscriptions[k].(enabled := enabled)]), Ok(()))
  }

  // ---------- Leasing ----------

  /** A leased row goes back to the queue, or to the dead letters once its attempts are spent. */
  function ReturnToQueue(d: Delivery, maxAttempts: nat, notBeforeMs: Millis, nowMs: Millis): Delivery {
    var spent := d.attempts >= maxAttempts;
    d.(state := if spent then DeadLettered else Queued,
       leaseToken := None,
       leaseExpiresAtMs := None,
       notBeforeMs := if spent then d.notBeforeMs else notBeforeMs,
       settledAtMs := if spent then Some(nowMs) else None)
  }

  predicate Expired(d: Delivery, k: SubscriptionId, nowMs: Millis) {
    d.payload.subscriptionId == k && d.state == Leased && d.leaseExpiresAtMs.Some? && d.leaseExpiresAtMs.value <= nowMs
  }

  function ExpireRow(d: Delivery, k: SubscriptionId, policy: RetryPolicy, nowMs: Millis): Delivery {
    var notBefore := RetryNotBeforeMs(policy, d.attempts, nowMs);
    if Expired(d, k, nowMs) && notBefore.Some? then ReturnToQueue(d, policy.maxAttempts, notBefore.value, nowMs) else d
  }

  /** Every expired lease has a retry instant that still fits 64 bits. */
  predicate ExpiryFits(deliveries: seq<Delivery>, k: SubscriptionId, policy: RetryPolicy, nowMs: Millis) {
    forall i :: 0 <= i < |deliveries| ==>
      Expired(deliveries[i], k, nowMs) ==> RetryNotBeforeMs(policy, deliveries[i].attempts, nowMs).Some?
  }

  function ExpireLeases(deliveries: seq<Delivery>, k: SubscriptionId, policy: RetryPolicy, nowMs: Millis)
    : seq<Delivery> {
    seq(|deliveries|, i requires 0 <= i < |deliveries| => ExpireRow(deliveries[i], k, policy, nowMs))
  }

  function CountState(deliveries: seq<Delivery>, k: SubscriptionId, state: DeliveryState): nat {
    if deliveries == [] then 0
    else
      var last := |deliveries| - 1;
      CountState(deliveries[..last], k, state) +
      if deliveries[last].payload.subscriptionId == k && deliveries[last].state == state then 1 else 0
  }

  /** `prior` is a lower version of the same subscription and record. */
  predicate Precedes(prior: DeliveryPayload, later: DeliveryPayload) {
    && prior.subscriptionId == later.subscriptionId
    && prior.recordId == later.recordId
    && prior.recordVersion < later.recordVersion
  }

  predicate Unobstructed(deliveries: seq<Delivery>, payload: DeliveryPayload) {
    forall p :: 0 <= p < |deliveries| ==> Precedes(deliveries[p].payload, payload) ==> deliveries[p].state.Advancing()
  }

  predicate Eligible(deliveries: seq<Delivery>, i: DeliveryId, k: SubscriptionId, nowMs: Millis)
    requires i < |deliveries|
  {
    && deliveries[i].payload.subscriptionId == k
    && deliveries[i].state == Queued
    && deliveries[i].notBeforeMs <= nowMs
    && Unobstructed(deliveries, deliveries[i].payload)
  }

  /** Ledger events before snapshots, lower sequences first, lower delivery ids last resort. */
  predicate LeaseOrder(deliveries: seq<Delivery>, i: DeliveryId, j: DeliveryId)
    requires i < |deliveries| && j < |deliveries|
  {
    var a, b := deliveries[i].payload.eventSequence, deliveries[j].payload.eventSequence;
    if a.Some? != b.Some? then a.Some?
    else if a.Some? && a != b then a.value < b.value
    else i <= j
  }

  function SelectUpTo(deliveries: seq<Delivery>, n: nat, k: SubscriptionId, nowMs: Millis): (r: Option<DeliveryId>)
    requires n <= |deliveries|
    ensures r.None? ==> forall i :: 0 <= i < n ==> !Eligible(deliveries, i, k, nowMs)
    ensures r.Some? ==> r.value < n && Eligible(deliveries, r.value, k, nowMs)
    ensures r.Some? ==> forall i :: 0 <= i < n && Eligible(deliveries, i, k, nowMs) ==> LeaseOrder(deliveries, r.value, i)
  {
    if n == 0 then None
    else
      var best := SelectUpTo(deliveries, n - 1, k, nowMs);
      if !Eligible(deliveries, n - 1, k, nowMs) then best
      else if best.Some? && LeaseOrder(deliveries, best.value, n - 1) then best
      else Some(n - 1)
  }

  /** The least eligible row of the subscription, when there is one. */
  function SelectCandidate(deliveries: seq<Delivery>, k: SubscriptionId, nowMs: Millis): Option<DeliveryId> {
    SelectUpTo(deliveries, |deliveries|, k, nowMs)
  }

  function LeaseRow(d: Delivery, token: Uuid, expiresAtMs: Millis): Delivery {
    d.(state := Leased, attempts := d.attempts + 1, leaseToken := Some(token), leaseExpiresAtMs := Some(expiresAtMs))
  }

  function LeaseFor(s: Store, i: DeliveryId, d: Delivery, expiresAtMs: Millis): DeliveryLease {
    DeliveryLease(i, d.payload, RevisionOf(s.revisions, d.payload.revisionId), d.attempts + 1, s.nextId, expiresAtMs)
  }

  function LeaseNext(s: Store, k: SubscriptionId, nowMs: Millis, durationMs: nat)
    : (Store, Result<Option<DeliveryLease>, DeliveryError>)
  {
    if durationMs == 0 || durationMs > I64_MAX || nowMs + durationMs > I64_MAX then (s, Err(InvalidLeaseDuration))
    else if k >= |s.subscriptions| then (s, Err(UnknownSubscription))
    else if !s.subscriptions[k].enabled then (s, Ok(None))
    else
      var policy := s.subscriptions[k].retryPolicy;
      if !ExpiryFits(s.deliveries, k, policy, nowMs) then (s, Err(InvalidLeaseDuration))
      else
        var rows := ExpireLeases(s.deliveries, k, policy, nowMs);
        var candidate := SelectCandidate(rows, k, nowMs);
        if CountState(rows, k, Leased) >= s.subscriptions[k].maxActiveLeases || candidate.None? then
          (s.(deliveries := rows), Ok(None))
        else
          var i := candidate.value;
          (s.(deliveries := rows[i := LeaseRow(rows[i], s.nextId, nowMs + durationMs)], nextId := s.nextId + 1),
           Ok(Some(LeaseFor(s, i, rows[i], nowMs + durationMs))))
  }

  // ---------- Settling ----------

  /** The `WHERE` clause shared by settle, retry and block: this token still holds an unexpired lease. */
  predicate HoldsLease(deliveries: seq<Delivery>, lease: DeliveryLease, nowMs: Millis) {
    && lease.deliveryId < |deliveries|
    && var d := deliveries[lease.deliveryId];
    && d.payload.subscriptionId == lease.payload.subscriptionId
    && d.state == Leased
    && d.leaseToken == Some(lease.token)
    && d.leaseExpiresAtMs.Some? && d.leaseExpiresAtMs.value > nowMs
  }

  function OutcomeState(outcome: DeliveryOutcome): (state: DeliveryState)
    ensures state.Final() && (state.Advancing() <==> outcome.AdvancesRecordOrder())
  {
    match outcome
    case OutcomeAcknowledged => Acknowledged
    case OutcomeSuperseded => Superseded
    case OutcomeIgnoredByPolicy => IgnoredByPolicy
    case OutcomeDeadLettered => DeadLettered
  }

  function ReleaseRow(d: Delivery, state: DeliveryState, settledAtMs: Option<Millis>): Delivery {
    d.(state := state, leaseToken := None, leaseExpiresAtMs := None, settledAtMs := settledAtMs)
  }

  function UpdateRow(s: Store, i: DeliveryId, d: Delivery): Store
    requires i < |s.deliveries|
  {
    s.(deliveries := s.deliveries[i := d])
  }

  function SettleDelivery(s: Store, lease: DeliveryLease, outcome: DeliveryOutcome, nowMs: Millis)
    : (Store, Result<(), DeliveryError>)
  {
    if !HoldsLease(s.deliveries, lease, nowMs) then (s, Err(StaleLease))
    else
      var i := lease.deliveryId;
      (UpdateRow(s, i, ReleaseRow(s.deliveries[i], OutcomeState(outcome), Some(nowMs))), Ok(()))
  }

  function RetryDelivery(s: Store, lease: DeliveryLease, nowMs: Millis): (Store, Result<(), DeliveryError>) {
    var k := lease.payload.subscriptionId;
    if k >= |s.subscriptions| then (s, Err(UnknownSubscription))
    else
      var policy := s.subscriptions[k].retryPolicy;
      var notBefore := RetryNotBeforeMs(policy, lease.attempt, nowMs);
      if notBefore.None? then (s, Err(InvalidLeaseDuration))
      else if !HoldsLease(s.deliveries, lease, nowMs) then (s, Err(StaleLease))
      else
        var i := lease.deliveryId;
        (UpdateRow(s, i, ReturnToQueue(s.deliveries[i], policy.maxAttempts, notBefore.value, nowMs)), Ok(()))
  }

  function BlockDelivery(s: Store, lease: DeliveryLease, nowMs: Millis): (Store, Result<(), DeliveryError>) {
    if !HoldsLease(s.deliveries, lease, nowMs) then (s, Err(StaleLease))
    else
      var i := lease.deliveryId;
      (UpdateRow(s, i, ReleaseRow(s.deliveries[i], Blocked, None)), Ok(()))
  }

  // ---------- Runs ----------

  /** The public transactions on the ledger and the delivery queue. */
  datatype Op =
    | Observe(identity: RecordIdentity, location: LogicalLocation, revision: CanonicalRevision, nowMs: Millis)
    | Tombstone(identity: RecordIdentity, nowMs: Millis)
    | Create(config: SubscriptionConfig, mode: SubscriptionMode, nowMs: Millis)
    | SetEnabled(k: SubscriptionId, enabled: bool)
    | Lease(k: SubscriptionId, nowMs: Millis, durationMs: nat)
    | Settle(lease: DeliveryLease, outcome: DeliveryOutcome, nowMs: Millis)
    | Retry(lease: DeliveryLease, nowMs: Millis)
    | Block(lease: DeliveryLease, nowMs: Millis)

  function Apply(s: Store, op: Op): Store {
    match op
    case Observe(identity, location, revision, nowMs) => ObservePresent(s, identity, location, revision, nowMs)
    case Tombstone(identity, nowMs) => TombstoneIdentity(s, identity, nowMs)
    case Create(config, mode, nowMs) => CreateSubscription(s, config, mode, nowMs).0
    case SetEnabled(k, enabled) => SetSubscriptionEnabled(s, k, enabled).0
    case Lease(k, nowMs, durationMs) => LeaseNext(s, k, nowMs, durationMs).0
    case Settle(lease, outcome, nowMs) => SettleDelivery(s, lease, outcome, nowMs).0
    case Retry(lease, nowMs) => RetryDelivery(s, lease, nowMs).0
    case Block(lease, nowMs) => BlockDelivery(s, lease, nowMs).0
  }

  function Run(s: Store, ops: seq<Op>): Store
    decreases |ops|
  {
    if ops == [] then s else Run(Apply(s, ops[0]), ops[1..])
  }
}
