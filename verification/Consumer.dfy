/**
 * One subscription's consumer end to end: lease, ingest, receipt and settlement, with a crash possible between any
 * two of them and the rest of the catalog moving meanwhile.
 */
module Consumer {
  import opened Wrappers
  import opened Domain
  import opened Tables
  import opened Queue
  import opened QueueLaws
  import opened Owed

  // ---------- Receipts ----------

  /** The fields a receipt file holds, in place of their JSON text. */
  datatype Receipt = Receipt(
    subscriptionId: SubscriptionId,
    eventId: Uuid,
    eventSequence: Option<nat>,
    recordId: RecordId,
    recordVersion: nat,
    kind: EventKind,
    location: Option<LogicalLocation>,
    payload: Option<CanonicalRevision>)

  function ReceiptFor(p: DeliveryPayload, revision: Option<CanonicalRevision>): Receipt {
    Receipt(p.subscriptionId, p.eventId, p.eventSequence, p.recordId, p.recordVersion, p.kind, p.location, revision)
  }

  /** Where the receipt of a delivery lives: one file per subscription and event. */
  function KeyOf(p: DeliveryPayload): (SubscriptionId, Uuid) { (p.subscriptionId, p.eventId) }

  function ReceiptOf(lease: DeliveryLease): Receipt { ReceiptFor(lease.payload, lease.revision) }

  /** A delivery without bytes cannot be applied downstream, and says so. */
  function ReceiptOutcome(lease: DeliveryLease): DeliveryOutcome {
    if lease.revision.Some? then OutcomeAcknowledged else OutcomeIgnoredByPolicy
  }

  /** One receipt file for each subscription and event, and its content is what it was written for, column by column. */
  lemma ReceiptsTellApart(p: DeliveryPayload, q: DeliveryPayload, a: Option<CanonicalRevision>, b: Option<CanonicalRevision>)
    ensures KeyOf(p) == KeyOf(q) <==> p.subscriptionId == q.subscriptionId && p.eventId == q.eventId
    ensures ReceiptFor(p, a) == ReceiptFor(q, b) <==>
            && p.(revisionId := q.revisionId, isSnapshot := q.isSnapshot) == q && a == b
  {
  }

  // ---------- The engine ----------

  datatype LogEntry =
    | Ingested(eventId: Uuid, recordId: RecordId, recordVersion: nat)
    | ReceiptWritten(eventId: Uuid)

  datatype Phase =
    | Idle
    | Holding(lease: DeliveryLease)
    | Applied(lease: DeliveryLease)
    | Receipted(lease: DeliveryLease)

  datatype Engine = Engine(
    store: Store,
    receipts: map<(SubscriptionId, Uuid), Receipt>,
    log: seq<LogEntry>,
    phase: Phase,
    conflict: bool)

  datatype Step =
    | Elsewhere(op: Op)
    | TakeLease(nowMs: Millis, durationMs: nat)
    | Ingest(succeeds: bool)
    | WriteReceipt
    | Recognize
    | SettleLease(nowMs: Millis)
    | RetryLease(nowMs: Millis)
    | BlockLease(nowMs: Millis)
    | Crash

  /** A transaction of the catalog that is not this consumer leasing or settling. */
  predicate Foreign(op: Op, k: SubscriptionId) {
    match op
    case Lease(l, _, _) => l != k
    case Settle(lease, _, _) => lease.payload.subscriptionId != k
    case Retry(lease, _) => lease.payload.subscriptionId != k
    case Block(lease, _) => lease.payload.subscriptionId != k
    case _ => true
  }

  function Take(e: Engine, k: SubscriptionId, nowMs: Millis, durationMs: nat): Engine {
    var result := LeaseNext(e.store, k, nowMs, durationMs).1;
    e.(store := Apply(e.store, Lease(k, nowMs, durationMs)),
       phase := if result.Ok? && result.value.Some? then Holding(result.value.value) else Idle)
  }

  /** A step that the current phase does not allow changes nothing. */
  function StepEngine(e: Engine, k: SubscriptionId, step: Step): Engine {
    match step
    case Elsewhere(op) => if Foreign(op, k) then e.(store := Apply(e.store, op)) else e
    case TakeLease(nowMs, durationMs) => if e.phase.Idle? then Take(e, k, nowMs, durationMs) else e
    case Ingest(succeeds) =>
      if e.phase.Holding? && e.phase.lease.revision.Some? && KeyOf(e.phase.lease.payload) !in e.receipts then
        var p := e.phase.lease.payload;
        e.(log := e.log + [Ingested(p.eventId, p.recordId, p.recordVersion)],
           phase := if succeeds then Applied(e.phase.lease) else e.phase)
      else e
    case WriteReceipt =>
      if e.phase.Applied? || (e.phase.Holding? && e.phase.lease.revision.None?
                              && KeyOf(e.phase.lease.payload) !in e.receipts) then
        var eventId := e.phase.lease.payload.eventId;
        e.(receipts := e.receipts[KeyOf(e.phase.lease.payload) := ReceiptOf(e.phase.lease)],
           log := e.log + [ReceiptWritten(eventId)],
           phase := Receipted(e.phase.lease))
      else e
    case Recognize =>
      if e.phase.Holding? && KeyOf(e.phase.lease.payload) in e.receipts then
        if e.receipts[KeyOf(e.phase.lease.payload)] == ReceiptOf(e.phase.lease)
        then e.(phase := Receipted(e.phase.lease)) else e.(conflict := true)
      else e
    case SettleLease(nowMs) =>
      if e.phase.Receipted? then
        e.(store := Apply(e.store, Settle(e.phase.lease, ReceiptOutcome(e.phase.lease), nowMs)), phase := Idle)
      else e
    case RetryLease(nowMs) =>
      if !e.phase.Idle? then
        e.(store := Apply(e.store, Retry(e.phase.lease, nowMs)), phase := Idle)
      else e
    case BlockLease(nowMs) =>
      if e.phase.Holding? then e.(store := Apply(e.store, Block(e.phase.lease, nowMs)), phase := Idle) else e
    case Crash => e.(phase := Idle)
  }

  function RunEngine(e: Engine, k: SubscriptionId, steps: seq<Step>): Engine
    decreases |steps|
  {
    if steps == [] then e else RunEngine(StepEngine(e, k, steps[0]), k, steps[1..])
  }

  // ---------- The invariant ----------

  /** Row `i` carries this event to subscription `k`, and has been leased at least once. */
  predicate CarriedBy(s: Store, k: SubscriptionId, i: DeliveryId, eventId: Uuid) {
    i < |s.deliveries| && Mine(s.deliveries[i], k) && s.deliveries[i].payload.eventId == eventId
    && 0 < s.deliveries[i].attempts
  }

  function RowReceipt(s: Store, i: DeliveryId): Receipt
    requires i < |s.deliveries|
  {
    ReceiptFor(s.deliveries[i].payload, RevisionOf(s.revisions, s.deliveries[i].payload.revisionId))
  }

  predicate ReceiptBacked(s: Store, k: SubscriptionId, eventId: Uuid, receipt: Receipt) {
    exists i :: 0 <= i < |s.deliveries| && CarriedBy(s, k, i, eventId) && receipt == RowReceipt(s, i)
  }

  predicate EntryBacked(s: Store, k: SubscriptionId, entry: LogEntry) {
    entry.Ingested? ==>
      exists i :: 0 <= i < |s.deliveries| && CarriedBy(s, k, i, entry.eventId)
                  && s.deliveries[i].payload.recordId == entry.recordId
                  && s.deliveries[i].payload.recordVersion == entry.recordVersion
  }

  predicate ReceiptsBacked(e: Engine, k: SubscriptionId) {
    forall key :: key in e.receipts && key.0 == k ==> ReceiptBacked(e.store, k, key.1, e.receipts[key])
  }

  predicate LogBacked(e: Engine, k: SubscriptionId) {
    forall n :: 0 <= n < |e.log| ==> EntryBacked(e.store, k, e.log[n])
  }

  /** Per record, ingested versions never decrease. */
  predicate VersionsAscend(log: seq<LogEntry>) {
    forall m, n :: 0 <= m < n < |log| && log[m].Ingested? && log[n].Ingested? && log[m].recordId == log[n].recordId ==>
      log[m].recordVersion <= log[n].recordVersion
  }

  /** Nothing is ingested once its receipt is written. */
  predicate ReceiptsEndIngestion(log: seq<LogEntry>) {
    forall m, n :: 0 <= m < n < |log| && log[m].ReceiptWritten? && log[n].Ingested? ==> log[m].eventId != log[n].eventId
  }

  predicate ReceiptsLogged(e: Engine, k: SubscriptionId) {
    forall n :: 0 <= n < |e.log| && e.log[n].ReceiptWritten? ==> (k, e.log[n].eventId) in e.receipts
  }

  /** Every acknowledged row of the subscription has its receipt. */
  predicate AcksHaveReceipts(e: Engine, k: SubscriptionId) {
    forall i :: 0 <= i < |e.store.deliveries| && Acked(e.store, i, k) ==>
      KeyOf(e.store.deliveries[i].payload) in e.receipts
  }

  /** The lease in hand is still the one on its row. */
  predicate InHand(s: Store, k: SubscriptionId, lease: DeliveryLease) {
    && lease.payload.subscriptionId == k
    && TokenHeld(s, lease)
    && s.deliveries[lease.deliveryId].payload == lease.payload
    && s.deliveries[lease.deliveryId].state == Leased
    && lease.revision == RevisionOf(s.revisions, lease.payload.revisionId)
    && lease.token < s.nextId
  }

  predicate PhaseOk(e: Engine, k: SubscriptionId) {
    && (!e.phase.Idle? ==> InHand(e.store, k, e.phase.lease))
    && (e.phase.Applied? ==> KeyOf(e.phase.lease.payload) !in e.receipts)
    && (e.phase.Receipted? ==> KeyOf(e.phase.lease.payload) in e.receipts)
  }

  predicate EngineInv(e: Engine, k: SubscriptionId) {
    && StoreInv(e.store)
    && PhaseOk(e, k)
    && ReceiptsBacked(e, k) && LogBacked(e, k) && AcksHaveReceipts(e, k)
    && VersionsAscend(e.log) && ReceiptsEndIngestion(e.log) && ReceiptsLogged(e, k)
    && !e.conflict
  }

  // ---------- Evidence survives store steps ----------

  lemma CarriedStays(s: Store, t: Store, k: SubscriptionId, i: DeliveryId, eventId: Uuid)
    requires Evolves(s, t) && RowsOk(s) && CarriedBy(s, k, i, eventId)
    ensures CarriedBy(t, k, i, eventId) && t.deliveries[i].payload == s.deliveries[i].payload
    ensures RowReceipt(t, i) == RowReceipt(s, i)
  {
    assert RowEvolves(s.deliveries[i], t.deliveries[i], s.nextId);
    assert RowOk(s, s.deliveries[i]);
  }

  lemma BackingStays(e: Engine, t: Store, k: SubscriptionId)
    requires Evolves(e.store, t) && RowsOk(e.store) && ReceiptsBacked(e, k) && LogBacked(e, k)
    ensures ReceiptsBacked(e.(store := t), k) && LogBacked(e.(store := t), k)
  {
    var s := e.store;
    forall key | key in e.receipts && key.0 == k
      ensures ReceiptBacked(t, k, key.1, e.receipts[key])
    {
      assert ReceiptBacked(s, k, key.1, e.receipts[key]);
      var i :| 0 <= i < |s.deliveries| && CarriedBy(s, k, i, key.1) && e.receipts[key] == RowReceipt(s, i);
      CarriedStays(s, t, k, i, key.1);
    }
    forall n | 0 <= n < |e.log|
      ensures EntryBacked(t, k, e.log[n])
    {
      EntryStays(s, t, k, e.log[n]);
    }
  }

  lemma EntryStays(s: Store, t: Store, k: SubscriptionId, entry: LogEntry)
    requires Evolves(s, t) && RowsOk(s) && EntryBacked(s, k, entry)
    ensures EntryBacked(t, k, entry)
  {
    if entry.Ingested? {
      var i :| 0 <= i < |s.deliveries| && CarriedBy(s, k, i, entry.eventId)
               && s.deliveries[i].payload.recordId == entry.recordId
               && s.deliveries[i].payload.recordVersion == entry.recordVersion;
      CarriedStays(s, t, k, i, entry.eventId);
    }
  }

  /** Two rows of one subscription never carry the same event. */
  lemma CarrierIsUnique(s: Store, i: DeliveryId, j: DeliveryId)
    requires QueueOk(s) && i < |s.deliveries| && j < |s.deliveries|
    requires s.deliveries[i].payload.subscriptionId == s.deliveries[j].payload.subscriptionId
    requires s.deliveries[i].payload.eventId == s.deliveries[j].payload.eventId
    ensures i == j
  {
    assert i < j ==> PairOk(s.deliveries[i], s.deliveries[j]);
    assert j < i ==> PairOk(s.deliveries[j], s.deliveries[i]);
  }

  /** A receipt found for the lease in hand is the receipt the lease would write. */
  lemma ReceiptsNeverConflict(e: Engine, k: SubscriptionId)
    requires QueueOk(e.store) && ReceiptsBacked(e, k) && !e.phase.Idle? && InHand(e.store, k, e.phase.lease)
    requires KeyOf(e.phase.lease.payload) in e.receipts
    ensures e.receipts[KeyOf(e.phase.lease.payload)] == ReceiptOf(e.phase.lease)
  {
    var s, lease := e.store, e.phase.lease;
    var key := KeyOf(lease.payload);
    assert ReceiptBacked(s, k, key.1, e.receipts[key]);
    var i :| 0 <= i < |s.deliveries| && CarriedBy(s, k, i, key.1) && e.receipts[key] == RowReceipt(s, i);
    CarrierIsUnique(s, i, lease.deliveryId);
  }

  /** Everything ingested for the record so far was at most the version in hand. */
  lemma EarlierIngestsAreLower(e: Engine, k: SubscriptionId, n: nat)
    requires QueueOk(e.store) && LogBacked(e, k) && !e.phase.Idle? && InHand(e.store, k, e.phase.lease)
    requires n < |e.log| && e.log[n].Ingested? && e.log[n].recordId == e.phase.lease.payload.recordId
    ensures e.log[n].recordVersion <= e.phase.lease.payload.recordVersion
  {
    var s, a, entry := e.store, e.phase.lease.deliveryId, e.log[n];
    assert EntryBacked(s, k, entry);
    var i :| 0 <= i < |s.deliveries| && CarriedBy(s, k, i, entry.eventId)
             && s.deliveries[i].payload.recordId == entry.recordId
             && s.deliveries[i].payload.recordVersion == entry.recordVersion;
    assert i < a ==> PairOk(s.deliveries[i], s.deliveries[a]);
    assert a < i ==> PairOk(s.deliveries[a], s.deliveries[i]);
  }

  // ---------- Each step keeps it ----------

  /** A foreign transaction leaves this subscription's leased rows alone. */
  lemma ForeignKeepsLease(s: Store, op: Op, k: SubscriptionId, lease: DeliveryLease)
    requires StoreInv(s) && Foreign(op, k) && InHand(s, k, lease)
    ensures InHand(Apply(s, op), k, lease)
  {
    ApplyKeepsStore(s, op);
    var t, i := Apply(s, op), lease.deliveryId;
    if op.Observe? {
      ObserveKeepsStates(s, op, i);
    } else {
      OtherForeignKeepsRow(s, op, k, i);
    }
    assert RowOk(s, s.deliveries[i]);
  }

  lemma OtherForeignKeepsRow(s: Store, op: Op, k: SubscriptionId, i: DeliveryId)
    requires Foreign(op, k) && !op.Observe? && i < |s.deliveries| && Mine(s.deliveries[i], k)
    ensures i < |Apply(s, op).deliveries| && Apply(s, op).deliveries[i] == s.deliveries[i]
  {
    if op.Lease? {
      LeaseNextCases(s, op.k, op.nowMs, op.durationMs);
    }
  }

  lemma AcksStayBacked(e: Engine, op: Op, k: SubscriptionId)
    requires StoreInv(e.store) && AcksHaveReceipts(e, k)
    requires Acknowledges(e.store, op, k) ==> KeyOf(op.lease.payload) in e.receipts
                                              && InHand(e.store, k, op.lease)
    ensures AcksHaveReceipts(e.(store := Apply(e.store, op)), k)
  {
    forall i: DeliveryId | i < |Apply(e.store, op).deliveries| && Acked(Apply(e.store, op), i, k)
      ensures KeyOf(Apply(e.store, op).deliveries[i].payload) in e.receipts
    {
      OnlySettlingAcknowledges(e.store, op, k, i);
    }
  }

  /** Any step that is one store transaction keeps everything but the phase. */
  lemma StoreStepKeepsEngine(e: Engine, op: Op, k: SubscriptionId, phase: Phase)
    requires EngineInv(e, k)
    requires Acknowledges(e.store, op, k) ==> e.phase.Receipted? && op.lease == e.phase.lease
    requires PhaseOk(e.(store := Apply(e.store, op), phase := phase), k)
    ensures EngineInv(e.(store := Apply(e.store, op), phase := phase), k)
  {
    ApplyKeepsStore(e.store, op);
    BackingStays(e, Apply(e.store, op), k);
    AcksStayBacked(e, op, k);
  }

  lemma TakeKeepsEngine(e: Engine, k: SubscriptionId, nowMs: Millis, durationMs: nat)
    requires EngineInv(e, k)
    ensures EngineInv(Take(e, k, nowMs, durationMs), k)
  {
    LeaseNextCases(e.store, k, nowMs, durationMs);
    StoreStepKeepsEngine(e, Lease(k, nowMs, durationMs), k, Take(e, k, nowMs, durationMs).phase);
  }

  lemma AscendAppend(log: seq<LogEntry>, entry: LogEntry)
    requires VersionsAscend(log)
    requires entry.Ingested? ==> forall n :: 0 <= n < |log| && log[n].Ingested? && log[n].recordId == entry.recordId ==>
                                   log[n].recordVersion <= entry.recordVersion
    ensures VersionsAscend(log + [entry])
  {
  }

  lemma EndIngestionAppend(log: seq<LogEntry>, entry: LogEntry)
    requires ReceiptsEndIngestion(log)
    requires entry.Ingested? ==> forall n :: 0 <= n < |log| && log[n].ReceiptWritten? ==> log[n].eventId != entry.eventId
    ensures ReceiptsEndIngestion(log + [entry])
  {
  }

  lemma LogAppend(e: Engine, k: SubscriptionId, entry: LogEntry)
    requires LogBacked(e, k) && EntryBacked(e.store, k, entry)
    ensures LogBacked(e.(log := e.log + [entry]), k)
  {
    forall n | 0 <= n < |e.log| + 1 ensures EntryBacked(e.store, k, (e.log + [entry])[n]) {
      assert n < |e.log| ==> EntryBacked(e.store, k, e.log[n]);
    }
  }

  lemma LeaseInHandCarries(s: Store, k: SubscriptionId, lease: DeliveryLease)
    requires RowsOk(s) && InHand(s, k, lease)
    ensures CarriedBy(s, k, lease.deliveryId, lease.payload.eventId)
    ensures RowReceipt(s, lease.deliveryId) == ReceiptOf(lease)
  {
    assert RowOk(s, s.deliveries[lease.deliveryId]);
  }

  lemma IngestKeepsEngine(e: Engine, k: SubscriptionId, succeeds: bool)
    requires EngineInv(e, k)
    ensures EngineInv(StepEngine(e, k, Ingest(succeeds)), k)
  {
    var f := StepEngine(e, k, Ingest(succeeds));
    if f != e {
      var p := e.phase.lease.payload;
      var entry := Ingested(p.eventId, p.recordId, p.recordVersion);
      LeaseInHandCarries(e.store, k, e.phase.lease);
      forall n | 0 <= n < |e.log| && e.log[n].Ingested? && e.log[n].recordId == p.recordId
        ensures e.log[n].recordVersion <= p.recordVersion
      {
        EarlierIngestsAreLower(e, k, n);
      }
      AscendAppend(e.log, entry);
      EndIngestionAppend(e.log, entry);
      LogAppend(e, k, entry);
    }
  }

  lemma ReceiptsBackedAppend(e: Engine, k: SubscriptionId, eventId: Uuid, receipt: Receipt)
    requires ReceiptsBacked(e, k) && ReceiptBacked(e.store, k, eventId, receipt)
    ensures ReceiptsBacked(e.(receipts := e.receipts[(k, eventId) := receipt]), k)
  {
  }

  lemma WriteReceiptKeepsEngine(e: Engine, k: SubscriptionId)
    requires EngineInv(e, k)
    ensures EngineInv(StepEngine(e, k, WriteReceipt), k)
  {
    var f := StepEngine(e, k, WriteReceipt);
    if f != e {
      var eventId := e.phase.lease.payload.eventId;
      LeaseInHandCarries(e.store, k, e.phase.lease);
      ReceiptsBackedAppend(e, k, eventId, ReceiptOf(e.phase.lease));
      AscendAppend(e.log, ReceiptWritten(eventId));
      EndIngestionAppend(e.log, ReceiptWritten(eventId));
      LogAppend(e, k, ReceiptWritten(eventId));
    }
  }

  lemma StepKeepsEngine(e: Engine, k: SubscriptionId, step: Step)
    requires EngineInv(e, k)
    ensures EngineInv(StepEngine(e, k, step), k)
  {
    match step
    case Elsewhere(op) =>
      if Foreign(op, k) {
        if !e.phase.Idle? {
          ForeignKeepsLease(e.store, op, k, e.phase.lease);
        }
        StoreStepKeepsEngine(e, op, k, e.phase);
      }
    case TakeLease(nowMs, durationMs) => TakeKeepsEngine(e, k, nowMs, durationMs);
    case Ingest(succeeds) => IngestKeepsEngine(e, k, succeeds);
    case WriteReceipt => WriteReceiptKeepsEngine(e, k);
    case Recognize =>
      if e.phase.Holding? && KeyOf(e.phase.lease.payload) in e.receipts {
        ReceiptsNeverConflict(e, k);
      }
    case SettleLease(nowMs) =>
      if e.phase.Receipted? {
        StoreStepKeepsEngine(e, Settle(e.phase.lease, ReceiptOutcome(e.phase.lease), nowMs), k, Idle);
      }
    case RetryLease(nowMs) =>
      if !e.phase.Idle? {
        StoreStepKeepsEngine(e, Retry(e.phase.lease, nowMs), k, Idle);
      }
    case BlockLease(nowMs) =>
      if e.phase.Holding? {
        StoreStepKeepsEngine(e, Block(e.phase.lease, nowMs), k, Idle);
      }
    case Crash =>
  }

  lemma {:induction false} RunKeepsEngine(e: Engine, k: SubscriptionId, steps: seq<Step>)
    requires EngineInv(e, k)
    ensures EngineInv(RunEngine(e, k, steps), k)
    decreases |steps|
  {
    if steps != [] {
      StepKeepsEngine(e, k, steps[0]);
      RunKeepsEngine(StepEngine(e, k, steps[0]), k, steps[1..]);
    }
  }

  /** A subscription nobody has leased from, and a consumer with no receipts for it. */
  predicate NewEngine(e: Engine, k: SubscriptionId) {
    && StoreInv(e.store)
    && (forall i :: 0 <= i < |e.store.deliveries| && Mine(e.store.deliveries[i], k) ==> e.store.deliveries[i].attempts == 0)
    && (forall key :: key in e.receipts ==> key.0 != k)
    && e.log == [] && e.phase.Idle? && !e.conflict
  }

  /**
   * Over any interleaving of leases, ingestions, receipts, settlements, retries, blocks, crashes and foreign
   * transactions: ingested versions never decrease per record, nothing is ingested after its receipt, every
   * acknowledged delivery has its receipt, and a redelivery always rebuilds the receipt it finds.
   */
  lemma EndToEnd(e: Engine, k: SubscriptionId, steps: seq<Step>)
    requires NewEngine(e, k)
    ensures var f := RunEngine(e, k, steps);
            && VersionsAscend(f.log)
            && ReceiptsEndIngestion(f.log)
            && AcksHaveReceipts(f, k)
            && !f.conflict
            && (!f.phase.Idle? && KeyOf(f.phase.lease.payload) in f.receipts ==>
                  f.receipts[KeyOf(f.phase.lease.payload)] == ReceiptOf(f.phase.lease))
  {
    forall i | 0 <= i < |e.store.deliveries| ensures !Acked(e.store, i, k) {
      assert RowOk(e.store, e.store.deliveries[i]);
    }
    RunKeepsEngine(e, k, steps);
    var f := RunEngine(e, k, steps);
    if !f.phase.Idle? && KeyOf(f.phase.lease.payload) in f.receipts {
      ReceiptsNeverConflict(f, k);
    }
  }
}
