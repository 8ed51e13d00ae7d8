/** The bounded controlled run, and the MemPalace consumer it drives. */
module Controller {
  import opened Wrappers
  import opened Domain
  import opened Tables
  import opened Queue
  import opened Cache
  import opened Payload
  import opened Consumer
  import opened Turns
  import CatalogModule = Catalog

  // ---------- The consumer ----------

  datatype ConsumerError =
    | ProvenanceMismatch
    | MissingPayload
    | UnexpectedPayload
    | IdempotencyConflict
    | RunnerFailed
    | ReceiptIo

  /** What one ingestion hands to MemPalace. */
  datatype IngestRequest = IngestRequest(payload: DeliveryPayload, revision: CanonicalRevision, bytes: seq<byte>)

  /** What a run of the engine shows outside: leases granted, and settlements the catalog accepted. */
  datatype Moment = Granted(lease: DeliveryLease) | Settlement(lease: DeliveryLease)

  function Shows(e: Engine, k: SubscriptionId, step: Step): seq<Moment> {
    match step
    case TakeLease(nowMs, durationMs) =>
      var result := LeaseNext(e.store, k, nowMs, durationMs).1;
      if e.phase.Idle? && result.Ok? && result.value.Some? then [Granted(result.value.value)] else []
    case SettleLease(nowMs) =>
      if e.phase.Receipted? && SettleDelivery(e.store, e.phase.lease, ReceiptOutcome(e.phase.lease), nowMs).1.Ok?
      then [Settlement(e.phase.lease)] else []
    case _ => []
  }

  function Trace(e: Engine, k: SubscriptionId, steps: seq<Step>): seq<Moment>
    decreases |steps|
  {
    if steps == [] then [] else Shows(e, k, steps[0]) + Trace(StepEngine(e, k, steps[0]), k, steps[1..])
  }

  // ---------- What MemPalace was told ----------

  /** One ingestion, by its event, record and version. */
  datatype Telling = Telling(eventId: Uuid, recordId: RecordId, recordVersion: nat)

  function Told(log: seq<LogEntry>): seq<Telling> {
    if log == [] then []
    else
      var n := |log| - 1;
      Told(log[..n])
      + if log[n].Ingested? then [Telling(log[n].eventId, log[n].recordId, log[n].recordVersion)] else []
  }

  function Asked(requests: seq<IngestRequest>): seq<Telling> {
    seq(|requests|, n requires 0 <= n < |requests| =>
      Telling(requests[n].payload.eventId, requests[n].payload.recordId, requests[n].payload.recordVersion))
  }

  lemma ToldSnoc(log: seq<LogEntry>, entry: LogEntry)
    ensures Told(log + [entry])
            == Told(log) + if entry.Ingested? then [Telling(entry.eventId, entry.recordId, entry.recordVersion)] else []
  {
    assert (log + [entry])[..|log|] == log;
  }

  lemma AskedSnoc(requests: seq<IngestRequest>, request: IngestRequest)
    ensures var p := request.payload;
            Asked(requests + [request]) == Asked(requests) + [Telling(p.eventId, p.recordId, p.recordVersion)]
  {
  }

  /** MemPalace is never asked for a lower version of a record after a higher one. */
  predicate AskedInOrder(requests: seq<IngestRequest>) {
    forall m, n :: 0 <= m < n < |requests| && requests[m].payload.recordId == requests[n].payload.recordId ==>
      requests[m].payload.recordVersion <= requests[n].payload.recordVersion
  }

  predicate ToldInOrder(told: seq<Telling>) {
    forall m, n :: 0 <= m < n < |told| && told[m].recordId == told[n].recordId ==>
      told[m].recordVersion <= told[n].recordVersion
  }

  predicate ToldFrom(log: seq<LogEntry>, t: Telling) {
    exists n :: 0 <= n < |log| && log[n] == Ingested(t.eventId, t.recordId, t.recordVersion)
  }

  lemma {:induction false} AscendingLogIsToldInOrder(log: seq<LogEntry>)
    requires VersionsAscend(log)
    ensures ToldInOrder(Told(log)) && forall m :: 0 <= m < |Told(log)| ==> ToldFrom(log, Told(log)[m])
    decreases |log|
  {
    if log != [] {
      var n := |log| - 1;
      var told := Told(log[..n]);
      AscendingLogIsToldInOrder(log[..n]);
      forall m | 0 <= m < |Told(log)| ensures ToldFrom(log, Told(log)[m]) {
        if m < |told| {
          assert ToldFrom(log[..n], told[m]);
        } else {
          assert log[n].Ingested?;
        }
      }
      forall m | 0 <= m < |told| && log[n].Ingested? && told[m].recordId == log[n].recordId
        ensures told[m].recordVersion <= log[n].recordVersion
      {
        assert ToldFrom(log[..n], told[m]);
      }
    }
  }

  lemma AskedAsToldInOrder(log: seq<LogEntry>, requests: seq<IngestRequest>)
    requires VersionsAscend(log) && Told(log) == Asked(requests)
    ensures AskedInOrder(requests)
  {
    AscendingLogIsToldInOrder(log);
    var told := Asked(requests);
    forall m, n | 0 <= m < n < |requests| && requests[m].payload.recordId == requests[n].payload.recordId
      ensures requests[m].payload.recordVersion <= requests[n].payload.recordVersion
    {
      assert told[m].recordId == told[n].recordId;
    }
  }

  /** A receipt is published by a rename; syncing its directory afterwards may still fail. */
  datatype ReceiptWrite = Published | NotPublished | PublishedUnsynced

  /** The payload is what the delivery declares: its bytes, or none. */
  predicate Declared(hash: Hasher, lease: DeliveryLease, payload: Option<seq<byte>>) {
    && lease.revision.Some? == payload.Some?
    && (payload.Some? ==>
          && |payload.value| == lease.revision.value.byteLength
          && hash(payload.value) == lease.revision.value.digest)
  }

  /** Never received before. */
  predicate Unreceipted(receipts: map<(SubscriptionId, Uuid), Receipt>, lease: DeliveryLease) {
    (lease.payload.subscriptionId, lease.payload.eventId) !in receipts
  }

  /** The runner, if it is needed, succeeds. */
  predicate Ingests(payload: Option<seq<byte>>, runnerSucceeds: bool) { payload.Some? ==> runnerSucceeds }

  /** A declared payload is accepted on its own receipt, or else once ingested and receipted. */
  predicate Takes(hash: Hasher, receipts: map<(SubscriptionId, Uuid), Receipt>, lease: DeliveryLease,
                    payload: Option<seq<byte>>, runnerSucceeds: bool, write: ReceiptWrite)
  {
    && Declared(hash, lease, payload)
    && if Unreceipted(receipts, lease) then Ingests(payload, runnerSucceeds) && write.Published?
       else receipts[(lease.payload.subscriptionId, lease.payload.eventId)] == ReceiptOf(lease)
  }

  /** A new receipt appears, synced or not. */
  predicate Receipts(payload: Option<seq<byte>>, runnerSucceeds: bool, write: ReceiptWrite) {
    Ingests(payload, runnerSucceeds) && !write.NotPublished?
  }

  /** What a delivery without a receipt does to the engine. */
  function FreshSteps(payload: Option<seq<byte>>, runnerSucceeds: bool, write: ReceiptWrite): seq<Step> {
    (if payload.Some? then [Ingest(runnerSucceeds)] else [])
    + if Receipts(payload, runnerSucceeds, write) then [WriteReceipt] else []
  }

  function TellingOf(lease: DeliveryLease): Telling {
    Telling(lease.payload.eventId, lease.payload.recordId, lease.payload.recordVersion)
  }

  lemma FreshIngestTakesEffect(e: Engine, k: SubscriptionId, lease: DeliveryLease, payload: Option<seq<byte>>,
                               runnerSucceeds: bool)
    requires e.phase == Holding(lease) && KeyOf(lease.payload) !in e.receipts && lease.revision.Some? == payload.Some?
    ensures var steps := if payload.Some? then [Ingest(runnerSucceeds)] else [];
            var f := RunEngine(e, k, steps);
            && f == e.(log := f.log, phase := f.phase) && Trace(e, k, steps) == []
            && f.phase == (if payload.Some? && runnerSucceeds then Applied(lease) else Holding(lease))
            && Told(f.log) == Told(e.log) + if payload.Some? then [TellingOf(lease)] else []
  {
    if payload.Some? {
      OneStep(e, k, Ingest(runnerSucceeds));
      ToldSnoc(e.log, Ingested(lease.payload.eventId, lease.payload.recordId, lease.payload.recordVersion));
    }
  }

  lemma FreshStepsTakeEffect(e: Engine, k: SubscriptionId, lease: DeliveryLease, payload: Option<seq<byte>>,
                             runnerSucceeds: bool, write: ReceiptWrite)
    requires e.phase == Holding(lease) && KeyOf(lease.payload) !in e.receipts && lease.revision.Some? == payload.Some?
    ensures var steps := FreshSteps(payload, runnerSucceeds, write);
            var f, receipted := RunEngine(e, k, steps), Receipts(payload, runnerSucceeds, write);
            && f.store == e.store && f.conflict == e.conflict && Trace(e, k, steps) == []
            && f.receipts == (if receipted then e.receipts[KeyOf(lease.payload) := ReceiptOf(lease)] else e.receipts)
            && (f.phase == if receipted then Receipted(lease)
                           else if payload.Some? && runnerSucceeds then Applied(lease) else Holding(lease))
            && Told(f.log) == Told(e.log) + if payload.Some? then [TellingOf(lease)] else []
  {
    var first := if payload.Some? then [Ingest(runnerSucceeds)] else [];
    var f := RunEngine(e, k, first);
    FreshIngestTakesEffect(e, k, lease, payload, runnerSucceeds);
    if Receipts(payload, runnerSucceeds, write) {
      StepsAppend(e, k, first, WriteReceipt);
      ToldSnoc(f.log, ReceiptWritten(lease.payload.eventId));
    } else {
      assert FreshSteps(payload, runnerSucceeds, write) == first;
    }
  }

  class MempalaceConsumer {
    const hash: Hasher
    var receipts: map<(SubscriptionId, Uuid), Receipt>
    /** Every request the runner was given, in order. */
    var requests: seq<IngestRequest>

    /** MemPalace is only ever handed bytes whose revision is the one the delivery declares. */
    ghost predicate Valid()
      reads this
    {
      forall n :: 0 <= n < |requests| ==> requests[n].revision == RevisionOfBytes(hash, requests[n].bytes)
    }

    constructor (hash: Hasher)
      ensures Valid() && this.hash == hash && receipts == map[] && requests == []
    {
      this.hash, receipts, requests := hash, map[], [];
    }

    /**
     * Ingests and receipts one delivery, or recognizes its receipt. `steps` is what that did to the engine, whose
     * phase says how far a failure got.
     */
    method ApplyInner(lease: DeliveryLease, payload: Option<seq<byte>>, runnerSucceeds: bool, write: ReceiptWrite,
                      ghost e: Engine, ghost k: SubscriptionId)
      returns (r: Result<DeliveryOutcome, ConsumerError>, ghost steps: seq<Step>)
      requires Valid() && e.phase == Holding(lease) && e.receipts == receipts && lease.payload.subscriptionId == k
      modifies this
      ensures Valid()
      ensures var f := RunEngine(e, k, steps);
              && f.receipts == receipts && f.store == e.store && Trace(e, k, steps) == []
              && (f.conflict <==> e.conflict || r == Err(IdempotencyConflict))
              && (Told(e.log) == Asked(old(requests)) ==> Told(f.log) == Asked(requests))
              && (r.Ok? ==> f.phase == Receipted(lease))
              && (r.Err? ==> f.phase == Holding(lease) || f.phase == Applied(lease) || f.phase == Receipted(lease))
      ensures r.Ok? <==> Takes(hash, old(receipts), lease, payload, runnerSucceeds, write)
      ensures r.Ok? ==> r.value == if payload.Some? then OutcomeAcknowledged else OutcomeIgnoredByPolicy
      ensures r == Err(MissingPayload) <==> lease.revision.Some? && payload.None?
      ensures r == Err(UnexpectedPayload) <==> lease.revision.None? && payload.Some?
      ensures r == Err(ProvenanceMismatch) <==>
              lease.revision.Some? && payload.Some? && !Declared(hash, lease, payload)
      ensures r == Err(IdempotencyConflict) <==>
              Declared(hash, lease, payload) && !Unreceipted(old(receipts), lease)
              && old(receipts)[(lease.payload.subscriptionId, lease.payload.eventId)] != ReceiptOf(lease)
      ensures r == Err(RunnerFailed) <==>
              Declared(hash, lease, payload) && Unreceipted(old(receipts), lease) && !Ingests(payload, runnerSucceeds)
      ensures receipts == if Declared(hash, lease, payload) && Unreceipted(old(receipts), lease)
                             && Receipts(payload, runnerSucceeds, write)
                          then old(receipts)[(lease.payload.subscriptionId, lease.payload.eventId) := ReceiptOf(lease)]
                          else old(receipts)
      ensures requests == old(requests)
                          + if Declared(hash, lease, payload) && Unreceipted(old(receipts), lease) && payload.Some?
                            then [IngestRequest(lease.payload, lease.revision.value, payload.value)] else []
    {
      steps := [];
      match (lease.revision, payload) {
        case (Some(expected), Some(bytes)) =>
          if CanonicalRevision(|bytes|, hash(bytes)) != expected {
            return Err(ProvenanceMismatch), steps;
          }
        case (Some(_), None) => return Err(MissingPayload), steps;
        case (None, Some(_)) => return Err(UnexpectedPayload), steps;
        case (None, None) =>
      }
      var key := KeyOf(lease.payload);
      if key in receipts {
        steps := [Recognize];
        OneStep(e, k, Recognize);
        if receipts[key] != ReceiptOf(lease) {
          return Err(IdempotencyConflict), steps;
        }
        return Ok(ReceiptOutcome(lease)), steps;
      }
      r, steps := IngestAndReceipt(lease, payload, runnerSucceeds, write, e, k);
    }

    /** Hands a declared, unseen payload to the runner, and writes its receipt. */
    method IngestAndReceipt(lease: DeliveryLease, payload: Option<seq<byte>>, runnerSucceeds: bool, write: ReceiptWrite,
                            ghost e: Engine, ghost k: SubscriptionId)
      returns (r: Result<DeliveryOutcome, ConsumerError>, ghost steps: seq<Step>)
      requires Valid() && e.phase == Holding(lease) && e.receipts == receipts && lease.payload.subscriptionId == k
      requires Declared(hash, lease, payload) && Unreceipted(receipts, lease)
      modifies this
      ensures Valid()
      ensures var f := RunEngine(e, k, steps);
              && f.receipts == receipts && f.store == e.store && f.conflict == e.conflict && Trace(e, k, steps) == []
              && (Told(e.log) == Asked(old(requests)) ==> Told(f.log) == Asked(requests))
              && (r.Ok? ==> f.phase == Receipted(lease))
              && (r.Err? ==> f.phase == Holding(lease) || f.phase == Applied(lease) || f.phase == Receipted(lease))
      ensures r == if !Ingests(payload, runnerSucceeds) then Err(RunnerFailed)
                   else if !write.Published? then Err(ReceiptIo)
                   else Ok(if payload.Some? then OutcomeAcknowledged else OutcomeIgnoredByPolicy)
      ensures receipts == if Receipts(payload, runnerSucceeds, write)
                          then old(receipts)[(lease.payload.subscriptionId, lease.payload.eventId) := ReceiptOf(lease)]
                          else old(receipts)
      ensures requests == old(requests)
                          + if payload.Some? then [IngestRequest(lease.payload, lease.revision.value, payload.value)]
                            else []
    {
      var key := KeyOf(lease.payload);
      steps := FreshSteps(payload, runnerSucceeds, write);
      FreshStepsTakeEffect(e, k, lease, payload, runnerSucceeds, write);
      if payload.Some? {
        AskedSnoc(requests, IngestRequest(lease.payload, lease.revision.value, payload.value));
        requests := requests + [IngestRequest(lease.payload, lease.revision.value, payload.value)];
        if !runnerSucceeds {
          return Err(RunnerFailed), steps;
        }
      }
      if write.NotPublished? {
        return Err(ReceiptIo), steps;
      }
      receipts := receipts[key := ReceiptOf(lease)];
      if write.PublishedUnsynced? {
        return Err(ReceiptIo), steps;
      }
      return Ok(ReceiptOutcome(lease)), steps;
    }
  }

  lemma OneStep(e: Engine, k: SubscriptionId, step: Step)
    ensures RunEngine(e, k, [step]) == StepEngine(e, k, step)
    ensures Trace(e, k, [step]) == Shows(e, k, step)
  {
    assert RunEngine(e, k, [step]) == RunEngine(StepEngine(e, k, step), k, []);
    assert Trace(e, k, [step]) == Shows(e, k, step) + Trace(StepEngine(e, k, step), k, []);
  }

  lemma StepsAppend(e: Engine, k: SubscriptionId, steps: seq<Step>, step: Step)
    ensures RunEngine(e, k, steps + [step]) == StepEngine(RunEngine(e, k, steps), k, step)
    ensures Trace(e, k, steps + [step]) == Trace(e, k, steps) + Shows(RunEngine(e, k, steps), k, step)
  {
    StepsConcat(e, k, steps, [step]);
    OneStep(RunEngine(e, k, steps), k, step);
  }

  lemma {:induction false} StepsConcat(e: Engine, k: SubscriptionId, a: seq<Step>, b: seq<Step>)
    ensures RunEngine(e, k, a + b) == RunEngine(RunEngine(e, k, a), k, b)
    ensures Trace(e, k, a + b) == Trace(e, k, a) + Trace(RunEngine(e, k, a), k, b)
    decreases |a|
  {
    if a == [] {
      assert a + b == b;
    } else {
      assert (a + b)[1..] == a[1..] + b;
      StepsConcat(StepEngine(e, k, a[0]), k, a[1..], b);
    }
  }

  // ---------- The run ----------

  datatype ControllerError =
    | DeliveryFailed(error: DeliveryError)
    | PayloadFailed
    | MissingDeliveryLocation
    | UnknownRootRole
    | CounterOverflow

  /** What the world answers while one delivery is served. */
  datatype Turn = Turn(
    external: External,
    runnerSucceeds: bool,
    receiptWrite: ReceiptWrite,
    removal: Removal,
    removalOnDrop: Removal)

  function AttemptFor(lease: DeliveryLease, outcome: AttemptOutcome): ControlledDeliveryAttempt {
    ControlledDeliveryAttempt(lease.payload.eventId, lease.payload.recordId, lease.payload.recordVersion, outcome)
  }

  function SettlementOf(lease: DeliveryLease, outcome: AttemptOutcome): seq<Moment> {
    if outcome.Settled? then [Settlement(lease)] else []
  }

  /** What the attempts of a report say happened: every lease, followed by its settlement if it had one. */
  function Reported(leases: seq<DeliveryLease>, attempts: seq<ControlledDeliveryAttempt>): seq<Moment>
    requires |leases| == |attempts|
  {
    if attempts == [] then []
    else
      var n := |attempts| - 1;
      Reported(leases[..n], attempts[..n]) + [Granted(leases[n])] + SettlementOf(leases[n], attempts[n].outcome)
  }

  /** No row is held under a token issued at or after `since`. */
  predicate NoneHeldSince(deliveries: seq<Delivery>, since: Uuid) {
    forall i :: 0 <= i < |deliveries| ==> deliveries[i].leaseToken.Some? ==> deliveries[i].leaseToken.value < since
  }

  /** At most row `i` is held under such a token. */
  predicate OnlyHeldSince(deliveries: seq<Delivery>, i: DeliveryId, since: Uuid) {
    forall j :: 0 <= j < |deliveries| && j != i ==>
      deliveries[j].leaseToken.Some? ==> deliveries[j].leaseToken.value < since
  }

  /** A lease just granted at `nowMs`, seen before anything else happens. */
  predicate InUse(s: Store, k: SubscriptionId, lease: DeliveryLease, nowMs: Millis, since: Uuid) {
    && k < |s.subscriptions| && lease.payload.subscriptionId == k
    && HoldsLease(s.deliveries, lease, nowMs)
    && OnlyHeldSince(s.deliveries, lease.deliveryId, since)
  }

  lemma ExpiryHoldsNothingNew(s: Store, k: SubscriptionId, nowMs: Millis, since: Uuid)
    requires k < |s.subscriptions| && NoneHeldSince(s.deliveries, since)
    ensures NoneHeldSince(Expire(s, k, nowMs).deliveries, since)
  {
  }

  lemma GrantedLeaseIsInUse(s: Store, k: SubscriptionId, nowMs: Millis, durationMs: nat, since: Uuid)
    requires since <= s.nextId && NoneHeldSince(s.deliveries, since)
    ensures var (t, result) := LeaseNext(s, k, nowMs, durationMs);
            && s.nextId <= t.nextId
            && (result.Ok? && result.value.Some? ==> InUse(t, k, result.value.value, nowMs, since))
            && (result.Err? || result.value.None? ==> NoneHeldSince(t.deliveries, since))
            && result != Err(StaleLease)
  {
    LeaseNextCases(s, k, nowMs, durationMs);
    if k < |s.subscriptions| {
      ExpiryHoldsNothingNew(s, k, nowMs, since);
    }
  }

  /** Retrying a lease in use succeeds or overflows, never finds it stale, and lets it go. */
  lemma RetryLetsGo(s: Store, lease: DeliveryLease, k: SubscriptionId, nowMs: Millis, since: Uuid)
    requires InUse(s, k, lease, nowMs, since)
    ensures var (t, retried) := RetryDelivery(s, lease, nowMs);
            if retried.Ok? then NoneHeldSince(t.deliveries, since) else retried.error == InvalidLeaseDuration && t == s
  {
  }

  /** And settling or blocking it always succeeds. */
  lemma SettlementLetsGo(s: Store, lease: DeliveryLease, outcome: DeliveryOutcome, k: SubscriptionId, nowMs: Millis,
                         since: Uuid)
    requires InUse(s, k, lease, nowMs, since)
    ensures var (t, settled) := SettleDelivery(s, lease, outcome, nowMs);
            settled.Ok? && NoneHeldSince(t.deliveries, since)
    ensures var (t, blocked) := BlockDelivery(s, lease, nowMs);
            blocked.Ok? && NoneHeldSince(t.deliveries, since)
    ensures var (t, retried) := RetryDelivery(s, lease, nowMs);
            if retried.Ok? then NoneHeldSince(t.deliveries, since) else retried.error == InvalidLeaseDuration && t == s
  {
    RetryLetsGo(s, lease, k, nowMs, since);
  }

  /** Each way to let a lease go, as a step of the engine. */
  lemma RetryStepIs(e: Engine, k: SubscriptionId, lease: DeliveryLease, nowMs: Millis)
    requires e.phase == Holding(lease) || e.phase == Applied(lease) || e.phase == Receipted(lease)
    ensures RunEngine(e, k, [RetryLease(nowMs)])
            == e.(store := RetryDelivery(e.store, lease, nowMs).0, phase := Idle)
    ensures Trace(e, k, [RetryLease(nowMs)]) == []
  {
    OneStep(e, k, RetryLease(nowMs));
  }

  /** The engine shows what the catalog and the consumer hold, in this phase. */
  ghost predicate Linked(e: Engine, catalog: CatalogModule.Catalog, consumer: MempalaceConsumer, phase: Phase)
    reads catalog, consumer
  {
    e.store == catalog.State() && e.receipts == consumer.receipts && e.phase == phase
    && Told(e.log) == Asked(consumer.requests)
  }

  method RetryLeaseNow(catalog: CatalogModule.Catalog, consumer: MempalaceConsumer, k: SubscriptionId,
                       lease: DeliveryLease, nowMs: Millis, ghost e: Engine, ghost since: Uuid)
    returns (r: Result<AttemptOutcome, ControllerError>, ghost steps: seq<Step>)
    requires InUse(catalog.State(), k, lease, nowMs, since)
    requires Linked(e, catalog, consumer, Holding(lease)) || Linked(e, catalog, consumer, Applied(lease))
             || Linked(e, catalog, consumer, Receipted(lease))
    modifies catalog`deliveries
    ensures Linked(RunEngine(e, k, steps), catalog, consumer, Idle)
    ensures r.Ok? ==> r.value == Retried && NoneHeldSince(catalog.deliveries, since)
    ensures Trace(e, k, steps) == []
    ensures (catalog.State(), if r.Ok? then Ok(()) else Err(InvalidLeaseDuration))
            == RetryDelivery(old(catalog.State()), lease, nowMs)
    ensures r.Err? ==> r.error == DeliveryFailed(InvalidLeaseDuration)
  {
    RetryLetsGo(catalog.State(), lease, k, nowMs, since);
    steps := [RetryLease(nowMs)];
    RetryStepIs(e, k, lease, nowMs);
    var retried := catalog.RetryDelivery(lease, nowMs);
    if retried.Err? {
      return Err(DeliveryFailed(retried.error)), steps;
    }
    return Ok(Retried), steps;
  }

  method BlockLeaseNow(catalog: CatalogModule.Catalog, consumer: MempalaceConsumer, k: SubscriptionId,
                       lease: DeliveryLease, nowMs: Millis, ghost e: Engine, ghost since: Uuid)
    returns (ghost steps: seq<Step>)
    requires InUse(catalog.State(), k, lease, nowMs, since) && Linked(e, catalog, consumer, Holding(lease))
    modifies catalog`deliveries
    ensures Linked(RunEngine(e, k, steps), catalog, consumer, Idle) && Trace(e, k, steps) == []
    ensures NoneHeldSince(catalog.deliveries, since)
    ensures (catalog.State(), Ok(())) == BlockDelivery(old(catalog.State()), lease, nowMs)
  {
    SettlementLetsGo(catalog.State(), lease, OutcomeAcknowledged, k, nowMs, since);
    steps := [BlockLease(nowMs)];
    OneStep(e, k, BlockLease(nowMs));
    var blocked := catalog.BlockDelivery(lease, nowMs);
  }

  method SettleLeaseNow(catalog: CatalogModule.Catalog, consumer: MempalaceConsumer, k: SubscriptionId,
                        lease: DeliveryLease, nowMs: Millis, ghost e: Engine, ghost since: Uuid)
    returns (ghost steps: seq<Step>)
    requires InUse(catalog.State(), k, lease, nowMs, since) && Linked(e, catalog, consumer, Receipted(lease))
    modifies catalog`deliveries
    ensures Linked(RunEngine(e, k, steps), catalog, consumer, Idle) && Trace(e, k, steps) == [Settlement(lease)]
    ensures NoneHeldSince(catalog.deliveries, since)
    ensures (catalog.State(), Ok(()))
            == SettleDelivery(old(catalog.State()), lease,
                              if lease.revision.Some? then OutcomeAcknowledged else OutcomeIgnoredByPolicy, nowMs)
  {
    SettlementLetsGo(catalog.State(), lease, ReceiptOutcome(lease), k, nowMs, since);
    steps := [SettleLease(nowMs)];
    OneStep(e, k, SettleLease(nowMs));
    var settled := catalog.SettleDelivery(lease, ReceiptOutcome(lease), nowMs);
  }

  /** Removes the materialization; a failed removal is tried once more when the lease is dropped. */
  method ReleaseMaterialized(materialized: MaterializedLease, removal: Removal, removalOnDrop: Removal)
    returns (ok: bool)
    requires materialized.cache.Valid() && materialized.Holds()
    modifies materialized, materialized.cache
    ensures materialized.cache.Valid()
    ensures ok <==> old(materialized.released) || !removal.RemovalFailed?
    ensures ok && !old(materialized.released) ==>
              materialized.cache.State() == Return(old(materialized.cache.State()), materialized.slot)
  {
    var removed := materialized.RemoveAndRelease(removal);
    ok := removed.Ok?;
    if !ok {
      var _ := materialized.RemoveAndRelease(removalOnDrop);
    }
  }

  /** How the world answers one delivery: the place is configured, the bytes there, taken back and accepted. */
  datatype Prospect = Prospect(located: bool, available: bool, removed: bool, accepted: bool)

  ghost function Prospects(roots: set<string>, cache: MaterializationCache, consumer: MempalaceConsumer,
                           lease: DeliveryLease, turn: Turn): Prospect
    reads cache, consumer
  {
    Prospect(
      lease.payload.location.Some? && lease.payload.location.value.rootRole in roots,
      lease.revision.Some? ==>
        && Admits(cache.State(), cache.limits, lease.revision.value.byteLength)
        && CopySucceeds(cache.hash, lease.revision.value, turn.external),
      !turn.removal.RemovalFailed?,
      Takes(consumer.hash, consumer.receipts, lease,
              if lease.revision.Some? then Some(CopiedBytes(turn.external)) else None,
              turn.runnerSucceeds, turn.receiptWrite))
  }

  /** The lease is given back, and this is said; or the instant of its return overflows. */
  predicate GivesBack(s: Store, t: Store, lease: DeliveryLease, nowMs: Millis, r: Result<AttemptOutcome, ControllerError>,
                      says: Result<AttemptOutcome, ControllerError>)
  {
    var (u, retried) := RetryDelivery(s, lease, nowMs);
    t == u && r == if retried.Ok? then says else Err(DeliveryFailed(InvalidLeaseDuration))
  }

  /** A delivery without bytes needs no place and no copy. */
  predicate ServedRightly(s: Store, t: Store, lease: DeliveryLease, policy: UnavailablePayloadPolicy, p: Prospect,
                          nowMs: Millis, r: Result<AttemptOutcome, ControllerError>)
  {
    var outcome := if lease.revision.Some? then OutcomeAcknowledged else OutcomeIgnoredByPolicy;
    if lease.revision.Some? && !p.located then
      GivesBack(s, t, lease, nowMs, r,
                Err(if lease.payload.location.None? then MissingDeliveryLocation else UnknownRootRole))
    else if lease.revision.Some? && !p.available then
      if policy.RetryUnavailable? then GivesBack(s, t, lease, nowMs, r, Ok(Retried))
      else r == Ok(BlockedByPayload) && BlockDelivery(s, lease, nowMs) == (t, Ok(()))
    else if lease.revision.Some? && !p.removed then r == Err(PayloadFailed) && t == s
    else if !p.accepted then GivesBack(s, t, lease, nowMs, r, Ok(Retried))
    else r == Ok(Settled(outcome)) && SettleDelivery(s, lease, outcome, nowMs) == (t, Ok(()))
  }

  /** Materializes, applies and settles one admitted delivery. Unless a removal fails, the cache is as it was. */
  method Serve(catalog: CatalogModule.Catalog, k: SubscriptionId, roots: set<string>, cache: MaterializationCache,
               consumer: MempalaceConsumer, policy: UnavailablePayloadPolicy, lease: DeliveryLease, nowMs: Millis,
               turn: Turn, ghost e: Engine, ghost since: Uuid)
    returns (r: Result<AttemptOutcome, ControllerError>, ghost steps: seq<Step>)
    requires InUse(catalog.State(), k, lease, nowMs, since) && cache.Valid() && consumer.Valid()
    requires Linked(e, catalog, consumer, Holding(lease))
    modifies catalog`deliveries, cache, consumer
    ensures cache.Valid() && consumer.Valid()
    ensures Linked(RunEngine(e, k, steps), catalog, consumer, Idle)
    ensures r.Ok? ==> NoneHeldSince(catalog.deliveries, since)
    ensures r.Ok? ==> Trace(e, k, steps) == SettlementOf(lease, r.value)
    ensures ServedRightly(old(catalog.State()), catalog.State(), lease, policy,
                          old(Prospects(roots, cache, consumer, lease, turn)), nowMs, r)
    ensures r != Err(PayloadFailed) ==>
              cache.activeEntries == old(cache.activeEntries) && cache.activeBytes == old(cache.activeBytes)
  {
    if lease.revision.Some? {
      if lease.payload.location.None? || lease.payload.location.value.rootRole !in roots {
        r, steps := RetryLeaseNow(catalog, consumer, k, lease, nowMs, e, since);
        if r.Ok? {
          r := Err(if lease.payload.location.None? then MissingDeliveryLocation else UnknownRootRole);
        }
        return;
      }
      r, steps := ServeBytes(catalog, k, cache, consumer, policy, lease, nowMs, turn, e, since);
    } else {
      r, steps := ApplyPayload(catalog, k, consumer, None, lease, nowMs, turn, e, since);
    }
  }

  lemma ReservedAndReturned(c: CacheState, bytes: nat, i: nat)
    requires var d := Cache.Reserve(c, bytes); i < |d.slots| && d.slots[i].bytes == bytes
    ensures var u := Return(Cache.Reserve(c, bytes), i);
            u.activeEntries == c.activeEntries && u.activeBytes == c.activeBytes
  {
  }

  /** Materializes the bytes and applies them. */
  method ServeBytes(catalog: CatalogModule.Catalog, k: SubscriptionId, cache: MaterializationCache,
                    consumer: MempalaceConsumer, policy: UnavailablePayloadPolicy, lease: DeliveryLease, nowMs: Millis,
                    turn: Turn, ghost e: Engine, ghost since: Uuid)
    returns (r: Result<AttemptOutcome, ControllerError>, ghost steps: seq<Step>)
    requires InUse(catalog.State(), k, lease, nowMs, since) && cache.Valid() && consumer.Valid()
    requires Linked(e, catalog, consumer, Holding(lease)) && lease.revision.Some?
    modifies catalog`deliveries, cache, consumer
    ensures cache.Valid() && consumer.Valid()
    ensures Linked(RunEngine(e, k, steps), catalog, consumer, Idle)
    ensures r.Ok? ==> NoneHeldSince(catalog.deliveries, since)
    ensures r.Ok? ==> Trace(e, k, steps) == SettlementOf(lease, r.value)
    ensures ServedRightly(old(catalog.State()), catalog.State(), lease, policy,
                          old(Prospects({}, cache, consumer, lease, turn)).(located := true), nowMs, r)
    ensures r != Err(PayloadFailed) ==>
              cache.activeEntries == old(cache.activeEntries) && cache.activeBytes == old(cache.activeBytes)
  {
    var copied := cache.Materialize(lease.revision.value, turn.external);
    if copied.Err? {
      if policy.RetryUnavailable? {
        r, steps := RetryLeaseNow(catalog, consumer, k, lease, nowMs, e, since);
      } else {
        r := Ok(BlockedByPayload);
        steps := BlockLeaseNow(catalog, consumer, k, lease, nowMs, e, since);
      }
      return;
    }
    ReservedAndReturned(old(cache.State()), lease.revision.value.byteLength, copied.value.slot);
    r, steps := ApplyPayload(catalog, k, consumer, Some(copied.value), lease, nowMs, turn, e, since);
  }

  method ApplyPayload(catalog: CatalogModule.Catalog, k: SubscriptionId, consumer: MempalaceConsumer,
                      materialized: Option<MaterializedLease>, lease: DeliveryLease, nowMs: Millis, turn: Turn,
                      ghost e: Engine, ghost since: Uuid)
    returns (r: Result<AttemptOutcome, ControllerError>, ghost steps: seq<Step>)
    requires InUse(catalog.State(), k, lease, nowMs, since) && consumer.Valid()
    requires Linked(e, catalog, consumer, Holding(lease))
    requires lease.revision.Some? == materialized.Some?
    requires materialized.Some? ==>
               materialized.value.Holds() && materialized.value.cache.Valid() && !materialized.value.released
    modifies catalog`deliveries, consumer
    modifies if materialized.Some? then {materialized.value, materialized.value.cache} else {}
    ensures consumer.Valid() && (materialized.Some? ==> materialized.value.cache.Valid())
    ensures Linked(RunEngine(e, k, steps), catalog, consumer, Idle)
    ensures r.Ok? ==> NoneHeldSince(catalog.deliveries, since)
    ensures r.Ok? ==> Trace(e, k, steps) == SettlementOf(lease, r.value)
    ensures var payload := if materialized.Some? then Some(materialized.value.file) else None;
            ServedRightly(old(catalog.State()), catalog.State(), lease, RetryUnavailable,
                          Prospect(true, true, !turn.removal.RemovalFailed?,
                                   Takes(consumer.hash, old(consumer.receipts), lease, payload, turn.runnerSucceeds,
                                           turn.receiptWrite)),
                          nowMs, r)
    ensures materialized.Some? && r != Err(PayloadFailed) ==>
              materialized.value.cache.State() == Return(old(materialized.value.cache.State()), materialized.value.slot)
  {
    var payload := if materialized.Some? then Some(materialized.value.file) else None;
    var applied, applySteps := consumer.ApplyInner(lease, payload, turn.runnerSucceeds, turn.receiptWrite, e, k);
    ghost var f := RunEngine(e, k, applySteps);
    if materialized.Some? {
      var released := ReleaseMaterialized(materialized.value, turn.removal, turn.removalOnDrop);
      if !released {
        StepsAppend(e, k, applySteps, Crash);
        return Err(PayloadFailed), applySteps + [Crash];
      }
    }
    ghost var last;
    if applied.Err? {
      r, last := RetryLeaseNow(catalog, consumer, k, lease, nowMs, f, since);
    } else {
      r := Ok(Settled(applied.value));
      last := SettleLeaseNow(catalog, consumer, k, lease, nowMs, f, since);
    }
    StepsConcat(e, k, applySteps, last);
    steps := applySteps + last;
  }

  /** Settled as its receipt says; blocked only where the limits ask for it. */
  predicate OutcomeFits(lease: DeliveryLease, outcome: AttemptOutcome, limits: ControlledRunLimits) {
    SettledAsReceipted(lease, outcome)
    && (outcome == BlockedByPayload ==> limits.unavailablePayloadPolicy == BlockUnavailable)
  }

  /** What a report of a run that returned `Ok` promises about the leases it made. */
  predicate ReportOk(report: ControlledRunReport, leases: seq<DeliveryLease>, limits: ControlledRunLimits) {
    && |report.attempts| == |leases| <= limits.maxDeliveries
    && (forall i :: 0 <= i < |leases| ==> report.attempts[i] == AttemptFor(leases[i], report.attempts[i].outcome))
    && (forall i :: 0 <= i < |leases| - 1 ==> report.attempts[i].outcome.Settled?)
    && (forall i :: 0 <= i < |leases| ==> OutcomeFits(leases[i], report.attempts[i].outcome, limits))
    && (forall i :: 0 <= i < |leases| && !report.attempts[i].outcome.Settled? ==>
          (report.attempts[i].outcome == DeferredByByteBudget
           <==> limits.maxPayloadBytes < report.payloadBytesAdmitted + BytesOf(leases[i])))
    && report.payloadBytesAdmitted == SettledBytes(leases, report.attempts) <= limits.maxPayloadBytes
  }

  predicate AllSettled(report: ControlledRunReport) {
    forall i :: 0 <= i < |report.attempts| ==> report.attempts[i].outcome.Settled?
  }

  function ReportWith(report: ControlledRunReport, lease: DeliveryLease, outcome: AttemptOutcome): ControlledRunReport {
    ControlledRunReport(report.attempts + [AttemptFor(lease, outcome)],
                        report.payloadBytesAdmitted + if outcome.Settled? then BytesOf(lease) else 0)
  }

  lemma SettledBytesAppend(leases: seq<DeliveryLease>, attempts: seq<ControlledDeliveryAttempt>, lease: DeliveryLease,
                           attempt: ControlledDeliveryAttempt)
    requires |leases| == |attempts|
    ensures SettledBytes(leases + [lease], attempts + [attempt])
            == SettledBytes(leases, attempts) + if attempt.outcome.Settled? then BytesOf(lease) else 0
    ensures Reported(leases + [lease], attempts + [attempt])
            == Reported(leases, attempts) + [Granted(lease)] + SettlementOf(lease, attempt.outcome)
  {
    assert (attempts + [attempt])[..|leases|] == attempts && (leases + [lease])[..|leases|] == leases;
  }

  lemma ReportAppend(report: ControlledRunReport, leases: seq<DeliveryLease>, limits: ControlledRunLimits,
                     lease: DeliveryLease, outcome: AttemptOutcome)
    requires ReportOk(report, leases, limits) && AllSettled(report) && |leases| < limits.maxDeliveries
    requires Admissible(lease, outcome, report.payloadBytesAdmitted, limits)
    ensures ReportOk(ReportWith(report, lease, outcome), leases + [lease], limits)
    ensures outcome.Settled? ==> AllSettled(ReportWith(report, lease, outcome))
  {
    SettledBytesAppend(leases, report.attempts, lease, AttemptFor(lease, outcome));
    var attempts, all := report.attempts + [AttemptFor(lease, outcome)], leases + [lease];
    forall i | 0 <= i < |all|
      ensures attempts[i] == AttemptFor(all[i], attempts[i].outcome)
      ensures i < |all| - 1 ==> attempts[i].outcome.Settled?
      ensures OutcomeFits(all[i], attempts[i].outcome, limits)
    {
      if i < |leases| {
        assert attempts[i] == report.attempts[i] && all[i] == leases[i];
      }
    }
  }

  /** The report is right about what the run has shown so far. */
  predicate Accounts(report: ControlledRunReport, leases: seq<DeliveryLease>, limits: ControlledRunLimits,
                     shown: seq<Moment>) {
    ReportOk(report, leases, limits) && shown == Reported(leases, report.attempts)
  }

  lemma AccountsAppend(report: ControlledRunReport, leases: seq<DeliveryLease>, limits: ControlledRunLimits,
                       lease: DeliveryLease, outcome: AttemptOutcome, shown: seq<Moment>, more: seq<Moment>)
    requires Accounts(report, leases, limits, shown) && AllSettled(report) && |leases| < limits.maxDeliveries
    requires Admissible(lease, outcome, report.payloadBytesAdmitted, limits)
    requires more == [Granted(lease)] + SettlementOf(lease, outcome)
    ensures Accounts(ReportWith(report, lease, outcome), leases + [lease], limits, shown + more)
    ensures outcome.Settled? ==> AllSettled(ReportWith(report, lease, outcome))
  {
    ReportAppend(report, leases, limits, lease, outcome);
    SettledBytesAppend(leases, report.attempts, lease, AttemptFor(lease, outcome));
    assert shown + more == shown + [Granted(lease)] + SettlementOf(lease, outcome);
  }

  lemma TokensPrecede(s: Store)
    requires StoreInv(s)
    ensures NoneHeldSince(s.deliveries, s.nextId)
  {
    forall i | 0 <= i < |s.deliveries| && s.deliveries[i].leaseToken.Some?
      ensures s.deliveries[i].leaseToken.value < s.nextId
    {
      assert RowOk(s, s.deliveries[i]);
    }
  }

  method TakeNext(catalog: CatalogModule.Catalog, consumer: MempalaceConsumer, k: SubscriptionId, durationMs: nat,
                  nowMs: Millis, ghost e: Engine, ghost since: Uuid)
    returns (next: Result<Option<DeliveryLease>, DeliveryError>, ghost steps: seq<Step>)
    requires since <= catalog.nextId && NoneHeldSince(catalog.deliveries, since)
    requires Linked(e, catalog, consumer, Idle)
    modifies catalog`deliveries, catalog`nextId
    ensures since <= catalog.nextId && next != Err(StaleLease)
    ensures (catalog.State(), next) == LeaseNext(old(catalog.State()), k, nowMs, durationMs)
    ensures next.Ok? && next.value.Some? ==>
              && InUse(catalog.State(), k, next.value.value, nowMs, since)
              && Linked(RunEngine(e, k, steps), catalog, consumer, Holding(next.value.value))
              && Trace(e, k, steps) == [Granted(next.value.value)]
    ensures next.Err? || next.value.None? ==>
              && NoneHeldSince(catalog.deliveries, since)
              && Linked(RunEngine(e, k, steps), catalog, consumer, Idle)
              && Trace(e, k, steps) == []
  {
    GrantedLeaseIsInUse(catalog.State(), k, nowMs, durationMs, since);
    steps := [TakeLease(nowMs, durationMs)];
    OneStep(e, k, TakeLease(nowMs, durationMs));
    next := catalog.LeaseNext(k, nowMs, durationMs);
  }

  /** What the run adds to its report for this lease keeps to its limits. */
  predicate Admissible(lease: DeliveryLease, outcome: AttemptOutcome, admitted: nat, limits: ControlledRunLimits) {
    && OutcomeFits(lease, outcome, limits)
    && (outcome == DeferredByByteBudget <==> limits.maxPayloadBytes < admitted + BytesOf(lease))
  }

  /** Deferred when the bytes it declares would exceed the limit, and served otherwise. */
  predicate ServedWithin(s: Store, t: Store, lease: DeliveryLease, limits: ControlledRunLimits, admitted: nat,
                         p: Prospect, nowMs: Millis, r: Result<AttemptOutcome, ControllerError>)
  {
    var length := if lease.revision.Some? then lease.revision.value.byteLength else 0;
    if U64_MAX < admitted + length then r == Err(CounterOverflow) && t == s
    else if limits.maxPayloadBytes < admitted + length then GivesBack(s, t, lease, nowMs, r, Ok(DeferredByByteBudget))
    else ServedRightly(s, t, lease, limits.unavailablePayloadPolicy, p, nowMs, r)
  }

  /** Serves a lease in hand, or defers it when it would take the run over its byte limit. */
  method ServeWithin(catalog: CatalogModule.Catalog, k: SubscriptionId, roots: set<string>, cache: MaterializationCache,
                     consumer: MempalaceConsumer, limits: ControlledRunLimits, lease: DeliveryLease, admitted: nat,
                     nowMs: Millis, turn: Turn, ghost e: Engine, ghost since: Uuid)
    returns (r: Result<AttemptOutcome, ControllerError>, ghost steps: seq<Step>)
    requires InUse(catalog.State(), k, lease, nowMs, since) && cache.Valid() && consumer.Valid()
    requires Linked(e, catalog, consumer, Holding(lease))
    modifies catalog`deliveries, cache, consumer
    ensures cache.Valid() && consumer.Valid()
    ensures Linked(RunEngine(e, k, steps), catalog, consumer, Idle)
    ensures r.Ok? ==> NoneHeldSince(catalog.deliveries, since)
    ensures r.Ok? ==> Trace(e, k, steps) == SettlementOf(lease, r.value)
    ensures ServedWithin(old(catalog.State()), catalog.State(), lease, limits, admitted,
                         old(Prospects(roots, cache, consumer, lease, turn)), nowMs, r)
    ensures r != Err(PayloadFailed) ==>
              cache.activeEntries == old(cache.activeEntries) && cache.activeBytes == old(cache.activeBytes)
  {
    var nextPayloadBytes := admitted + BytesOf(lease);
    if nextPayloadBytes > U64_MAX {
      steps := [Crash];
      OneStep(e, k, Crash);
      return Err(CounterOverflow), steps;
    }
    if nextPayloadBytes > limits.maxPayloadBytes {
      r, steps := RetryLeaseNow(catalog, consumer, k, lease, nowMs, e, since);
      if r.Ok? {
        r := Ok(DeferredByByteBudget);
      }
    } else {
      r, steps := Serve(catalog, k, roots, cache, consumer, limits.unavailablePayloadPolicy, lease, nowMs, turn, e, since);
    }
  }

  lemma ServedIsTurn(s: Store, mid: Store, t: Store, k: SubscriptionId, lease: DeliveryLease, limits: ControlledRunLimits,
                     admitted: nat, nowMs: Millis, p: Prospect, r: Result<AttemptOutcome, ControllerError>)
    requires LeaseNext(s, k, nowMs, limits.leaseDurationMs) == (mid, Ok(Some(lease)))
    requires ServedWithin(mid, t, lease, limits, admitted, p, nowMs, r)
    ensures r.Ok? ==>
              Admissible(lease, r.value, admitted, limits)
              && TurnIs(s, t, k, lease, r.value, nowMs, limits.leaseDurationMs)
    ensures r != Err(DeliveryFailed(StaleLease))
  {
  }

  /** One turn of the run's loop: takes the next lease, if there is one, and serves it. */
  method RunOne(catalog: CatalogModule.Catalog, k: SubscriptionId, roots: set<string>, cache: MaterializationCache,
                consumer: MempalaceConsumer, limits: ControlledRunLimits, admitted: nat, nowMs: Millis, turn: Turn,
                ghost e: Engine, ghost since: Uuid)
    returns (r: Result<Option<(DeliveryLease, AttemptOutcome)>, ControllerError>, ghost steps: seq<Step>)
    requires cache.Valid() && consumer.Valid()
    requires since <= catalog.nextId && NoneHeldSince(catalog.deliveries, since)
    requires Linked(e, catalog, consumer, Idle)
    modifies catalog`deliveries, catalog`nextId, cache, consumer
    ensures cache.Valid() && consumer.Valid() && since <= catalog.nextId
    ensures Linked(RunEngine(e, k, steps), catalog, consumer, Idle)
    ensures r.Ok? ==> NoneHeldSince(catalog.deliveries, since)
    ensures r.Ok? && r.value.None? ==>
              NothingLeft(old(catalog.State()), catalog.State(), k, nowMs, limits.leaseDurationMs)
    ensures r.Ok? && r.value.Some? ==>
              && Admissible(r.value.value.0, r.value.value.1, admitted, limits)
              && TurnIs(old(catalog.State()), catalog.State(), k, r.value.value.0, r.value.value.1, nowMs,
                        limits.leaseDurationMs)
    ensures r.Ok? ==> cache.activeEntries == old(cache.activeEntries) && cache.activeBytes == old(cache.activeBytes)
    ensures r.Ok? ==> Trace(e, k, steps) ==
                      if r.value.None? then []
                      else [Granted(r.value.value.0)] + SettlementOf(r.value.value.0, r.value.value.1)
    ensures r != Err(DeliveryFailed(StaleLease))
  {
    ghost var s := catalog.State();
    var next;
    next, steps := TakeNext(catalog, consumer, k, limits.leaseDurationMs, nowMs, e, since);
    if next.Err? {
      return Err(DeliveryFailed(next.error)), steps;
    }
    if next.value.None? {
      return Ok(None), steps;
    }
    var lease := next.value.value;
    ghost var held, mid, world := RunEngine(e, k, steps), catalog.State(), Prospects(roots, cache, consumer, lease, turn);
    var outcome;
    ghost var served;
    outcome, served := ServeWithin(catalog, k, roots, cache, consumer, limits, lease, admitted, nowMs, turn, held, since);
    StepsConcat(e, k, steps, served);
    ServedIsTurn(s, mid, catalog.State(), k, lease, limits, admitted, nowMs, world, outcome);
    steps := steps + served;
    r := if outcome.Err? then Err(outcome.error) else Ok(Some((lease, outcome.value)));
  }

  /** Where a run that returned `Ok` stopped: at its last turn, or after asking for a lease in vain. */
  predicate EndsWell(last: Store, t: Store, k: SubscriptionId, report: ControlledRunReport, limits: ControlledRunLimits,
                     nowMs: Millis)
  {
    || NothingLeft(last, t, k, nowMs, limits.leaseDurationMs)
    || (t == last && (|report.attempts| == limits.maxDeliveries || !AllSettled(report)))
  }

  /**
   * The rows acknowledged and the bytes admitted, in the catalog's own terms; the row of the last attempt as reported;
   * and, short of the limits, nothing left to lease.
   */
  predicate LeavesBehind(s: Store, t: Store, k: SubscriptionId, leases: seq<DeliveryLease>, report: ControlledRunReport,
                         limits: ControlledRunLimits, nowMs: Millis)
    requires |leases| == |report.attempts|
  {
    && SameRows(s, t) && OthersStand(s, t, k)
    && AcknowledgedTheSettled(s, t, leases, report.attempts, |leases|)
    && report.payloadBytesAdmitted == NewlyAckedBytes(s, t, |s.deliveries|)
    && (leases != [] ==> ShownLast(t, leases[|leases| - 1], report.attempts[|leases| - 1].outcome))
    && (|leases| < limits.maxDeliveries && AllSettled(report) ==>
          NothingLeft(t, t, k, nowMs, limits.leaseDurationMs))
  }

  lemma AccountsLeaveBehind(s: Store, t: Store, k: SubscriptionId, leases: seq<DeliveryLease>,
                            report: ControlledRunReport, limits: ControlledRunLimits, nowMs: Millis)
    requires |leases| == |report.attempts| && AccountsFor(s, t, k, leases, report.attempts, |leases|)
    requires report.payloadBytesAdmitted == SettledBytes(leases, report.attempts)
    requires |leases| < limits.maxDeliveries && AllSettled(report) ==>
               NothingLeft(t, t, k, nowMs, limits.leaseDurationMs)
    ensures LeavesBehind(s, t, k, leases, report, limits, nowMs)
  {
    assert leases[..|leases|] == leases && report.attempts[..|leases|] == report.attempts;
  }

  lemma RunLeavesBehind(stores: seq<Store>, t: Store, k: SubscriptionId, leases: seq<DeliveryLease>,
                        report: ControlledRunReport, limits: ControlledRunLimits, nowMs: Millis)
    requires Turned(stores, leases, report.attempts, k, nowMs, limits.leaseDurationMs) && StoreInv(stores[0])
    requires EndsWell(stores[|leases|], t, k, report, limits, nowMs)
    requires report.payloadBytesAdmitted == SettledBytes(leases, report.attempts)
    ensures StoreInv(t) && LeavesBehind(stores[0], t, k, leases, report, limits, nowMs)
  {
    var last, durationMs := stores[|leases|], limits.leaseDurationMs;
    TurnsAccount(stores, leases, report.attempts, k, nowMs, durationMs);
    if NothingLeft(last, t, k, nowMs, durationMs) {
      NothingLeftStays(last, t, k, nowMs, durationMs);
      EndingIsLease(last, t, k, nowMs, durationMs);
      EndingKeepsStore(last, t, k, nowMs, durationMs);
      EndingAcksNothing(stores[0], last, t, leases, report.attempts, k, nowMs, durationMs);
    }
    AccountsLeaveBehind(stores[0], t, k, leases, report, limits, nowMs);
  }

  /**
   * A bounded amount of one subscription's work. `leases` lists the leases the run was granted and `steps` replays
   * the run on the engine, so everything proved of engine runs holds of it.
   */
  method RunPathConsumer(catalog: CatalogModule.Catalog, k: SubscriptionId, roots: set<string>,
                         cache: MaterializationCache, consumer: MempalaceConsumer, limits: ControlledRunLimits,
                         nowMs: Millis, world: nat -> Turn, ghost before: Engine)
    returns (r: Result<ControlledRunReport, ControllerError>, ghost leases: seq<DeliveryLease>, ghost steps: seq<Step>)
    requires StoreInv(catalog.State()) && cache.Valid() && consumer.Valid()
    requires Linked(before, catalog, consumer, Idle)
    modifies catalog`deliveries, catalog`nextId, cache, consumer
    ensures cache.Valid() && consumer.Valid()
    ensures r.Ok? ==> Accounts(r.value, leases, limits, Trace(before, k, steps))
    ensures r.Ok? ==> StoreInv(catalog.State())
                      && LeavesBehind(old(catalog.State()), catalog.State(), k, leases, r.value, limits, nowMs)
    ensures r.Ok? ==> NoneHeldSince(catalog.deliveries, old(catalog.nextId))
    ensures r.Ok? ==> cache.activeEntries == old(cache.activeEntries) && cache.activeBytes == old(cache.activeBytes)
    ensures r != Err(DeliveryFailed(StaleLease))
    ensures Linked(RunEngine(before, k, steps), catalog, consumer, Idle)
    ensures EngineInv(before, k) ==> EngineInv(RunEngine(before, k, steps), k) && AskedInOrder(consumer.requests)
  {
    TokensPrecede(catalog.State());
    ghost var stores;
    r, leases, steps, stores := RunTurns(catalog, k, roots, cache, consumer, limits, nowMs, world, before);
    if EngineInv(before, k) {
      RunKeepsEngine(before, k, steps);
      AskedAsToldInOrder(RunEngine(before, k, steps).log, consumer.requests);
    }
    if r.Ok? {
      RunLeavesBehind(stores, catalog.State(), k, leases, r.value, limits, nowMs);
    }
  }

  lemma TurnedOnce(stores: seq<Store>, t: Store, leases: seq<DeliveryLease>, lease: DeliveryLease,
                   attempts: seq<ControlledDeliveryAttempt>, attempt: ControlledDeliveryAttempt, k: SubscriptionId,
                   nowMs: Millis, durationMs: nat)
    requires Turned(stores, leases, attempts, k, nowMs, durationMs)
    requires TurnIs(stores[|leases|], t, k, lease, attempt.outcome, nowMs, durationMs)
    requires SettledAsReceipted(lease, attempt.outcome)
    ensures Turned(stores + [t], leases + [lease], attempts + [attempt], k, nowMs, durationMs)
  {
  }

  method RunTurns(catalog: CatalogModule.Catalog, k: SubscriptionId, roots: set<string>, cache: MaterializationCache,
                  consumer: MempalaceConsumer, limits: ControlledRunLimits, nowMs: Millis, world: nat -> Turn,
                  ghost before: Engine)
    returns (r: Result<ControlledRunReport, ControllerError>, ghost leases: seq<DeliveryLease>, ghost steps: seq<Step>,
             ghost stores: seq<Store>)
    requires NoneHeldSince(catalog.deliveries, catalog.nextId) && cache.Valid() && consumer.Valid()
    requires Linked(before, catalog, consumer, Idle)
    modifies catalog`deliveries, catalog`nextId, cache, consumer
    ensures cache.Valid() && consumer.Valid()
    ensures r.Ok? ==> Accounts(r.value, leases, limits, Trace(before, k, steps))
    ensures r.Ok? ==> Turned(stores, leases, r.value.attempts, k, nowMs, limits.leaseDurationMs)
                      && stores[0] == old(catalog.State())
                      && EndsWell(stores[|leases|], catalog.State(), k, r.value, limits, nowMs)
    ensures r.Ok? ==> NoneHeldSince(catalog.deliveries, old(catalog.nextId))
    ensures r.Ok? ==> cache.activeEntries == old(cache.activeEntries) && cache.activeBytes == old(cache.activeBytes)
    ensures r != Err(DeliveryFailed(StaleLease))
    ensures Linked(RunEngine(before, k, steps), catalog, consumer, Idle)
  {
    var report := ControlledRunReport([], 0);
    leases, steps, stores := [], [], [catalog.State()];
    ghost var since := catalog.nextId;
    for n := 0 to limits.maxDeliveries
      invariant cache.Valid() && consumer.Valid()
      invariant cache.activeEntries == old(cache.activeEntries) && cache.activeBytes == old(cache.activeBytes)
      invariant since <= catalog.nextId && NoneHeldSince(catalog.deliveries, since)
      invariant Accounts(report, leases, limits, Trace(before, k, steps)) && AllSettled(report) && |leases| == n
      invariant Turned(stores, leases, report.attempts, k, nowMs, limits.leaseDurationMs)
      invariant stores[0] == old(catalog.State()) && stores[n] == catalog.State()
      invariant Linked(RunEngine(before, k, steps), catalog, consumer, Idle)
    {
      ghost var e, shown := RunEngine(before, k, steps), Trace(before, k, steps);
      var one;
      ghost var taken;
      one, taken := RunOne(catalog, k, roots, cache, consumer, limits, report.payloadBytesAdmitted, nowMs, world(n), e,
                           since);
      StepsConcat(before, k, steps, taken);
      steps := steps + taken;
      if one.Err? {
        return Err(one.error), leases, steps, stores;
      }
      if one.value.None? {
        return Ok(report), leases, steps, stores;
      }
      var (lease, outcome) := one.value.value;
      AccountsAppend(report, leases, limits, lease, outcome, shown, Trace(e, k, taken));
      TurnedOnce(stores, catalog.State(), leases, lease, report.attempts, AttemptFor(lease, outcome), k, nowMs,
                 limits.leaseDurationMs);
      leases, stores := leases + [lease], stores + [catalog.State()];
      report := ReportWith(report, lease, outcome);
      if !outcome.Settled? {
        assert !report.attempts[n].outcome.Settled?;
        return Ok(report), leases, steps, stores;
      }
    }
    return Ok(report), leases, steps, stores;
  }
}
