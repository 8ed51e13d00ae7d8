/**
 * The durable catalog. Every public method is one transaction: it works on its own view of the tables and commits
 * by assigning them, so an error before that leaves the catalog as it was.
 */
module Catalog {
  import opened Wrappers
  import opened Domain
  import opened Backoff
  import opened Tables
  import opened Sources

  datatype DeliveryCounts = DeliveryCounts(
    queued: nat,
    leased: nat,
    blocked: nat,
    acknowledged: nat,
    superseded: nat,
    ignoredByPolicy: nat,
    deadLettered: nat)

  class Catalog {
    var records: seq<RecordRow>
    var revisions: seq<RevisionRow>
    var events: seq<ArchiveEvent>
    var subscriptions: seq<Subscription>
    var deliveries: seq<Delivery>
    var nextId: Uuid
    var sources: map<SourceId, SourceRow>
    var observations: map<(SourceId, LogicalLocation), ObservationRow>
    var owners: map<RecordId, OwnerRow>
    var missing: map<RecordId, MissingRow>
    var scrubs: map<SourceId, ScrubRow>

    ghost function State(): Store
      reads this
    {
      Store(records, revisions, events, subscriptions, deliveries, nextId)
    }

    ghost function Database(): Db
      reads this
    {
      Db(State(), SourceView())
    }

    function SourceView(): SourceTables
      reads this
    {
      SourceTables(sources, observations, owners, missing, scrubs)
    }

    constructor ()
      ensures Database() == EMPTY_DB
    {
      records, revisions, events, subscriptions, deliveries, nextId := [], [], [], [], [], 0;
      sources, observations, owners, missing, scrubs := map[], map[], map[], map[], map[];
    }

    // ---------- The event ledger ----------

    /** Part of a transaction: commits one version of a record and enqueues it for every subscription. */
    method Commit(r: RecordId, kind: EventKind, revisionId: Option<RevisionId>, location: LogicalLocation,
                  state: RecordState, nowMs: Millis)
      requires r < |records|
      modifies this`records, this`events, this`deliveries, this`nextId
      ensures State() == Transition(old(State()), r, kind, revisionId, location, state, nowMs)
    {
      var nextVersion := records[r].recordVersion + 1;
      records := records[r := RecordRow(records[r].identity, location, nextVersion, state, revisionId)];
      var event := ArchiveEvent(nextId, |events| + 1, r, nextVersion, kind, revisionId, Some(location), nowMs);
      events := events + [event];
      nextId := nextId + 1;
      var rows := deliveries;
      for k := 0 to |subscriptions|
        invariant rows == deliveries + FanOut(subscriptions, event)[..k]
      {
        rows := rows + [NewDelivery(k, subscriptions[k], event, false)];
      }
      assert FanOut(subscriptions, event)[..|subscriptions|] == FanOut(subscriptions, event);
      deliveries := rows;
    }

    method ObservePresentAt(identity: RecordIdentity, location: LogicalLocation, revision: CanonicalRevision,
                            nowMs: Millis)
      returns (emitted: seq<ArchiveEvent>)
      modifies this`records, this`revisions, this`events, this`deliveries, this`nextId
      ensures State() == ObservePresent(old(State()), identity, location, revision, nowMs)
      ensures events == old(events) + emitted
    {
      var start := |events|;
      var found := FindRecord(records, identity);
      var r := |records|;
      if found.Some? {
        r := found.value;
      } else {
        records := records + [RecordRow(identity, location, 0, Active, None)];
      }
      var current := RevisionOf(revisions, records[r].currentRevisionId);
      if records[r].state == Tombstoned {
        Commit(r, RecordRestored, records[r].currentRevisionId, location, Active, nowMs);
      }
      var known := FindRevision(revisions, RevisionRow(r, revision));
      var revisionId := |revisions|;
      if known.Some? {
        revisionId := known.value;
      } else {
        revisions := revisions + [RevisionRow(r, revision)];
      }
      if current != Some(revision) {
        Commit(r, RevisionCommitted, Some(revisionId), location, Active, nowMs);
      } else if records[r].location != location {
        Commit(r, LocationChanged, records[r].currentRevisionId, location, Active, nowMs);
      }
      emitted := events[start..];
    }

    method TombstoneAt(identity: RecordIdentity, nowMs: Millis) returns (emitted: Option<ArchiveEvent>)
      modifies this`records, this`events, this`deliveries, this`nextId
      ensures State() == TombstoneIdentity(old(State()), identity, nowMs)
      ensures events == old(events) + if emitted.Some? then [emitted.value] else []
    {
      var found := FindRecord(records, identity);
      if found.None? || records[found.value].state == Tombstoned {
        return None;
      }
      var r := found.value;
      Commit(r, RecordTombstoned, records[r].currentRevisionId, records[r].location, Tombstoned, nowMs);
      return Some(events[|events| - 1]);
    }

    // ---------- Subscriptions ----------

    method CreateSubscription(config: SubscriptionConfig, mode: SubscriptionMode, nowMs: Millis)
      returns (r: Result<SubscriptionId, DeliveryError>)
      modifies this`subscriptions, this`deliveries, this`nextId
      ensures (State(), r) == Tables.CreateSubscription(old(State()), config, mode, nowMs)
    {
      if config.retryPolicy.maxBackoffMs > I64_MAX {
        return Err(ExceedsSqliteRange);
      }
      var initial := [];
      match mode {
        case ReplayEvents =>
          if config.replayAfterSequence > I64_MAX {
            return Err(ExceedsSqliteRange);
          }
          initial := EventsAfter(events, config.replayAfterSequence);
        case RebuildCurrent =>
          initial := Snapshots(records, nextId, nowMs);
          nextId := nextId + |initial|;
      }
      var k, subscription := |subscriptions|, NewSubscription(config, mode);
      subscriptions := subscriptions + [subscription];
      var rows := deliveries;
      for i := 0 to |initial|
        invariant rows == deliveries + EnqueueAll(k, subscription, initial, mode == RebuildCurrent)[..i]
      {
        rows := rows + [NewDelivery(k, subscription, initial[i], mode == RebuildCurrent)];
      }
      ghost var added := EnqueueAll(k, subscription, initial, mode == RebuildCurrent);
      assert added[..|initial|] == added;
      deliveries := rows;
      return Ok(k);
    }

    method SetSubscriptionEnabled(k: SubscriptionId, enabled: bool) returns (r: Result<(), DeliveryError>)
      modifies this`subscriptions
      ensures (State(), r) == Tables.SetSubscriptionEnabled(old(State()), k, enabled)
    {
      if k >= |subscriptions| {
        return Err(UnknownSubscription);
      }
      subscriptions := subscriptions[k := subscriptions[k].(enabled := enabled)];
      return Ok(());
    }

    // ---------- Leasing and settling ----------

    method LeaseNext(k: SubscriptionId, nowMs: Millis, durationMs: nat)
      returns (r: Result<Option<DeliveryLease>, DeliveryError>)
      modifies this`deliveries, this`nextId
      ensures (State(), r) == Tables.LeaseNext(old(State()), k, nowMs, durationMs)
    {
      if durationMs == 0 || durationMs > I64_MAX || nowMs + durationMs > I64_MAX {
        return Err(InvalidLeaseDuration);
      }
      if k >= |subscriptions| {
        return Err(UnknownSubscription);
      }
      var subscription := subscriptions[k];
      if !subscription.enabled {
        return Ok(None);
      }
      var rows := deliveries;
      for i := 0 to |rows|
        invariant |rows| == |deliveries|
        invariant forall j :: 0 <= j < i ==> rows[j] == ExpireRow(deliveries[j], k, subscription.retryPolicy, nowMs)
        invariant forall j :: i <= j < |rows| ==> rows[j] == deliveries[j]
        invariant forall j :: 0 <= j < i ==> Expired(deliveries[j], k, nowMs) ==>
                    RetryNotBeforeMs(subscription.retryPolicy, deliveries[j].attempts, nowMs).Some?
      {
        if Expired(rows[i], k, nowMs) {
          var notBefore := RetryNotBeforeMs(subscription.retryPolicy, rows[i].attempts, nowMs);
          if notBefore.None? {
            return Err(InvalidLeaseDuration);
          }
          rows := rows[i := ReturnToQueue(rows[i], subscription.retryPolicy.maxAttempts, notBefore.value, nowMs)];
        }
      }
      assert rows == ExpireLeases(deliveries, k, subscription.retryPolicy, nowMs);
      if CountState(rows, k, Leased) >= subscription.maxActiveLeases {
        deliveries := rows;
        return Ok(None);
      }
      var candidate := SelectCandidate(rows, k, nowMs);
      if candidate.None? {
        deliveries := rows;
        return Ok(None);
      }
      var i := candidate.value;
      var token, attempt, expiresAtMs := nextId, rows[i].attempts + 1, nowMs + durationMs;
      nextId := nextId + 1;
      deliveries := rows[i := rows[i].(state := Leased, attempts := attempt, leaseToken := Some(token),
                                       leaseExpiresAtMs := Some(expiresAtMs))];
      return Ok(Some(DeliveryLease(i, rows[i].payload, RevisionOf(revisions, rows[i].payload.revisionId),
                                   attempt, token, expiresAtMs)));
    }

    method SettleDelivery(lease: DeliveryLease, outcome: DeliveryOutcome, nowMs: Millis)
      returns (r: Result<(), DeliveryError>)
      modifies this`deliveries
      ensures (State(), r) == Tables.SettleDelivery(old(State()), lease, outcome, nowMs)
    {
      if !HoldsLease(deliveries, lease, nowMs) {
        return Err(StaleLease);
      }
      var i := lease.deliveryId;
      deliveries := deliveries[i := deliveries[i].(state := OutcomeState(outcome), leaseToken := None,
                                                   leaseExpiresAtMs := None, settledAtMs := Some(nowMs))];
      return Ok(());
    }

    method RetryDelivery(lease: DeliveryLease, nowMs: Millis) returns (r: Result<(), DeliveryError>)
      modifies this`deliveries
      ensures (State(), r) == Tables.RetryDelivery(old(State()), lease, nowMs)
    {
      var k := lease.payload.subscriptionId;
      if k >= |subscriptions| {
        return Err(UnknownSubscription);
      }
      var policy := subscriptions[k].retryPolicy;
      var notBefore := RetryNotBeforeMs(policy, lease.attempt, nowMs);
      if notBefore.None? {
        return Err(InvalidLeaseDuration);
      }
      if !HoldsLease(deliveries, lease, nowMs) {
        return Err(StaleLease);
      }
      var i := lease.deliveryId;
      deliveries := deliveries[i := ReturnToQueue(deliveries[i], policy.maxAttempts, notBefore.value, nowMs)];
      return Ok(());
    }

    method BlockDelivery(lease: DeliveryLease, nowMs: Millis) returns (r: Result<(), DeliveryError>)
      modifies this`deliveries
      ensures (State(), r) == Tables.BlockDelivery(old(State()), lease, nowMs)
    {
      if !HoldsLease(deliveries, lease, nowMs) {
        return Err(StaleLease);
      }
      var i := lease.deliveryId;
      deliveries := deliveries[i := deliveries[i].(state := Blocked, leaseToken := None,
                                                   leaseExpiresAtMs := None, settledAtMs := None)];
      return Ok(());
    }

    method CountDeliveries(k: SubscriptionId) returns (r: Result<DeliveryCounts, DeliveryError>)
      ensures r.Err? <==> k >= |subscriptions|
      ensures r.Ok? ==> r.value == DeliveryCounts(
                          CountState(deliveries, k, Queued), CountState(deliveries, k, Leased),
                          CountState(deliveries, k, Blocked), CountState(deliveries, k, Acknowledged),
                          CountState(deliveries, k, Superseded), CountState(deliveries, k, IgnoredByPolicy),
                          CountState(deliveries, k, DeadLettered))
    {
      if k >= |subscriptions| {
        return Err(UnknownSubscription);
      }
      var counts := DeliveryCounts(0, 0, 0, 0, 0, 0, 0);
      for i := 0 to |deliveries|
        invariant counts == DeliveryCounts(
                              CountState(deliveries[..i], k, Queued), CountState(deliveries[..i], k, Leased),
                              CountState(deliveries[..i], k, Blocked), CountState(deliveries[..i], k, Acknowledged),
                              CountState(deliveries[..i], k, Superseded),
                              CountState(deliveries[..i], k, IgnoredByPolicy),
                              CountState(deliveries[..i], k, DeadLettered))
      {
        assert deliveries[..i + 1][..i] == deliveries[..i];
        if deliveries[i].payload.subscriptionId == k {
          match deliveries[i].state
          case Queued => counts := counts.(queued := counts.queued + 1);
          case Leased => counts := counts.(leased := counts.leased + 1);
          case Blocked => counts := counts.(blocked := counts.blocked + 1);
          case Acknowledged => counts := counts.(acknowledged := counts.acknowledged + 1);
          case Superseded => counts := counts.(superseded := counts.superseded + 1);
          case IgnoredByPolicy => counts := counts.(ignoredByPolicy := counts.ignoredByPolicy + 1);
          case DeadLettered => counts := counts.(deadLettered := counts.deadLettered + 1);
        }
      }
      assert deliveries[..|deliveries|] == deliveries;
      return Ok(counts);
    }

    // ---------- Source scans ----------

    method BeginSourceScan(registration: SourceRegistration) returns (r: Result<SourceScan, CatalogError>)
      modifies this`sources
      ensures (Database(), r) == Sources.BeginSourceScan(old(Database()), registration)
    {
      var id := registration.sourceId;
      var generation := 1;
      if id in sources {
        if sources[id].registration != registration {
          return Err(SourceRegistrationConflict);
        }
        generation := sources[id].nextGeneration + 1;
        sources := sources[id := sources[id].(nextGeneration := generation)];
      } else {
        sources := sources[id := SourceRow(registration, 1, 0)];
      }
      return Ok(SourceScan(id, generation));
    }

    method ObserveSourceFingerprint(scan: SourceScan, location: LogicalLocation, fingerprint: SourceFingerprint)
      returns (r: Result<SourceObservation, CatalogError>)
      modifies this`observations
      ensures (Database(), r) == Sources.ObserveSourceFingerprint(old(Database()), scan, location, fingerprint)
    {
      if !IsCurrentScan(SourceView(), scan) {
        return Err(SourceScanConflict);
      }
      var key := (scan.sourceId, location);
      var observed, hashAdmitted := 1, false;
      if key in observations && observations[key].fingerprint == fingerprint {
        observed := observations[key].unchangedObservations + 1;
        hashAdmitted := observations[key].hashAdmitted;
      }
      observations := observations[key := ObservationRow(fingerprint, observed, hashAdmitted, scan.generation)];
      return Ok(SourceObservation(observed, !hashAdmitted));
    }

    method MarkSourceFingerprintHashed(scan: SourceScan, location: LogicalLocation)
      returns (r: Result<(), CatalogError>)
      modifies this`observations
      ensures (Database(), r) == Sources.MarkSourceFingerprintHashed(old(Database()), scan, location)
    {
      var key := (scan.sourceId, location);
      if !IsCurrentScan(SourceView(), scan) || key !in observations || observations[key].lastSeenGeneration != scan.generation {
        return Err(SourceScanConflict);
      }
      observations := observations[key := observations[key].(hashAdmitted := true)];
      return Ok(());
    }

    method MarkSourceRecordSeen(scan: SourceScan, registration: SourceRegistration, identity: RecordIdentity)
      returns (r: Result<(), CatalogError>)
      modifies this`owners, this`missing
      ensures (Database(), r) == Sources.MarkSourceRecordSeen(old(Database()), scan, registration, identity)
    {
      if identity.producerId != registration.producerId {
        return Err(SourceRegistrationConflict);
      }
      if !IsCurrentScan(SourceView(), scan) {
        return Err(SourceScanConflict);
      }
      var found := FindRecord(records, identity);
      if found.None? {
        return Ok(());
      }
      var record := found.value;
      if record in owners && owners[record].sourceId != scan.sourceId {
        return Err(SourceRegistrationConflict);
      }
      owners := owners[record := OwnerRow(scan.sourceId, scan.generation)];
      missing := missing - {record};
      return Ok(());
    }

    /** Not one transaction but three: a crash can fall between any two of them. */
    method ObservePresentFromSource(scan: SourceScan, registration: SourceRegistration, identity: RecordIdentity,
                                    location: LogicalLocation, revision: CanonicalRevision, nowMs: Millis)
      returns (r: Result<seq<ArchiveEvent>, CatalogError>)
      modifies this`records, this`revisions, this`events, this`deliveries, this`nextId, this`owners, this`missing
      ensures Database() == Sources.ObservePresentFromSource(old(Database()), scan, registration, identity, location,
                                                             revision, nowMs).0
      ensures var spec := Sources.ObservePresentFromSource(old(Database()), scan, registration, identity, location,
                                                           revision, nowMs).1;
              if r.Ok? then spec.Ok? && events == old(events) + r.value else spec == Err(r.error)
    {
      if identity.producerId != registration.producerId {
        return Err(SourceRegistrationConflict);
      }
      if !IsCurrentScan(SourceView(), scan) {
        return Err(SourceScanConflict);
      }
      var emitted := ObservePresentAt(identity, location, revision, nowMs);
      var seen := MarkSourceRecordSeen(scan, registration, identity);
      return if seen.Ok? then Ok(emitted) else Err(seen.error);
    }

    method CompleteSourceScan(scan: SourceScan, grace: Option<TombstoneGrace>, nowMs: Millis)
      returns (r: Result<seq<ArchiveEvent>, CatalogError>)
      modifies this`records, this`events, this`deliveries, this`nextId, this`missing, this`sources, this`observations
      ensures Database() == Sources.CompleteSourceScan(old(Database()), scan, grace, nowMs).0
      ensures r.Ok? <==> Sources.CompleteSourceScan(old(Database()), scan, grace, nowMs).1.Ok?
      ensures r.Err? ==> r.error == SourceScanConflict
      ensures events == old(events) + if r.Ok? then r.value else []
    {
      if !IsCurrentScan(SourceView(), scan) {
        return Err(SourceScanConflict);
      }
      var start := |events|;
      if grace.Some? {
        for record := 0 to |records|
          invariant |records| == |old(records)| && old(events) <= events
          invariant Database() == ProcessUpTo(old(Database()), scan, grace.value, nowMs, record)
        {
          if record in owners && owners[record].sourceId == scan.sourceId
             && owners[record].lastSeenGeneration < scan.generation {
            ProcessMissingRecord(record, scan, grace.value, nowMs);
          }
        }
      }
      sources := sources[scan.sourceId := sources[scan.sourceId].(lastCompleteGeneration := scan.generation)];
      observations := map key | key in observations
                        && !(key.0 == scan.sourceId && observations[key].lastSeenGeneration < scan.generation)
                      :: observations[key];
      return Ok(events[start..]);
    }

    /** Part of a completion: counts one missing record, and tombstones it once its grace is exhausted. */
    method ProcessMissingRecord(r: RecordId, scan: SourceScan, grace: TombstoneGrace, nowMs: Millis)
      requires r < |records|
      modifies this`records, this`events, this`deliveries, this`nextId, this`missing
      ensures Database() == ProcessMissing(old(Database()), scan, grace, nowMs, r)
      ensures old(events) <= events && |records| == |old(records)|
    {
      var firstMissingAtMs, scans := nowMs, 1;
      if r in missing {
        firstMissingAtMs, scans := missing[r].firstMissingAtMs, missing[r].completeGuardedScans + 1;
      }
      missing := missing[r := MissingRow(scan.sourceId, firstMissingAtMs, scans)];
      var elapsedMs := ElapsedMs(firstMissingAtMs, nowMs);
      if scans >= grace.minCompleteScans && elapsedMs >= grace.minElapsedMs {
        if records[r].state == Active {
          Commit(r, RecordTombstoned, records[r].currentRevisionId, records[r].location, Tombstoned, nowMs);
        }
        missing := missing - {r};
      }
    }

    // ---------- Scrubbing ----------

    method AdvanceSourceScrub(sourceId: SourceId, nextAfter: Option<LogicalLocation>, nowMs: Millis)
      returns (r: Result<(), CatalogError>)
      modifies this`scrubs
      ensures (Database(), r) == Sources.AdvanceSourceScrub(old(Database()), sourceId, nextAfter, nowMs)
    {
      if sourceId !in sources {
        return Err(SourceScanConflict);
      }
      var cycles: nat, completedAt := 0, None;
      if sourceId in scrubs {
        cycles, completedAt := scrubs[sourceId].completedCycles, scrubs[sourceId].lastCompletedAtMs;
      }
      if nextAfter.None? {
        cycles, completedAt := cycles + 1, Some(nowMs);
      }
      scrubs := scrubs[sourceId := ScrubRow(nextAfter, cycles, completedAt)];
      return Ok(());
    }

    method ObserveScrubbedPresentAt(sourceId: SourceId, identity: RecordIdentity, location: LogicalLocation,
                                    revision: CanonicalRevision, nowMs: Millis)
      returns (emitted: Option<seq<ArchiveEvent>>)
      modifies this`records, this`revisions, this`events, this`deliveries, this`nextId
      ensures Database() == ApplyDb(old(Database()), ObserveScrubbed(sourceId, identity, location, revision, nowMs))
      ensures emitted.Some? <==> ScrubOwns(old(Database()), sourceId, identity)
      ensures events == old(events) + if emitted.Some? then emitted.value else []
    {
      var found := FindRecord(records, identity);
      if found.None? || found.value !in owners || owners[found.value].sourceId != sourceId {
        return None;
      }
      var committed := ObservePresentAt(identity, location, revision, nowMs);
      return Some(committed);
    }
  }
}
