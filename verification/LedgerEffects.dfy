/** What each transaction writes to the ledger and hands to the queue, column by column. */
module LedgerEffects {
  import opened Wrappers
  import opened Domain
  import opened Tables

  // ---------- One transition ----------

  /** The row subscription `k` gets for this event: its own columns, and blocked if it asked to be spared the kind. */
  predicate RowFor(d: Delivery, s: Store, k: SubscriptionId, e: ArchiveEvent)
    requires k < |s.subscriptions|
  {
    var p := d.payload;
    && p.subscriptionId == k && p.eventId == e.id && p.eventSequence == Some(e.sequence) && p.recordId == e.recordId
    && p.recordVersion == e.recordVersion && p.kind == e.kind && p.revisionId == e.revisionId
    && p.location == e.location && !p.isSnapshot
    && d.attempts == 0 && d.leaseToken.None? && d.leaseExpiresAtMs.None? && d.notBeforeMs == 0 && d.settledAtMs.None?
    && (if (e.kind == LocationChanged && !s.subscriptions[k].acceptsMoves)
           || (e.kind == RecordTombstoned && !s.subscriptions[k].acceptsTombstones)
        then d.state == Blocked else d.state == Queued)
  }

  /** One more version of one record, its event, and a row for every subscription, paused ones included. */
  predicate Versioned(s: Store, t: Store, r: RecordId, kind: EventKind, revisionId: Option<RevisionId>,
                      location: LogicalLocation, state: RecordState, nowMs: Millis)
    requires r < |s.records|
  {
    var version, n := s.records[r].recordVersion + 1, |s.deliveries|;
    && t.records == s.records[r := RecordRow(s.records[r].identity, location, version, state, revisionId)]
    && t.events == s.events + [ArchiveEvent(s.nextId, |s.events| + 1, r, version, kind, revisionId, Some(location), nowMs)]
    && t.revisions == s.revisions && t.subscriptions == s.subscriptions && t.nextId == s.nextId + 1
    && |t.deliveries| == n + |s.subscriptions| && t.deliveries[..n] == s.deliveries
    && var rows := t.deliveries[n..];
    && forall k :: 0 <= k < |s.subscriptions| ==> RowFor(rows[k], s, k, t.events[|s.events|])
  }

  lemma TransitionTakesEffect(s: Store, r: RecordId, kind: EventKind, revisionId: Option<RevisionId>,
                              location: LogicalLocation, state: RecordState, nowMs: Millis)
    requires r < |s.records|
    ensures Versioned(s, Transition(s, r, kind, revisionId, location, state, nowMs), r, kind, revisionId, location, state,
                      nowMs)
  {
  }

  /** A row for an event or a snapshot, whenever it is enqueued; only events have a place in the sequence. */
  lemma NewRowsCarryTheirEvents(k: SubscriptionId, subscription: Subscription, e: ArchiveEvent, isSnapshot: bool)
    ensures var d := NewDelivery(k, subscription, e, isSnapshot);
            var p := d.payload;
            && p.subscriptionId == k && p.eventId == e.id && p.recordId == e.recordId
            && p.recordVersion == e.recordVersion && p.kind == e.kind && p.revisionId == e.revisionId
            && p.location == e.location && p.isSnapshot == isSnapshot
            && (if isSnapshot then p.eventSequence.None? else p.eventSequence == Some(e.sequence))
            && d.attempts == 0 && d.leaseToken.None? && d.leaseExpiresAtMs.None? && d.notBeforeMs == 0
            && d.settledAtMs.None?
  {
  }

  // ---------- Whole transactions ----------

  function Kinds(events: seq<ArchiveEvent>): seq<EventKind> {
    seq(|events|, i requires 0 <= i < |events| => events[i].kind)
  }

  function Content(s: Store, r: RecordId): Option<CanonicalRevision>
    requires r < |s.records|
  {
    match s.records[r].currentRevisionId
    case Some(id) => if id < |s.revisions| then Some(s.revisions[id].revision) else None
    case None => None
  }

  /** What an observation of a known record has to say. */
  function KindsToEmit(s: Store, r: RecordId, location: LogicalLocation, revision: CanonicalRevision): seq<EventKind>
    requires r < |s.records|
  {
    if s.records[r].state == Tombstoned then
      if Content(s, r) == Some(revision) then [RecordRestored] else [RecordRestored, RevisionCommitted]
    else if Content(s, r) != Some(revision) then [RevisionCommitted]
    else if s.records[r].location != location then [LocationChanged]
    else []
  }

  /** Events of one record at one place and time, in consecutive versions. */
  predicate OfOneRecord(events: seq<ArchiveEvent>, r: RecordId, version: nat, location: LogicalLocation, nowMs: Millis) {
    forall i :: 0 <= i < |events| ==>
      && events[i].recordId == r && events[i].recordVersion == version + i + 1
      && events[i].location == Some(location) && events[i].committedAtMs == nowMs
  }

  /** A revision is stored once per record: a known one is found again, a new one added. */
  predicate RevisionStored(s: Store, t: Store, row: RevisionRow) {
    t.revisions == if row in s.revisions then s.revisions else s.revisions + [row]
  }

  /** What was emitted on top of `s`, and for a committed revision, that it holds the observed bytes. */
  predicate Emitted(s: Store, t: Store, r: RecordId, version: nat, kinds: seq<EventKind>, location: LogicalLocation,
                    revision: CanonicalRevision, nowMs: Millis) {
    && s.events <= t.events && RevisionStored(s, t, RevisionRow(r, revision))
    && var emitted := t.events[|s.events|..];
    && Kinds(emitted) == kinds && OfOneRecord(emitted, r, version, location, nowMs)
    && forall i :: 0 <= i < |emitted| && emitted[i].kind == RevisionCommitted ==>
         emitted[i].revisionId.Some? && emitted[i].revisionId.value < |t.revisions|
         && t.revisions[emitted[i].revisionId.value] == RevisionRow(r, revision)
  }

  lemma NoneEmitted(s: Store, t: Store, r: RecordId, location: LogicalLocation, revision: CanonicalRevision,
                       nowMs: Millis)
    requires t.events == s.events && RevisionStored(s, t, RevisionRow(r, revision)) && r < |s.records|
    ensures Emitted(s, t, r, s.records[r].recordVersion, [], location, revision, nowMs)
  {
  }

  lemma OneEmitted(s: Store, mid: Store, t: Store, r: RecordId, kind: EventKind, revisionId: Option<RevisionId>,
                   location: LogicalLocation, revision: CanonicalRevision, state: RecordState, nowMs: Millis)
    requires r < |s.records| && r < |mid.records| && mid.events == s.events
    requires mid.records[r].recordVersion == s.records[r].recordVersion
    requires RevisionStored(s, mid, RevisionRow(r, revision))
    requires Versioned(mid, t, r, kind, revisionId, location, state, nowMs)
    requires kind == RevisionCommitted ==>
               revisionId.Some? && revisionId.value < |t.revisions| && t.revisions[revisionId.value] == RevisionRow(r, revision)
    ensures Emitted(s, t, r, s.records[r].recordVersion, [kind], location, revision, nowMs)
  {
    var e := t.events[|s.events|];
    assert t.events[|s.events|..] == [e];
    assert Kinds([e]) == [kind];
  }

  /** A known, active record. */
  lemma CommitEmits(s: Store, r: RecordId, location: LogicalLocation, revision: CanonicalRevision, nowMs: Millis)
    requires r < |s.records| && s.records[r].state == Active
    ensures var t := CommitObserved(s, r, location, revision, nowMs);
            Emitted(s, t, r, s.records[r].recordVersion, KindsToEmit(s, r, location, revision), location, revision, nowMs)
  {
    var (mid, id) := EnsureRevision(s, r, revision);
    var t := CommitObserved(s, r, location, revision, nowMs);
    if Content(s, r) != Some(revision) {
      TransitionTakesEffect(mid, r, RevisionCommitted, Some(id), location, Active, nowMs);
      OneEmitted(s, mid, t, r, RevisionCommitted, Some(id), location, revision, Active, nowMs);
    } else if s.records[r].location != location {
      var current := mid.records[r].currentRevisionId;
      TransitionTakesEffect(mid, r, LocationChanged, current, location, Active, nowMs);
      OneEmitted(s, mid, t, r, LocationChanged, current, location, revision, Active, nowMs);
    } else {
      NoneEmitted(s, t, r, location, revision, nowMs);
    }
  }

  lemma EmittedAfter(s: Store, mid: Store, t: Store, r: RecordId, version: nat, first: EventKind, kinds: seq<EventKind>,
                     location: LogicalLocation, revision: CanonicalRevision, nowMs: Millis)
    requires mid.revisions == s.revisions && |mid.events| == |s.events| + 1 && s.events <= mid.events
    requires var e := mid.events[|s.events|];
             && e.kind == first != RevisionCommitted && e.recordId == r && e.recordVersion == version + 1
             && e.location == Some(location) && e.committedAtMs == nowMs
    requires Emitted(mid, t, r, version + 1, kinds, location, revision, nowMs)
    ensures Emitted(s, t, r, version, [first] + kinds, location, revision, nowMs)
  {
    var e, later := mid.events[|s.events|], t.events[|mid.events|..];
    assert t.events[|s.events|..] == [e] + later;
    assert Kinds([e] + later) == [first] + Kinds(later);
  }

  /** A record that was tombstoned is restored where it is seen, with the revision it had, before anything else. */
  lemma RestoreEmits(s: Store, r: RecordId, location: LogicalLocation, revision: CanonicalRevision, nowMs: Millis)
    requires r < |s.records|
    ensures var t := CommitObserved(RestoreIfTombstoned(s, r, location, nowMs), r, location, revision, nowMs);
            Emitted(s, t, r, s.records[r].recordVersion, KindsToEmit(s, r, location, revision), location, revision, nowMs)
  {
    var restored := RestoreIfTombstoned(s, r, location, nowMs);
    CommitEmits(restored, r, location, revision, nowMs);
    if s.records[r].state == Tombstoned {
      TransitionTakesEffect(s, r, RecordRestored, s.records[r].currentRevisionId, location, Active, nowMs);
      var t := CommitObserved(restored, r, location, revision, nowMs);
      EmittedAfter(s, restored, t, r, s.records[r].recordVersion, RecordRestored,
                   KindsToEmit(restored, r, location, revision), location, revision, nowMs);
    }
  }

  /**
   * An observation of a known identity says exactly what changed: a restoration if it was tombstoned, a revision if the
   * bytes are new, a move if only the place is. A new identity gets a record and its first revision.
   */
  lemma ObservationEmits(s: Store, identity: RecordIdentity, location: LogicalLocation, revision: CanonicalRevision,
                         nowMs: Millis)
    ensures var t, found := ObservePresent(s, identity, location, revision, nowMs), FindRecord(s.records, identity);
            if found.Some? then
              Emitted(s, t, found.value, s.records[found.value].recordVersion,
                      KindsToEmit(s, found.value, location, revision), location, revision, nowMs)
            else
              && Emitted(s, t, |s.records|, 0, [RevisionCommitted], location, revision, nowMs)
              && |t.records| == |s.records| + 1 && t.records[|s.records|].identity == identity
  {
    var found := FindRecord(s.records, identity);
    if found.Some? {
      RestoreEmits(s, found.value, location, revision, nowMs);
    } else {
      var (admitted, r) := AdmitRecord(s, identity, location);
      RestoreEmits(admitted, r, location, revision, nowMs);
      var t := ObservePresent(s, identity, location, revision, nowMs);
      assert Emitted(admitted, t, r, 0, [RevisionCommitted], location, revision, nowMs);
    }
  }

  /** A tombstone of an active record keeps its place and revision; of any other identity it does nothing. */
  lemma TombstoneTakesEffect(s: Store, identity: RecordIdentity, nowMs: Millis)
    ensures var t, found := TombstoneIdentity(s, identity, nowMs), FindRecord(s.records, identity);
            if found.Some? && s.records[found.value].state == Active then
              var row := s.records[found.value];
              Versioned(s, t, found.value, RecordTombstoned, row.currentRevisionId, row.location, Tombstoned, nowMs)
            else t == s
  {
    var found := FindRecord(s.records, identity);
    if found.Some? && s.records[found.value].state == Active {
      var row := s.records[found.value];
      TransitionTakesEffect(s, found.value, RecordTombstoned, row.currentRevisionId, row.location, Tombstoned, nowMs);
    }
  }
}
