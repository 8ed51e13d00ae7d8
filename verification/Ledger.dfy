/** The records table is the replay of the event ledger, whatever the catalog is asked to do. */
module Ledger {
  import opened Wrappers
  import opened Domain
  import opened Tables

  // ---------- Replaying a ledger ----------

  /** What a reader of the ledger alone knows of one record. */
  datatype Projection = Projection(
    recordVersion: nat,
    state: RecordState,
    location: Option<LogicalLocation>,
    revisionId: Option<RevisionId>)

  function Project(e: ArchiveEvent): Projection {
    Projection(e.recordVersion, if e.kind == RecordTombstoned then Tombstoned else Active, e.location, e.revisionId)
  }

  function Replay(events: seq<ArchiveEvent>): map<RecordId, Projection> {
    if events == [] then map[]
    else
      var last := events[|events| - 1];
      Replay(events[..|events| - 1])[last.recordId := Project(last)]
  }

  function Prior(events: seq<ArchiveEvent>, r: RecordId): Option<Projection> {
    var replayed := Replay(events);
    if r in replayed then Some(replayed[r]) else None
  }

  /** The event moves its record one version on and changes something its kind allows. */
  predicate Legal(prior: Option<Projection>, e: ArchiveEvent) {
    && e.recordVersion == (if prior.Some? then prior.value.recordVersion else 0) + 1
    && e.revisionId.Some? && e.location.Some?
    && match e.kind
       case RevisionCommitted =>
         prior.Some? ==> prior.value.state == Active && prior.value.revisionId != e.revisionId
       case LocationChanged =>
         prior.Some? && prior.value.state == Active
         && prior.value.revisionId == e.revisionId && prior.value.location != e.location
       case RecordTombstoned =>
         prior.Some? && prior.value.state == Active
         && prior.value.revisionId == e.revisionId && prior.value.location == e.location
       case RecordRestored =>
         prior.Some? && prior.value.state == Tombstoned && prior.value.revisionId == e.revisionId
  }

  /** Every event is legal after the events before it. */
  predicate Lawful(events: seq<ArchiveEvent>) {
    events != [] ==>
      var n := |events| - 1;
      Lawful(events[..n]) && Legal(Prior(events[..n], events[n].recordId), events[n])
  }

  function VersionsOf(events: seq<ArchiveEvent>, r: RecordId): seq<nat> {
    if events == [] then []
    else
      var last := events[|events| - 1];
      VersionsOf(events[..|events| - 1], r) + if last.recordId == r then [last.recordVersion] else []
  }

  function OneTo(n: nat): seq<nat> {
    seq(n, i => i + 1)
  }

  // ---------- The invariant ----------

  predicate EventOk(s: Store, i: nat)
    requires i < |s.events|
  {
    var e := s.events[i];
    && e.sequence == i + 1
    && e.id < s.nextId
    && e.recordId < |s.records|
    && 1 <= e.recordVersion <= s.records[e.recordId].recordVersion
    && e.revisionId.Some? && e.revisionId.value < |s.revisions|
    && s.revisions[e.revisionId.value].recordId == e.recordId
  }

  predicate EventsOk(s: Store) {
    && (forall i :: 0 <= i < |s.events| ==> EventOk(s, i))
    && (forall i, j :: 0 <= i < j < |s.events| ==> s.events[i].id < s.events[j].id)
    && (forall i, j :: 0 <= i < j < |s.events| && s.events[i].recordId == s.events[j].recordId ==>
          s.events[i].recordVersion < s.events[j].recordVersion)
  }

  /** A record is at version 0 only inside the transaction that inserts it. */
  predicate RecordOk(s: Store, r: RecordId)
    requires r < |s.records|
  {
    var row := s.records[r];
    if row.recordVersion == 0 then
      row.currentRevisionId.None? && row.state == Active && r !in Replay(s.events)
    else
      && row.currentRevisionId.Some? && row.currentRevisionId.value < |s.revisions|
      && s.revisions[row.currentRevisionId.value].recordId == r
      && r in Replay(s.events)
      && Replay(s.events)[r] == Projection(row.recordVersion, row.state, Some(row.location), row.currentRevisionId)
  }

  predicate RecordsOk(s: Store) {
    && (forall r :: 0 <= r < |s.records| ==> RecordOk(s, r))
    && (forall r :: r in Replay(s.events) ==> r < |s.records|)
    && (forall q, r :: 0 <= q < r < |s.records| ==> s.records[q].identity != s.records[r].identity)
  }

  predicate LedgerOk(s: Store) {
    EventsOk(s) && RecordsOk(s) && Lawful(s.events)
  }

  predicate NoneUnborn(s: Store) {
    forall r :: 0 <= r < |s.records| ==> s.records[r].recordVersion > 0
  }

  /** The ledger as every transaction leaves it. */
  predicate LedgerInv(s: Store) {
    LedgerOk(s) && NoneUnborn(s)
  }

  // ---------- Each step keeps it ----------

  lemma FindKnown(s: Store, r: RecordId)
    requires LedgerOk(s) && r < |s.records|
    ensures FindRecord(s.records, s.records[r].identity) == Some(r)
  {
  }

  lemma ReplayAppend(events: seq<ArchiveEvent>, e: ArchiveEvent)
    ensures Replay(events + [e]) == Replay(events)[e.recordId := Project(e)]
    ensures Lawful(events) && Legal(Prior(events, e.recordId), e) ==> Lawful(events + [e])
  {
    assert (events + [e])[..|events|] == events;
  }

  /** Every record but `r` is as it was; `r` may be the one record added at the end. */
  predicate OthersUnmoved(s: Store, t: Store, r: RecordId) {
    && |t.records| == (if r == |s.records| then r + 1 else |s.records|)
    && forall q :: 0 <= q < |s.records| && q != r ==> t.records[q] == s.records[q]
  }

  lemma AdmitKeepsLedger(s: Store, identity: RecordIdentity, location: LogicalLocation)
    requires LedgerInv(s)
    ensures var (t, r) := AdmitRecord(s, identity, location);
            && LedgerOk(t) && t.records[r].identity == identity
            && OthersUnmoved(s, t, r) && t.events == s.events && t.revisions == s.revisions
            && (r < |s.records| ==> t == s)
            && (r >= |s.records| ==> t.records[r] == RecordRow(identity, location, 0, Active, None))
  {
    var (t, r) := AdmitRecord(s, identity, location);
    assert t.events == s.events;
    assert forall i :: 0 <= i < |s.events| ==> EventOk(s, i) ==> EventOk(t, i);
    assert forall q :: 0 <= q < |s.records| ==> RecordOk(s, q) ==> RecordOk(t, q);
  }

  lemma EnsureRevisionKeepsLedger(s: Store, r: RecordId, revision: CanonicalRevision)
    requires LedgerOk(s) && r < |s.records|
    ensures var (t, id) := EnsureRevision(s, r, revision);
            && LedgerOk(t) && id < |t.revisions| && t.revisions[id] == RevisionRow(r, revision)
            && (forall q :: 0 <= q < |s.records| ==>
                  RevisionOf(t.revisions, s.records[q].currentRevisionId)
                  == RevisionOf(s.revisions, s.records[q].currentRevisionId))
  {
    var (t, id) := EnsureRevision(s, r, revision);
    assert forall i :: 0 <= i < |s.events| ==> EventOk(s, i) ==> EventOk(t, i);
    forall q | 0 <= q < |s.records|
      ensures RecordOk(t, q)
      ensures RevisionOf(t.revisions, s.records[q].currentRevisionId)
              == RevisionOf(s.revisions, s.records[q].currentRevisionId)
    {
      assert RecordOk(s, q);
    }
  }

  lemma TransitionKeepsEvents(s: Store, r: RecordId, kind: EventKind, revisionId: Option<RevisionId>,
                              location: LogicalLocation, state: RecordState, nowMs: Millis)
    requires EventsOk(s) && r < |s.records|
    requires revisionId.Some? && revisionId.value < |s.revisions| && s.revisions[revisionId.value].recordId == r
    ensures EventsOk(Transition(s, r, kind, revisionId, location, state, nowMs))
  {
    var t := Transition(s, r, kind, revisionId, location, state, nowMs);
    forall i | 0 <= i < |s.events|
      ensures EventOk(t, i) && s.events[i].id < s.nextId
      ensures s.events[i].recordId == r ==> s.events[i].recordVersion < t.events[|s.events|].recordVersion
    {
      assert EventOk(s, i);
    }
    assert EventOk(t, |s.events|);
  }

  lemma TransitionKeepsLedger(s: Store, r: RecordId, kind: EventKind, revisionId: Option<RevisionId>,
                              location: LogicalLocation, state: RecordState, nowMs: Millis)
    requires LedgerOk(s) && r < |s.records|
    requires Legal(Prior(s.events, r), NextEvent(s, r, kind, revisionId, location, nowMs))
    requires state == if kind == RecordTombstoned then Tombstoned else Active
    requires revisionId.Some? && revisionId.value < |s.revisions| && s.revisions[revisionId.value].recordId == r
    ensures LedgerOk(Transition(s, r, kind, revisionId, location, state, nowMs))
  {
    var t := Transition(s, r, kind, revisionId, location, state, nowMs);
    TransitionKeepsEvents(s, r, kind, revisionId, location, state, nowMs);
    ReplayAppend(s.events, NextEvent(s, r, kind, revisionId, location, nowMs));
    forall q | 0 <= q < |t.records| ensures RecordOk(t, q) {
      assert RecordOk(s, q);
    }
    assert forall q :: 0 <= q < |s.records| ==> t.records[q].identity == s.records[q].identity;
  }

  /** Between two states only record `r` moved, and nothing already written was lost. */
  predicate OnlyMoves(s: Store, t: Store, r: RecordId)
    requires r < |s.records|
  {
    && |t.records| == |s.records|
    && t.records[r].identity == s.records[r].identity
    && (forall q :: 0 <= q < |s.records| && q != r ==> t.records[q] == s.records[q])
    && s.revisions <= t.revisions
    && s.events <= t.events
  }

  lemma RestoreKeepsLedger(s: Store, r: RecordId, location: LogicalLocation, nowMs: Millis)
    requires LedgerOk(s) && r < |s.records|
    ensures var t := RestoreIfTombstoned(s, r, location, nowMs);
            && LedgerOk(t) && OnlyMoves(s, t, r)
            && t.records[r].state == Active
            && t.records[r].currentRevisionId == s.records[r].currentRevisionId
            && t.revisions == s.revisions
            && (s.records[r].state == Active ==> t == s)
            && (s.records[r].state == Tombstoned ==>
                  |t.events| == |s.events| + 1 && t.records[r].recordVersion > 0)
  {
    assert RecordOk(s, r);
    if s.records[r].state == Tombstoned {
      TransitionKeepsLedger(s, r, RecordRestored, s.records[r].currentRevisionId, location, Active, nowMs);
    }
  }

  predicate PresentAs(s: Store, r: RecordId, location: LogicalLocation, revision: CanonicalRevision)
    requires r < |s.records|
  {
    && s.records[r].state == Active
    && s.records[r].location == location
    && RevisionOf(s.revisions, s.records[r].currentRevisionId) == Some(revision)
  }

  lemma CommitKeepsLedger(s: Store, r: RecordId, location: LogicalLocation, revision: CanonicalRevision, nowMs: Millis)
    requires LedgerOk(s) && r < |s.records| && s.records[r].state == Active
    ensures var t := CommitObserved(s, r, location, revision, nowMs);
            && LedgerOk(t) && OnlyMoves(s, t, r)
            && PresentAs(t, r, location, revision)
            && t.records[r].recordVersion > 0
            && (t.events == s.events <==> PresentAs(s, r, location, revision))
  {
    var (t, id) := EnsureRevision(s, r, revision);
    EnsureRevisionKeepsLedger(s, r, revision);
    assert RecordOk(s, r) && RecordOk(t, r);
    if RevisionOf(s.revisions, s.records[r].currentRevisionId) != Some(revision) {
      TransitionKeepsLedger(t, r, RevisionCommitted, Some(id), location, Active, nowMs);
    } else if s.records[r].location != location {
      TransitionKeepsLedger(t, r, LocationChanged, t.records[r].currentRevisionId, location, Active, nowMs);
    }
  }

  lemma ObservationKeepsLedger(s: Store, identity: RecordIdentity, location: LogicalLocation,
                               revision: CanonicalRevision, nowMs: Millis)
    requires LedgerInv(s)
    ensures var t := ObservePresent(s, identity, location, revision, nowMs);
            var r := AdmitRecord(s, identity, location).1;
            && LedgerInv(t)
            && s.events <= t.events && s.revisions <= t.revisions
            && r < |t.records| && t.records[r].identity == identity
            && PresentAs(t, r, location, revision)
            && OthersUnmoved(s, t, r)
            && |s.records| <= |t.records|
            && (r < |s.records| ==> |t.records| == |s.records|)
  {
    var (admitted, r) := AdmitRecord(s, identity, location);
    AdmitKeepsLedger(s, identity, location);
    var restored := RestoreIfTombstoned(admitted, r, location, nowMs);
    RestoreKeepsLedger(admitted, r, location, nowMs);
    CommitKeepsLedger(restored, r, location, revision, nowMs);
    OnlyMovesComposes(s, admitted, restored, CommitObserved(restored, r, location, revision, nowMs), r);
  }

  lemma OnlyMovesComposes(s: Store, admitted: Store, restored: Store, t: Store, r: RecordId)
    requires r < |admitted.records| && OnlyMoves(admitted, restored, r) && OnlyMoves(restored, t, r)
    requires NoneUnborn(s) && OthersUnmoved(s, admitted, r)
    requires s.events <= admitted.events && s.revisions <= admitted.revisions
    ensures OthersUnmoved(s, t, r) && s.events <= t.events && s.revisions <= t.revisions
    ensures t.records[r].identity == admitted.records[r].identity
    ensures t.records[r].recordVersion > 0 ==> NoneUnborn(t)
  {
    forall q | 0 <= q < |s.records| && q != r
      ensures t.records[q] == s.records[q]
    {
      assert restored.records[q] == admitted.records[q] == s.records[q];
    }
  }

  /** After an observation the identity is active where and as it was observed, and no other record moved. */
  lemma ObservationTakesEffect(s: Store, identity: RecordIdentity, location: LogicalLocation,
                               revision: CanonicalRevision, nowMs: Millis)
    requires LedgerInv(s)
    ensures var t := ObservePresent(s, identity, location, revision, nowMs);
            var found := FindRecord(t.records, identity);
            && LedgerInv(t)
            && s.events <= t.events && s.revisions <= t.revisions
            && |s.records| <= |t.records|
            && found.Some? && PresentAs(t, found.value, location, revision)
            && OthersUnmoved(s, t, found.value)
            && (FindRecord(s.records, identity).Some? ==>
                  found == FindRecord(s.records, identity) && |t.records| == |s.records|)
  {
    ObservationKeepsLedger(s, identity, location, revision, nowMs);
    var t := ObservePresent(s, identity, location, revision, nowMs);
    FindKnown(t, AdmitRecord(s, identity, location).1);
  }

  /** An observation emits nothing exactly when the record already was where and as observed. */
  lemma ObservationIsSilentIff(s: Store, identity: RecordIdentity, location: LogicalLocation,
                               revision: CanonicalRevision, nowMs: Millis)
    requires LedgerInv(s)
    ensures var t := ObservePresent(s, identity, location, revision, nowMs);
            var found := FindRecord(s.records, identity);
            t.events == s.events <==> found.Some? && PresentAs(s, found.value, location, revision)
  {
    var (admitted, r) := AdmitRecord(s, identity, location);
    AdmitKeepsLedger(s, identity, location);
    var restored := RestoreIfTombstoned(admitted, r, location, nowMs);
    RestoreKeepsLedger(admitted, r, location, nowMs);
    CommitKeepsLedger(restored, r, location, revision, nowMs);
  }

  /** Observing the same thing twice is the same as observing it once, rows and deliveries included. */
  lemma ReobservationIsIdempotent(s: Store, identity: RecordIdentity, location: LogicalLocation,
                                  revision: CanonicalRevision, nowMs: Millis, laterMs: Millis)
    requires LedgerInv(s)
    ensures var t := ObservePresent(s, identity, location, revision, nowMs);
            ObservePresent(t, identity, location, revision, laterMs) == t
  {
    ObservationTakesEffect(s, identity, location, revision, nowMs);
    var t := ObservePresent(s, identity, location, revision, nowMs);
    var r := FindRecord(t.records, identity).value;
    assert RecordOk(t, r);
    var id := t.records[r].currentRevisionId.value;
    assert t.revisions[id] == RevisionRow(r, revision);
  }

  lemma TombstoneKeepsLedger(s: Store, r: RecordId, nowMs: Millis)
    requires LedgerInv(s) && r < |s.records|
    ensures LedgerInv(TombstoneRecord(s, r, nowMs))
    ensures s.events <= TombstoneRecord(s, r, nowMs).events
  {
    assert RecordOk(s, r);
    if s.records[r].state == Active {
      TransitionKeepsLedger(s, r, RecordTombstoned, s.records[r].currentRevisionId, s.records[r].location,
                            Tombstoned, nowMs);
    }
  }

  predicate SameLedger(s: Store, t: Store) {
    t.records == s.records && t.revisions == s.revisions && t.events == s.events && s.nextId <= t.nextId
  }

  lemma SameLedgerKeepsLedger(s: Store, t: Store)
    requires LedgerInv(s) && SameLedger(s, t)
    ensures LedgerInv(t)
  {
    assert forall i :: 0 <= i < |s.events| ==> EventOk(s, i) ==> EventOk(t, i);
    assert forall q :: 0 <= q < |s.records| ==> RecordOk(s, q) ==> RecordOk(t, q);
  }

  lemma ApplyKeepsLedger(s: Store, op: Op)
    requires LedgerInv(s)
    ensures LedgerInv(Apply(s, op))
    ensures s.events <= Apply(s, op).events
  {
    match op
    case Observe(identity, location, revision, nowMs) =>
      ObservationTakesEffect(s, identity, location, revision, nowMs);
    case Tombstone(identity, nowMs) =>
      var found := FindRecord(s.records, identity);
      if found.Some? {
        TombstoneKeepsLedger(s, found.value, nowMs);
      }
    case _ =>
      SameLedgerKeepsLedger(s, Apply(s, op));
  }

  lemma {:induction false} RunKeepsLedger(s: Store, ops: seq<Op>)
    requires LedgerInv(s)
    ensures LedgerInv(Run(s, ops))
    ensures s.events <= Run(s, ops).events
    decreases |ops|
  {
    if ops != [] {
      ApplyKeepsLedger(s, ops[0]);
      RunKeepsLedger(Apply(s, ops[0]), ops[1..]);
    }
  }

  // ---------- What the invariant means ----------

  lemma {:induction false} LawfulVersionsAreDense(events: seq<ArchiveEvent>, r: RecordId)
    requires Lawful(events)
    ensures VersionsOf(events, r) == OneTo(if r in Replay(events) then Replay(events)[r].recordVersion else 0)
    decreases |events|
  {
    if events != [] {
      LawfulVersionsAreDense(events[..|events| - 1], r);
    }
  }

  /** In every reachable state: dense versions, a lawful history, and rows equal to the replay. */
  lemma RecordsAreTheReplayOfTheLedger(ops: seq<Op>, r: RecordId)
    ensures var s := Run(EMPTY_STORE, ops);
            && Lawful(s.events)
            && (r in Replay(s.events) <==> r < |s.records|)
            && (r < |s.records| ==>
                  var row := s.records[r];
                  && Replay(s.events)[r]
                     == Projection(row.recordVersion, row.state, Some(row.location), row.currentRevisionId)
                  && row.recordVersion > 0
                  && VersionsOf(s.events, r) == OneTo(row.recordVersion))
  {
    RunKeepsLedger(EMPTY_STORE, ops);
    var s := Run(EMPTY_STORE, ops);
    LawfulVersionsAreDense(s.events, r);
    assert r < |s.records| ==> RecordOk(s, r);
  }

  /** The last event of a replayed record is in the ledger, and says what the replay says. */
  lemma {:induction false} ReplayWitness(events: seq<ArchiveEvent>, r: RecordId) returns (i: nat)
    requires r in Replay(events)
    ensures i < |events| && events[i].recordId == r && Project(events[i]) == Replay(events)[r]
    decreases |events|
  {
    var n := |events| - 1;
    if events[n].recordId == r {
      i := n;
    } else {
      i := ReplayWitness(events[..n], r);
    }
  }
}
