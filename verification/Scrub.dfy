/** The resumable integrity pass: it rehashes one source's files in location order, under a durable cursor. */
module Scrub {
  import opened Wrappers
  import opened Domain
  import opened Sources
  import opened Files

  // ---------- One pass ----------

  /** What visiting a candidate finds: an error before its fingerprint is read, or everything read after that. */
  datatype ScrubVisit =
    | Unopenable
    | Opened(before: SourceFingerprint, parse: Parse, hash: HashRead, nowMs: Millis)

  datatype ScrubEntry = ScrubEntry(file: FileCandidate, visit: ScrubVisit)

  /** What one invocation meets: root checks, the enumeration unless it fails, and every visit. */
  datatype ScrubPass = ScrubPass(
    rootsBefore: bool,
    listing: Option<seq<ScrubEntry>>,
    byteBudget: nat,
    rootsAfter: bool,
    endMs: Millis)

  function Locations(entries: seq<ScrubEntry>): (r: seq<LogicalLocation>)
    ensures |r| == |entries|
  {
    seq(|entries|, i requires 0 <= i < |entries| => entries[i].file.location)
  }

  // ---------- Sorting ----------

  /** Inserts behind every entry that is not after it, as a stable sort does. */
  function Insert(entry: ScrubEntry, sorted: seq<ScrubEntry>): (r: seq<ScrubEntry>)
    ensures multiset(r) == multiset(sorted) + multiset{entry}
  {
    if sorted == [] then [entry]
    else
      var n := |sorted| - 1;
      assert sorted == sorted[..n] + [sorted[n]];
      if Before(entry.file.location, sorted[n].file.location) then Insert(entry, sorted[..n]) + [sorted[n]]
      else sorted + [entry]
  }

  function Sorted(entries: seq<ScrubEntry>): (r: seq<ScrubEntry>)
    ensures multiset(r) == multiset(entries)
  {
    if entries == [] then []
    else
      var n := |entries| - 1;
      assert entries == entries[..n] + [entries[n]];
      Insert(entries[n], Sorted(entries[..n]))
  }

  /** A tree holds at most one file at a location. */
  predicate OneFilePerLocation(entries: seq<ScrubEntry>) {
    forall i, j :: 0 <= i < j < |entries| ==> entries[i].file.location != entries[j].file.location
  }

  lemma MemberOf(entries: seq<ScrubEntry>, others: seq<ScrubEntry>, e: ScrubEntry)
    requires multiset(entries) == multiset(others)
    ensures e in entries <==> e in others
  {
    assert e in entries <==> e in multiset(entries);
    assert e in others <==> e in multiset(others);
  }

  lemma InsertedAreBefore(entry: ScrubEntry, sorted: seq<ScrubEntry>, last: LogicalLocation)
    requires Before(entry.file.location, last)
    requires forall i :: 0 <= i < |sorted| ==> Before(sorted[i].file.location, last)
    ensures forall i :: 0 <= i < |Insert(entry, sorted)| ==> Before(Insert(entry, sorted)[i].file.location, last)
  {
    var inserted := Insert(entry, sorted);
    forall i | 0 <= i < |inserted| ensures Before(inserted[i].file.location, last) {
      assert multiset(inserted) == multiset(sorted + [entry]);
      MemberOf(inserted, sorted + [entry], inserted[i]);
    }
  }

  lemma {:induction false} InsertKeepsAscending(entry: ScrubEntry, sorted: seq<ScrubEntry>)
    requires Ascending(Locations(sorted))
    requires forall i :: 0 <= i < |sorted| ==> sorted[i].file.location != entry.file.location
    ensures Ascending(Locations(Insert(entry, sorted)))
  {
    if sorted != [] {
      var n := |sorted| - 1;
      var last := sorted[n].file.location;
      LocationOrderIsTotal(entry.file.location, last);
      if Before(entry.file.location, last) {
        var inserted := Insert(entry, sorted[..n]);
        assert Locations(sorted[..n]) == Locations(sorted)[..n];
        forall i | 0 <= i < n ensures Before(sorted[..n][i].file.location, last) {
          assert Before(Locations(sorted)[i], Locations(sorted)[n]);
        }
        InsertKeepsAscending(entry, sorted[..n]);
        InsertedAreBefore(entry, sorted[..n], last);
        AscendingSnoc(inserted, sorted[n]);
      } else {
        forall i | 0 <= i < |sorted|
          ensures Before(sorted[i].file.location, entry.file.location)
        {
          if i < n {
            assert Before(Locations(sorted)[i], Locations(sorted)[n]);
            LocationOrderIsTransitive(sorted[i].file.location, last, entry.file.location);
          }
        }
        AscendingSnoc(sorted, entry);
      }
    }
  }

  lemma AscendingSnoc(sorted: seq<ScrubEntry>, entry: ScrubEntry)
    requires Ascending(Locations(sorted))
    requires forall i :: 0 <= i < |sorted| ==> Before(sorted[i].file.location, entry.file.location)
    ensures Ascending(Locations(sorted + [entry]))
  {
    var all := sorted + [entry];
    forall i, j | 0 <= i < j < |all| ensures Before(Locations(all)[i], Locations(all)[j]) {
      if j < |sorted| {
        assert Before(Locations(sorted)[i], Locations(sorted)[j]);
      }
    }
  }

  lemma {:induction false} SortedIsAscending(entries: seq<ScrubEntry>)
    requires OneFilePerLocation(entries)
    ensures Ascending(Locations(Sorted(entries)))
  {
    if entries != [] {
      var n := |entries| - 1;
      var rest := Sorted(entries[..n]);
      SortedIsAscending(entries[..n]);
      forall i | 0 <= i < |rest| ensures rest[i].file.location != entries[n].file.location {
        MemberOf(rest, entries[..n], rest[i]);
      }
      InsertKeepsAscending(entries[n], rest);
    }
  }

  // ---------- The transactions of a pass ----------

  datatype Stop = Going | Exhausted | Failed(error: SourceError)

  /** The transactions a pass asks for, and the counters it reports. */
  datatype Plan = Plan(ops: seq<DbOp>, considered: nat, filesHashed: nat, bytesHashed: nat, changed: nat, stop: Stop)

  const NO_PLAN := Plan([], 0, 0, 0, 0, Going)

  /** Behind the cursor the pass started from. */
  predicate Skipped(start: Option<LogicalLocation>, location: LogicalLocation) {
    start.Some? && !Before(start.value, location)
  }

  function AdvanceTo(id: SourceId, location: LogicalLocation, nowMs: Millis): DbOp {
    AdvanceScrub(id, Some(location), nowMs)
  }

  /** What a visit decides. */
  datatype Verdict =
    | Abort(error: SourceError)
    | PassBy(changed: bool, nowMs: Millis)
    | Admit(identity: RecordIdentity, revision: CanonicalRevision, nowMs: Millis)

  function Judge(file: FileCandidate, v: ScrubVisit): Verdict {
    if v.Unopenable? then Abort(ReadFailed)
    else if v.before != file.fingerprint then PassBy(true, v.nowMs)
    else if v.parse.ParseFailed? then Abort(ReadFailed)
    else if v.parse.NotARecord? then PassBy(false, v.nowMs)
    else if v.parse.record.location != file.location then Abort(InvalidProviderRecord)
    else if v.hash.HashFailed? then Abort(ReadFailed)
    else if v.hash.after != v.before then PassBy(true, v.nowMs)
    else Admit(v.parse.record.identity, v.hash.revision, v.nowMs)
  }

  /** What was hashed is observed before the cursor moves. */
  function VisitOps(id: SourceId, location: LogicalLocation, verdict: Verdict): seq<DbOp> {
    match verdict
    case Abort(_) => []
    case PassBy(_, nowMs) => [AdvanceTo(id, location, nowMs)]
    case Admit(identity, revision, nowMs) =>
      [ObserveScrubbed(id, identity, location, revision, nowMs), AdvanceTo(id, location, nowMs)]
  }

  /** The verdict, unless counting its bytes overflows. */
  function Counted(p: Plan, verdict: Verdict): Verdict {
    if verdict.Admit? && p.bytesHashed + verdict.revision.byteLength > U64_MAX then Abort(HashCounterOverflow) else verdict
  }

  function PlanVisit(p: Plan, id: SourceId, file: FileCandidate, v: ScrubVisit): Plan {
    var verdict := Counted(p, Judge(file, v));
    Plan(p.ops + VisitOps(id, file.location, verdict),
         p.considered + 1,
         p.filesHashed + if verdict.Admit? then 1 else 0,
         p.bytesHashed + if verdict.Admit? then verdict.revision.byteLength else 0,
         p.changed + if verdict.PassBy? && verdict.changed then 1 else 0,
         if verdict.Abort? then Failed(verdict.error) else p.stop)
  }

  /** Some bytes were hashed already, and this file would take the pass over its budget. */
  predicate OverBudget(p: Plan, file: FileCandidate, byteBudget: nat) {
    p.bytesHashed > 0 && p.bytesHashed + file.fingerprint.byteLength > byteBudget
  }

  function PlanOne(p: Plan, id: SourceId, start: Option<LogicalLocation>, entry: ScrubEntry, byteBudget: nat): Plan {
    if !p.stop.Going? || Skipped(start, entry.file.location) then p
    else if OverBudget(p, entry.file, byteBudget) then p.(stop := Exhausted)
    else PlanVisit(p, id, entry.file, entry.visit)
  }

  function PlanUpTo(id: SourceId, start: Option<LogicalLocation>, sorted: seq<ScrubEntry>, byteBudget: nat, n: nat): Plan
    requires n <= |sorted|
  {
    if n == 0 then NO_PLAN
    else PlanOne(PlanUpTo(id, start, sorted, byteBudget, n - 1), id, start, sorted[n - 1], byteBudget)
  }

  function PlanOf(id: SourceId, start: Option<LogicalLocation>, pass: ScrubPass): Plan {
    if !pass.rootsBefore then NO_PLAN.(stop := Failed(UnhealthyRoot))
    else if pass.listing.None? then NO_PLAN.(stop := Failed(ReadFailed))
    else
      var sorted := Sorted(pass.listing.value);
      PlanUpTo(id, start, sorted, pass.byteBudget, |sorted|)
  }

  /** Nothing failed, the roots are still healthy, and no candidate is left. */
  predicate EndsCycle(id: SourceId, start: Option<LogicalLocation>, pass: ScrubPass) {
    PlanOf(id, start, pass).stop.Going? && pass.rootsAfter
  }

  function PassOps(id: SourceId, start: Option<LogicalLocation>, pass: ScrubPass): seq<DbOp> {
    PlanOf(id, start, pass).ops + if EndsCycle(id, start, pass) then [AdvanceScrub(id, None, pass.endMs)] else []
  }

  function CursorOf(db: Db, id: SourceId): Option<LogicalLocation> { ScrubProgress(db.tables, id).cursor }

  // ---------- The locations a sequence of transactions considers ----------

  /** The locations whose consideration was made durable: those the cursor moved to. */
  function Trail(id: SourceId, ops: seq<DbOp>): seq<LogicalLocation> {
    if ops == [] then []
    else
      var n := |ops| - 1;
      Trail(id, ops[..n]) +
      if ops[n].AdvanceScrub? && ops[n].sourceId == id && ops[n].nextAfter.Some? then [ops[n].nextAfter.value] else []
  }

  /** Some transaction clears the cursor. */
  predicate Completes(id: SourceId, ops: seq<DbOp>) {
    exists i :: 0 <= i < |ops| && ops[i].AdvanceScrub? && ops[i].sourceId == id && ops[i].nextAfter.None?
  }

  function After(locations: seq<LogicalLocation>, start: Option<LogicalLocation>): seq<LogicalLocation> {
    if locations == [] then []
    else
      var n := |locations| - 1;
      After(locations[..n], start) + if Skipped(start, locations[n]) then [] else [locations[n]]
  }

  predicate IsPrefix(a: seq<LogicalLocation>, b: seq<LogicalLocation>) { a <= b }

  lemma {:induction false} TrailConcat(id: SourceId, a: seq<DbOp>, b: seq<DbOp>)
    ensures Trail(id, a + b) == Trail(id, a) + Trail(id, b)
    decreases |b|
  {
    if b == [] {
      assert a + b == a;
    } else {
      var n := |b| - 1;
      assert (a + b)[..|a| + n] == a + b[..n];
      TrailConcat(id, a, b[..n]);
    }
  }

  /** Before a pass stops, it has considered exactly the candidates ahead of its cursor; afterwards a first part. */
  lemma {:induction false} PlanConsiders(id: SourceId, start: Option<LogicalLocation>, sorted: seq<ScrubEntry>, byteBudget: nat, n: nat)
    requires n <= |sorted|
    ensures var p := PlanUpTo(id, start, sorted, byteBudget, n);
            var ahead := After(Locations(sorted)[..n], start);
            && IsPrefix(Trail(id, p.ops), ahead)
            && (p.stop.Going? ==> Trail(id, p.ops) == ahead)
            && (!p.stop.Failed? ==> p.considered == |Trail(id, p.ops)|)
            && (p.stop.Exhausted? ==> Trail(id, p.ops) != ahead && 0 < p.bytesHashed)
            && (0 < p.bytesHashed ==> Trail(id, p.ops) != [])
            && !Completes(id, p.ops)
    decreases n
  {
    if n > 0 {
      PlanConsiders(id, start, sorted, byteBudget, n - 1);
      var before, p := PlanUpTo(id, start, sorted, byteBudget, n - 1), PlanUpTo(id, start, sorted, byteBudget, n);
      var here := Locations(sorted)[..n];
      assert here[..n - 1] == Locations(sorted)[..n - 1];
      PlanOneConsiders(before, id, start, sorted[n - 1], byteBudget);
    }
  }

  lemma PlanOneConsiders(p: Plan, id: SourceId, start: Option<LogicalLocation>, entry: ScrubEntry, byteBudget: nat)
    requires !Completes(id, p.ops)
    ensures var q := PlanOne(p, id, start, entry, byteBudget);
            && !Completes(id, q.ops)
            && (Trail(id, q.ops) == Trail(id, p.ops) || Trail(id, q.ops) == Trail(id, p.ops) + [entry.file.location])
            && (p.bytesHashed < q.bytesHashed ==> Trail(id, q.ops) != Trail(id, p.ops))
            && (!p.stop.Going? || Skipped(start, entry.file.location) ==> q == p)
            && (p.stop.Going? && !Skipped(start, entry.file.location) ==>
                  if q.stop.Going? then Trail(id, q.ops) == Trail(id, p.ops) + [entry.file.location]
                                        && q.considered == p.considered + 1
                  else Trail(id, q.ops) == Trail(id, p.ops) && (q.stop.Exhausted? ==> q.considered == p.considered))
            && p.bytesHashed <= q.bytesHashed
  {
    if p.stop.Going? && !Skipped(start, entry.file.location) && !OverBudget(p, entry.file, byteBudget) {
      var verdict := Counted(p, Judge(entry.file, entry.visit));
      VisitConsiders(id, entry.file.location, verdict);
      TrailConcat(id, p.ops, VisitOps(id, entry.file.location, verdict));
    }
  }

  lemma VisitConsiders(id: SourceId, location: LogicalLocation, verdict: Verdict)
    ensures Trail(id, VisitOps(id, location, verdict)) == if verdict.Abort? then [] else [location]
    ensures !Completes(id, VisitOps(id, location, verdict))
  {
    var ops := VisitOps(id, location, verdict);
    if ops != [] {
      TrailSnoc(id, ops[..|ops| - 1], ops[|ops| - 1]);
      assert ops == ops[..|ops| - 1] + [ops[|ops| - 1]];
      assert |ops| == 2 ==> ops[..1] == [] + [ops[0]];
      TrailSnoc(id, [], ops[0]);
    }
  }

  lemma TrailSnoc(id: SourceId, ops: seq<DbOp>, op: DbOp)
    ensures Trail(id, ops + [op]) ==
            Trail(id, ops) + if op.AdvanceScrub? && op.sourceId == id && op.nextAfter.Some? then [op.nextAfter.value] else []
    ensures !Completes(id, ops) && !(op.AdvanceScrub? && op.sourceId == id && op.nextAfter.None?) ==>
              !Completes(id, ops + [op])
  {
    assert (ops + [op])[..|ops|] == ops;
  }
}
