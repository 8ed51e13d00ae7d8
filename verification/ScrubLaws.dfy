/** What a scrub covers, however its invocations are budgeted, cut short or overtaken by changes of the tree. */
module ScrubLaws {
  import opened Wrappers
  import opened Domain
  import opened Backoff
  import opened Sources
  import opened Files
  import opened Scrub

  // ---------- Invocations among everything else ----------

  /** An invocation of which only the first transactions commit before a crash, or a transaction of another kind. */
  datatype Action = Invoke(pass: ScrubPass, committed: nat) | Elsewhere(op: DbOp)

  predicate MovesCursor(id: SourceId, op: DbOp) { op.AdvanceScrub? && op.sourceId == id }

  function Committed(db: Db, id: SourceId, a: Action): seq<DbOp> {
    match a
    case Invoke(pass, committed) =>
      var ops := PassOps(id, CursorOf(db, id), pass);
      ops[..Min(committed, |ops|)]
    case Elsewhere(op) => if MovesCursor(id, op) then [] else [op]
  }

  function Act(db: Db, id: SourceId, a: Action): Db { RunDb(db, Committed(db, id, a)) }

  function ActAll(db: Db, id: SourceId, actions: seq<Action>): Db {
    if actions == [] then db else Act(ActAll(db, id, actions[..|actions| - 1]), id, actions[|actions| - 1])
  }

  /** Every location whose consideration was made durable, in order. */
  function Considered(db: Db, id: SourceId, actions: seq<Action>): seq<LogicalLocation> {
    if actions == [] then []
    else
      var n := |actions| - 1;
      Considered(db, id, actions[..n]) + Trail(id, Committed(ActAll(db, id, actions[..n]), id, actions[n]))
  }

  predicate Finishes(db: Db, id: SourceId, a: Action) { Completes(id, Committed(db, id, a)) }

  predicate NeverFinishes(db: Db, id: SourceId, actions: seq<Action>) {
    actions == [] ||
    var n := |actions| - 1;
    NeverFinishes(db, id, actions[..n]) && !Finishes(ActAll(db, id, actions[..n]), id, actions[n])
  }

  // ---------- The cursor follows the trail ----------

  lemma {:induction false} RunDbConcat(db: Db, a: seq<DbOp>, b: seq<DbOp>)
    ensures RunDb(db, a + b) == RunDb(RunDb(db, a), b)
    decreases |a|
  {
    if a == [] {
      assert a + b == b;
    } else {
      assert (a + b)[1..] == a[1..] + b;
      RunDbConcat(ApplyDb(db, a[0]), a[1..], b);
    }
  }

  lemma RunDbSnoc(db: Db, ops: seq<DbOp>, op: DbOp)
    ensures RunDb(db, ops + [op]) == ApplyDb(RunDb(db, ops), op)
  {
    RunDbConcat(db, ops, [op]);
    var mid := RunDb(db, ops);
    assert RunDb(mid, [op]) == RunDb(ApplyDb(mid, op), []);
  }

  predicate CursorIs(db: Db, id: SourceId, cursor: Option<LogicalLocation>, cycles: nat) {
    && id in db.tables.sources
    && ScrubProgress(db.tables, id).cursor == cursor
    && ScrubProgress(db.tables, id).completedCycles == cycles
  }

  function MoveBy(cursor: Option<LogicalLocation>, trail: seq<LogicalLocation>): Option<LogicalLocation> {
    if trail == [] then cursor else Some(trail[|trail| - 1])
  }

  lemma OtherOpsLeaveCursor(db: Db, id: SourceId, op: DbOp, cursor: Option<LogicalLocation>, cycles: nat)
    requires CursorIs(db, id, cursor, cycles) && !MovesCursor(id, op)
    ensures CursorIs(ApplyDb(db, op), id, cursor, cycles)
  {
  }

  lemma PrefixCompletesLess(id: SourceId, ops: seq<DbOp>, m: nat)
    requires m <= |ops|
    ensures Completes(id, ops[..m]) ==> Completes(id, ops)
  {
    forall i | 0 <= i < m ensures ops[..m][i] == ops[i] {
    }
  }

  lemma {:induction false} CursorFollowsTrail(db: Db, id: SourceId, ops: seq<DbOp>, cursor: Option<LogicalLocation>, cycles: nat)
    requires CursorIs(db, id, cursor, cycles) && !Completes(id, ops)
    ensures CursorIs(RunDb(db, ops), id, MoveBy(cursor, Trail(id, ops)), cycles)
    decreases |ops|
  {
    if ops != [] {
      var n := |ops| - 1;
      var earlier := ops[..n];
      assert ops == earlier + [ops[n]];
      PrefixCompletesLess(id, ops, n);
      CursorFollowsTrail(db, id, earlier, cursor, cycles);
      RunDbSnoc(db, earlier, ops[n]);
      if !MovesCursor(id, ops[n]) {
        OtherOpsLeaveCursor(RunDb(db, earlier), id, ops[n], MoveBy(cursor, Trail(id, earlier)), cycles);
      } else {
        assert ops[n].nextAfter.Some?;
      }
    }
  }

  // ---------- What one invocation commits ----------

  lemma {:induction false} TrailOfPrefix(id: SourceId, ops: seq<DbOp>, m: nat)
    requires m <= |ops|
    ensures IsPrefix(Trail(id, ops[..m]), Trail(id, ops))
    decreases |ops|
  {
    if m < |ops| {
      assert ops[..|ops| - 1][..m] == ops[..m];
      TrailOfPrefix(id, ops[..|ops| - 1], m);
    } else {
      assert ops[..m] == ops;
    }
  }

  /** The locations an invocation lists, in order. */
  function ListedBy(a: Action): seq<LogicalLocation> {
    if a.Invoke? && a.pass.rootsBefore && a.pass.listing.Some? then Locations(Sorted(a.pass.listing.value)) else []
  }

  predicate Distinct(a: Action) { a.Invoke? && a.pass.listing.Some? ==> OneFilePerLocation(a.pass.listing.value) }

  lemma ListedIsAscending(a: Action)
    requires Distinct(a)
    ensures Ascending(ListedBy(a))
  {
    if a.Invoke? && a.pass.listing.Some? {
      SortedIsAscending(a.pass.listing.value);
    }
  }

  lemma PassConsiders(id: SourceId, start: Option<LogicalLocation>, pass: ScrubPass)
    ensures var p := PlanOf(id, start, pass);
            var ahead := After(ListedBy(Invoke(pass, 0)), start);
            && IsPrefix(Trail(id, p.ops), ahead)
            && (p.stop.Going? ==> Trail(id, p.ops) == ahead)
            && (p.stop.Exhausted? ==> Trail(id, p.ops) != ahead && Trail(id, p.ops) != [])
            && !Completes(id, p.ops)
            && (!EndsCycle(id, start, pass) ==> PassOps(id, start, pass) == p.ops)
            && (EndsCycle(id, start, pass) ==> PassOps(id, start, pass) == p.ops + [AdvanceScrub(id, None, pass.endMs)])
  {
    if pass.rootsBefore && pass.listing.Some? {
      var sorted := Sorted(pass.listing.value);
      PlanConsiders(id, start, sorted, pass.byteBudget, |sorted|);
      assert Locations(sorted)[..|sorted|] == Locations(sorted);
    }
  }

  lemma PrefixCompletes(id: SourceId, ops: seq<DbOp>, last: DbOp, m: nat)
    requires !Completes(id, ops) && m <= |ops| + 1
    ensures Completes(id, (ops + [last])[..m]) ==> m == |ops| + 1
  {
  }

  /** An action that does not finish the cycle considers a first part of what its listing holds past the cursor. */
  lemma UnfinishedActionConsiders(db: Db, id: SourceId, a: Action)
    requires !Finishes(db, id, a)
    ensures IsPrefix(Trail(id, Committed(db, id, a)), After(ListedBy(a), CursorOf(db, id)))
  {
    match a
    case Elsewhere(op) => TrailSnoc(id, [], op); assert [] + [op] == [op];
    case Invoke(pass, committed) =>
      var start := CursorOf(db, id);
      var ops := PassOps(id, start, pass);
      PassConsiders(id, start, pass);
      TrailSnoc(id, PlanOf(id, start, pass).ops, AdvanceScrub(id, None, pass.endMs));
      TrailOfPrefix(id, ops, Min(committed, |ops|));
  }

  lemma FinishingActionCommitsAll(db: Db, id: SourceId, pass: ScrubPass, committed: nat)
    requires Finishes(db, id, Invoke(pass, committed))
    ensures var p := PlanOf(id, CursorOf(db, id), pass);
            && p.stop.Going? && !Completes(id, p.ops)
            && Committed(db, id, Invoke(pass, committed)) == p.ops + [AdvanceScrub(id, None, pass.endMs)]
  {
    var ops := PassOps(id, CursorOf(db, id), pass);
    var planned, last := PlanOf(id, CursorOf(db, id), pass).ops, AdvanceScrub(id, None, pass.endMs);
    PassConsiders(id, CursorOf(db, id), pass);
    var m := Min(committed, |ops|);
    assert Completes(id, ops[..m]);
    PrefixCompletes(id, planned, last, m);
    PrefixCompletesLess(id, ops, m);
    assert EndsCycle(id, CursorOf(db, id), pass);
    assert ops[..m] == ops;
  }

  lemma ClearingEndsCycle(db: Db, id: SourceId, ops: seq<DbOp>, nowMs: Millis, cursor: Option<LogicalLocation>, cycles: nat)
    requires CursorIs(db, id, cursor, cycles) && !Completes(id, ops)
    ensures CursorIs(RunDb(db, ops + [AdvanceScrub(id, None, nowMs)]), id, None, cycles + 1)
  {
    CursorFollowsTrail(db, id, ops, cursor, cycles);
    RunDbSnoc(db, ops, AdvanceScrub(id, None, nowMs));
  }

  /** An action that finishes the cycle considers everything its listing holds past the cursor, then clears it. */
  lemma FinishingActionConsiders(db: Db, id: SourceId, a: Action, cursor: Option<LogicalLocation>, cycles: nat)
    requires CursorIs(db, id, cursor, cycles) && Finishes(db, id, a)
    ensures Trail(id, Committed(db, id, a)) == After(ListedBy(a), cursor)
    ensures CursorIs(Act(db, id, a), id, None, cycles + 1)
  {
    if a.Invoke? {
      var planned := PlanOf(id, cursor, a.pass).ops;
      FinishingActionCommitsAll(db, id, a.pass, a.committed);
      PassConsiders(id, cursor, a.pass);
      TrailSnoc(id, planned, AdvanceScrub(id, None, a.pass.endMs));
      ClearingEndsCycle(db, id, planned, a.pass.endMs, cursor, cycles);
    }
  }

  // ---------- Coverage ----------

  lemma {:induction false} AfterHolds(locations: seq<LogicalLocation>, start: Option<LogicalLocation>, l: LogicalLocation)
    ensures l in After(locations, start) <==> l in locations && !Skipped(start, l)
  {
    if locations != [] {
      var n := |locations| - 1;
      assert locations == locations[..n] + [locations[n]];
      AfterHolds(locations[..n], start, l);
    }
  }

  lemma {:induction false} AfterIsAscending(locations: seq<LogicalLocation>, start: Option<LogicalLocation>)
    requires Ascending(locations)
    ensures Ascending(After(locations, start))
  {
    if locations != [] {
      var n := |locations| - 1;
      var earlier := After(locations[..n], start);
      AfterIsAscending(locations[..n], start);
      forall i | 0 <= i < |earlier| ensures Before(earlier[i], locations[n]) {
        AfterHolds(locations[..n], start, earlier[i]);
        var j :| 0 <= j < n && locations[..n][j] == earlier[i];
        assert locations[j] == earlier[i];
      }
    }
  }

  /** Where a cycle stands with respect to one location: considered exactly when the cursor has reached it. */
  predicate SweptTo(cursor: Option<LogicalLocation>, seen: seq<LogicalLocation>, l: LogicalLocation) {
    && Ascending(seen)
    && cursor == MoveBy(None, seen)
    && (l in seen <==> Skipped(cursor, l))
  }

  lemma AscendingConcat(a: seq<LogicalLocation>, b: seq<LogicalLocation>)
    requires Ascending(a) && Ascending(b)
    requires a != [] && b != [] ==> Before(a[|a| - 1], b[0])
    ensures Ascending(a + b)
  {
    forall i, j | 0 <= i < j < |a + b| ensures Before((a + b)[i], (a + b)[j]) {
      if i < |a| <= j {
        var last := a[|a| - 1];
        if j > |a| {
          LocationOrderIsTransitive(last, b[0], b[j - |a|]);
        }
        if i < |a| - 1 {
          LocationOrderIsTransitive(a[i], last, b[j - |a|]);
        }
      }
    }
  }

  /** A first part of what lies past the cursor keeps the standing of a location that is listed. */
  lemma SweepOn(cursor: Option<LogicalLocation>, seen: seq<LogicalLocation>, l: LogicalLocation,
                listed: seq<LogicalLocation>, more: seq<LogicalLocation>)
    requires SweptTo(cursor, seen, l) && Ascending(listed) && IsPrefix(more, After(listed, cursor))
    requires more != [] ==> l in listed
    ensures SweptTo(MoveBy(cursor, more), seen + more, l)
  {
    if more != [] {
      var ahead := After(listed, cursor);
      AfterIsAscending(listed, cursor);
      AfterHolds(listed, cursor, ahead[0]);
      AfterHolds(listed, cursor, l);
      ReachedOn(cursor, seen, l, ahead, more);
      AscendingOn(cursor, seen, ahead, more);
    } else {
      assert seen + more == seen;
    }
  }

  lemma AscendingOn(cursor: Option<LogicalLocation>, seen: seq<LogicalLocation>, ahead: seq<LogicalLocation>,
                    more: seq<LogicalLocation>)
    requires Ascending(seen) && cursor == MoveBy(None, seen)
    requires Ascending(ahead) && more != [] && IsPrefix(more, ahead) && !Skipped(cursor, ahead[0])
    ensures Ascending(seen + more)
    ensures MoveBy(cursor, more) == MoveBy(None, seen + more)
  {
    assert forall i :: 0 <= i < |more| ==> more[i] == ahead[i];
    AscendingConcat(seen, more);
  }

  lemma ReachedOn(cursor: Option<LogicalLocation>, seen: seq<LogicalLocation>, l: LogicalLocation,
                  ahead: seq<LogicalLocation>, more: seq<LogicalLocation>)
    requires SweptTo(cursor, seen, l) && Ascending(ahead) && more != [] && IsPrefix(more, ahead)
    requires !Skipped(cursor, ahead[0])
    requires Skipped(cursor, l) || l in ahead
    ensures l in seen + more <==> Skipped(Some(more[|more| - 1]), l)
  {
    var n := |more| - 1;
    var last := more[n];
    assert last == ahead[n];
    if Skipped(cursor, l) {
      assert l in seen;
      LocationOrderIsTotal(cursor.value, l);
      if l != cursor.value {
        LocationOrderIsTransitive(l, cursor.value, ahead[0]);
      }
      if n > 0 {
        LocationOrderIsTransitive(l, ahead[0], ahead[n]);
      }
      LocationOrderIsTotal(l, last);
    } else {
      var i :| 0 <= i < |ahead| && ahead[i] == l;
      LocationOrderIsTotal(l, last);
      if i <= n {
        assert more[i] == l;
      } else {
        assert Before(ahead[n], ahead[i]);
        forall j | 0 <= j <= n ensures more[j] != l {
          assert Before(ahead[j], ahead[i]);
          LocationOrderIsTotal(more[j], l);
        }
      }
    }
  }

  // ---------- The laws ----------

  predicate ShowsAll(actions: seq<Action>, l: LogicalLocation) {
    forall i :: 0 <= i < |actions| ==> Distinct(actions[i]) && (ListedBy(actions[i]) != [] ==> l in ListedBy(actions[i]))
  }

  lemma UnfinishedActionSweeps(db: Db, id: SourceId, a: Action, cursor: Option<LogicalLocation>, cycles: nat,
                               seen: seq<LogicalLocation>, l: LogicalLocation)
    requires CursorIs(db, id, cursor, cycles) && SweptTo(cursor, seen, l)
    requires !Finishes(db, id, a) && Distinct(a) && (ListedBy(a) != [] ==> l in ListedBy(a))
    ensures var more := Trail(id, Committed(db, id, a));
            && CursorIs(Act(db, id, a), id, MoveBy(cursor, more), cycles)
            && SweptTo(MoveBy(cursor, more), seen + more, l)
  {
    var more := Trail(id, Committed(db, id, a));
    UnfinishedActionConsiders(db, id, a);
    CursorFollowsTrail(db, id, Committed(db, id, a), cursor, cycles);
    ListedIsAscending(a);
    SweepOn(cursor, seen, l, ListedBy(a), more);
  }

  /** Within a cycle the cursor only moves forward, and a location listed throughout was considered iff it is behind. */
  lemma {:induction false} CycleSweeps(db: Db, id: SourceId, actions: seq<Action>, cycles: nat, l: LogicalLocation)
    requires CursorIs(db, id, None, cycles) && NeverFinishes(db, id, actions) && ShowsAll(actions, l)
    ensures var seen := Considered(db, id, actions);
            && CursorIs(ActAll(db, id, actions), id, MoveBy(None, seen), cycles)
            && SweptTo(MoveBy(None, seen), seen, l)
    decreases |actions|
  {
    if actions != [] {
      var n := |actions| - 1;
      var seen := Considered(db, id, actions[..n]);
      CycleSweeps(db, id, actions[..n], cycles, l);
      UnfinishedActionSweeps(ActAll(db, id, actions[..n]), id, actions[n], MoveBy(None, seen), cycles, seen, l);
    }
  }

  /**
   * A cycle starts with no cursor and ends with the invocation that clears it. In between come budgeted invocations,
   * some cut short by crashes or failures, changes of the tree, and any other transactions. A location present in
   * every enumeration is considered exactly once, in location order with all the others.
   */
  lemma ScrubCoversEverything(db: Db, id: SourceId, actions: seq<Action>, last: Action, cycles: nat, l: LogicalLocation)
    requires CursorIs(db, id, None, cycles)
    requires NeverFinishes(db, id, actions) && Finishes(ActAll(db, id, actions), id, last)
    requires ShowsAll(actions + [last], l) && l in ListedBy(last)
    ensures var seen := Considered(db, id, actions + [last]);
            && Ascending(seen)
            && multiset(seen)[l] == 1
            && CursorIs(ActAll(db, id, actions + [last]), id, None, cycles + 1)
  {
    var seen, mid := Considered(db, id, actions), ActAll(db, id, actions);
    var more := Trail(id, Committed(mid, id, last));
    assert (actions + [last])[..|actions|] == actions;
    forall i | 0 <= i < |actions| ensures actions[i] == (actions + [last])[i] {
    }
    CycleSweeps(db, id, actions, cycles, l);
    FinishingActionConsiders(mid, id, last, MoveBy(None, seen), cycles);
    ListedIsAscending((actions + [last])[|actions|]);
    AfterHolds(ListedBy(last), MoveBy(None, seen), l);
    SweepOn(MoveBy(None, seen), seen, l, ListedBy(last), more);
    AscendingIsOnce(seen + more, l);
  }

  // ---------- How many invocations a cycle takes ----------

  /** Runs to its end and returns `Ok`. */
  predicate ReturnsOk(db: Db, id: SourceId, a: Action) {
    a.Invoke? ==>
      && !PlanOf(id, CursorOf(db, id), a.pass).stop.Failed? && a.pass.rootsAfter
      && |PassOps(id, CursorOf(db, id), a.pass)| <= a.committed
  }

  predicate AllReturnOk(db: Db, id: SourceId, actions: seq<Action>) {
    actions == [] ||
    var n := |actions| - 1;
    AllReturnOk(db, id, actions[..n]) && ReturnsOk(ActAll(db, id, actions[..n]), id, actions[n])
  }

  predicate AllList(actions: seq<Action>, locations: seq<LogicalLocation>) {
    forall i :: 0 <= i < |actions| && actions[i].Invoke? ==> Distinct(actions[i]) && ListedBy(actions[i]) == locations
  }

  function Invocations(actions: seq<Action>): nat {
    if actions == [] then 0
    else Invocations(actions[..|actions| - 1]) + if actions[|actions| - 1].Invoke? then 1 else 0
  }

  /** What is left past a location of the rest is the rest past that location. */
  lemma {:induction false} AfterAfter(locations: seq<LogicalLocation>, start: Option<LogicalLocation>, i: nat)
    requires Ascending(locations) && i < |After(locations, start)|
    ensures After(locations, Some(After(locations, start)[i])) == After(locations, start)[i + 1..]
  {
    var n := |locations| - 1;
    var last, x := locations[n], After(locations, start)[i];
    var earlier := After(locations[..n], start);
    LastIsAhead(locations, start, x);
    if i < |earlier| {
      AfterAfter(locations[..n], start, i);
      AfterHolds(locations[..n], start, x);
      var j :| 0 <= j < n && locations[j] == x;
      assert Before(x, last);
    } else {
      NothingPast(locations[..n], last);
      LocationOrderIsTotal(last, last);
    }
  }

  lemma LastIsAhead(locations: seq<LogicalLocation>, start: Option<LogicalLocation>, x: LogicalLocation)
    requires Ascending(locations) && x in After(locations, start)
    ensures !Skipped(start, locations[|locations| - 1])
  {
    var last := locations[|locations| - 1];
    AfterHolds(locations, start, x);
    if start.Some? && x != last {
      var j :| 0 <= j < |locations| && locations[j] == x;
      assert Before(x, last);
      LocationOrderIsTotal(start.value, x);
      LocationOrderIsTransitive(start.value, x, last);
    }
  }

  lemma {:induction false} NothingPast(locations: seq<LogicalLocation>, x: LogicalLocation)
    requires forall i :: 0 <= i < |locations| ==> Before(locations[i], x)
    ensures After(locations, Some(x)) == []
  {
    if locations != [] {
      NothingPast(locations[..|locations| - 1], x);
      LocationOrderIsTotal(locations[|locations| - 1], x);
    }
  }

  /** A proper, non-empty first part leaves strictly less, and something. */
  lemma FirstPartProgresses(locations: seq<LogicalLocation>, cursor: Option<LogicalLocation>, trail: seq<LogicalLocation>)
    requires Ascending(locations) && IsPrefix(trail, After(locations, cursor))
    requires trail != [] && trail != After(locations, cursor)
    ensures 0 < |After(locations, MoveBy(cursor, trail))| < |After(locations, cursor)|
  {
    AfterAfter(locations, cursor, |trail| - 1);
  }

  lemma ClearingCompletes(id: SourceId, ops: seq<DbOp>, nowMs: Millis)
    ensures Completes(id, ops + [AdvanceScrub(id, None, nowMs)])
  {
    assert (ops + [AdvanceScrub(id, None, nowMs)])[|ops|].AdvanceScrub?;
  }

  /** An invocation that returns `Ok` without finishing the cycle ran out of budget, and commits all its transactions. */
  lemma UnfinishedOkIsExhausted(db: Db, id: SourceId, a: Action)
    requires a.Invoke? && ReturnsOk(db, id, a) && !Finishes(db, id, a)
    ensures var p := PlanOf(id, CursorOf(db, id), a.pass);
            p.stop.Exhausted? && Committed(db, id, a) == p.ops && !Completes(id, p.ops)
  {
    var ops := PassOps(id, CursorOf(db, id), a.pass);
    PassConsiders(id, CursorOf(db, id), a.pass);
    assert ops[..Min(a.committed, |ops|)] == ops;
    ClearingCompletes(id, PlanOf(id, CursorOf(db, id), a.pass).ops, a.pass.endMs);
  }

  /** So it leaves strictly less, and something. */
  lemma OkInvocationProgresses(db: Db, id: SourceId, a: Action, cursor: Option<LogicalLocation>, cycles: nat,
                               locations: seq<LogicalLocation>)
    requires CursorIs(db, id, cursor, cycles) && a.Invoke? && ReturnsOk(db, id, a) && !Finishes(db, id, a)
    requires Ascending(locations) && ListedBy(a) == locations
    ensures var next := MoveBy(cursor, Trail(id, Committed(db, id, a)));
            && CursorIs(Act(db, id, a), id, next, cycles)
            && 0 < |After(locations, next)| < |After(locations, cursor)|
  {
    UnfinishedOkIsExhausted(db, id, a);
    PassConsiders(id, cursor, a.pass);
    CursorFollowsTrail(db, id, Committed(db, id, a), cursor, cycles);
    FirstPartProgresses(locations, cursor, Trail(id, Committed(db, id, a)));
  }

  /**
   * While the same `n` locations are listed and invocations return `Ok`, fewer than `max(1, n)` of them in a row
   * leave the cycle unfinished, from wherever the cursor stands: the next one finishes it.
   */
  lemma {:induction false} CyclesFinishInTime(db: Db, id: SourceId, actions: seq<Action>, cursor: Option<LogicalLocation>,
                                              cycles: nat, locations: seq<LogicalLocation>)
    requires CursorIs(db, id, cursor, cycles) && Ascending(locations)
    requires NeverFinishes(db, id, actions) && AllReturnOk(db, id, actions) && AllList(actions, locations)
    ensures var left := After(locations, CursorOf(ActAll(db, id, actions), id));
            && id in ActAll(db, id, actions).tables.sources
            && ScrubProgress(ActAll(db, id, actions).tables, id).completedCycles == cycles
            && (0 < Invocations(actions) ==> 0 < |left|)
            && Invocations(actions) + |left| <= |After(locations, cursor)|
            && |After(locations, cursor)| <= |locations|
    decreases |actions|
  {
    if actions == [] {
      AfterIsNoLonger(locations, cursor);
    } else {
      var n := |actions| - 1;
      var mid, a := ActAll(db, id, actions[..n]), actions[n];
      CyclesFinishInTime(db, id, actions[..n], cursor, cycles, locations);
      if a.Invoke? {
        OkInvocationProgresses(mid, id, a, CursorOf(mid, id), cycles, locations);
      } else {
        UnfinishedActionConsiders(mid, id, a);
        CursorFollowsTrail(mid, id, Committed(mid, id, a), CursorOf(mid, id), cycles);
      }
    }
  }

  lemma {:induction false} AfterIsNoLonger(locations: seq<LogicalLocation>, start: Option<LogicalLocation>)
    ensures |After(locations, start)| <= |locations|
  {
    if locations != [] {
      AfterIsNoLonger(locations[..|locations| - 1], start);
    }
  }

  /** So `max(1, n)` invocations that return `Ok` over the same `n` locations always finish a cycle. */
  lemma FixedTreeFinishesInTime(db: Db, id: SourceId, actions: seq<Action>, cursor: Option<LogicalLocation>,
                                cycles: nat, locations: seq<LogicalLocation>)
    requires CursorIs(db, id, cursor, cycles) && Ascending(locations)
    requires AllReturnOk(db, id, actions) && AllList(actions, locations)
    requires Invocations(actions) >= 1 && Invocations(actions) >= |locations|
    ensures !NeverFinishes(db, id, actions)
  {
    if NeverFinishes(db, id, actions) {
      CyclesFinishInTime(db, id, actions, cursor, cycles, locations);
    }
  }
}
