/** What the scrub is for: a whole cycle over an unchanging tree leaves every file the source owns active as read. */
module ScrubMends {
  import opened Wrappers
  import opened Domain
  import opened Backoff
  import opened Tables
  import opened Ledger
  import opened Sources
  import opened Files
  import opened Scan
  import opened Scrub
  import opened ScrubLaws
  import opened Honesty
  import opened Converge
  import opened Visits
  import opened Convergence
  import opened Stranding

  // ---------- What an invocation over the tree commits ----------

  /** The visit may fail, but what it reads is what the fingerprint stands for. */
  predicate QuietVisit(world: World, e: ScrubEntry) {
    e.visit.Opened? ==>
      && e.visit.before == e.file.fingerprint
      && (e.visit.parse.ParseFailed? || e.visit.parse == ParseOf(world, e.file))
      && (IsRecord(world, e.file) ==>
            e.visit.hash.HashFailed?
            || e.visit.hash == Hashed(world.holds(e.file.location, e.file.fingerprint).value.1, e.file.fingerprint))
  }

  predicate QuietVisits(world: World, tree: set<FileCandidate>, entries: seq<ScrubEntry>) {
    forall i :: 0 <= i < |entries| ==> entries[i].file in tree && QuietVisit(world, entries[i])
  }

  predicate QuietPass(world: World, tree: set<FileCandidate>, pass: ScrubPass) {
    pass.listing.Some? ==> QuietVisits(world, tree, pass.listing.value)
  }

  predicate OneFileEach(tree: set<FileCandidate>) {
    forall f, g :: f in tree && g in tree && f.location == g.location ==> f == g
  }

  /** The cursor only moves to a record of the tree right after a visit that read it. */
  predicate VisitedFirst(world: World, tree: set<FileCandidate>, ops: seq<DbOp>, i: nat)
    requires i < |ops|
  {
    ops[i].AdvanceScrub? && ops[i].nextAfter.Some? ==>
      forall f :: f in tree && IsRecord(world, f) && f.location == ops[i].nextAfter.value ==>
        i > 0 && VisitOf(world, ops[i - 1], f)
  }

  predicate Orderly(id: SourceId, world: World, tree: set<FileCandidate>, ops: seq<DbOp>) {
    forall i :: 0 <= i < |ops| ==>
      ScrubWork(ops[i], id) && VisitsTree(world, tree, ops[i]) && VisitedFirst(world, tree, ops, i)
  }

  lemma OrderlyConcat(id: SourceId, world: World, tree: set<FileCandidate>, a: seq<DbOp>, b: seq<DbOp>)
    requires Orderly(id, world, tree, a) && Orderly(id, world, tree, b)
    ensures Orderly(id, world, tree, a + b)
  {
    forall i | 0 <= i < |a + b|
      ensures ScrubWork((a + b)[i], id) && VisitsTree(world, tree, (a + b)[i]) && VisitedFirst(world, tree, a + b, i)
    {
      if i < |a| {
        assert VisitedFirst(world, tree, a, i);
      } else {
        assert VisitedFirst(world, tree, b, i - |a|);
      }
    }
  }

  lemma OrderlyPrefix(id: SourceId, world: World, tree: set<FileCandidate>, ops: seq<DbOp>, m: nat)
    requires Orderly(id, world, tree, ops) && m <= |ops|
    ensures Orderly(id, world, tree, ops[..m])
  {
    forall i | 0 <= i < m
      ensures ScrubWork(ops[..m][i], id) && VisitsTree(world, tree, ops[..m][i])
              && VisitedFirst(world, tree, ops[..m], i)
    {
      assert VisitedFirst(world, tree, ops, i);
    }
  }

  /** One visit to a file of the tree. */
  lemma VisitIsOrderly(id: SourceId, world: World, tree: set<FileCandidate>, e: ScrubEntry, p: Plan)
    requires OneFileEach(tree) && e.file in tree && QuietVisit(world, e)
    ensures Orderly(id, world, tree, VisitOps(id, e.file.location, Counted(p, Judge(e.file, e.visit))))
  {
    var verdict := Counted(p, Judge(e.file, e.visit));
    var ops := VisitOps(id, e.file.location, verdict);
    if verdict.Admit? {
      assert VisitOf(world, ops[0], e.file);
    }
  }

  lemma {:induction false} PlanIsOrderly(id: SourceId, world: World, tree: set<FileCandidate>,
                                         start: Option<LogicalLocation>, sorted: seq<ScrubEntry>, byteBudget: nat, n: nat)
    requires OneFileEach(tree) && n <= |sorted| && QuietVisits(world, tree, sorted)
    ensures Orderly(id, world, tree, PlanUpTo(id, start, sorted, byteBudget, n).ops)
    decreases n
  {
    if n > 0 {
      var p, e := PlanUpTo(id, start, sorted, byteBudget, n - 1), sorted[n - 1];
      PlanIsOrderly(id, world, tree, start, sorted, byteBudget, n - 1);
      VisitIsOrderly(id, world, tree, e, p);
      OrderlyConcat(id, world, tree, p.ops, VisitOps(id, e.file.location, Counted(p, Judge(e.file, e.visit))));
    }
  }

  lemma SortedVisits(world: World, tree: set<FileCandidate>, entries: seq<ScrubEntry>)
    requires QuietVisits(world, tree, entries)
    ensures QuietVisits(world, tree, Sorted(entries))
  {
    var sorted := Sorted(entries);
    forall i | 0 <= i < |sorted| ensures sorted[i].file in tree && QuietVisit(world, sorted[i]) {
      MemberOf(sorted, entries, sorted[i]);
    }
  }

  lemma PassIsOrderly(id: SourceId, world: World, tree: set<FileCandidate>, start: Option<LogicalLocation>, pass: ScrubPass)
    requires OneFileEach(tree) && QuietPass(world, tree, pass)
    ensures Orderly(id, world, tree, PassOps(id, start, pass))
  {
    if pass.rootsBefore && pass.listing.Some? {
      var sorted := Sorted(pass.listing.value);
      SortedVisits(world, tree, pass.listing.value);
      PlanIsOrderly(id, world, tree, start, sorted, pass.byteBudget, |sorted|);
    }
    OrderlyConcat(id, world, tree, PlanOf(id, start, pass).ops, [AdvanceScrub(id, None, pass.endMs)]);
  }

  /** However far an invocation over the tree gets, what it commits is orderly. */
  lemma InvocationIsOrderly(db: Db, id: SourceId, world: World, tree: set<FileCandidate>, pass: ScrubPass, committed: nat)
    requires OneFileEach(tree) && QuietPass(world, tree, pass)
    ensures Orderly(id, world, tree, Committed(db, id, Invoke(pass, committed)))
  {
    var ops := PassOps(id, CursorOf(db, id), pass);
    PassIsOrderly(id, world, tree, CursorOf(db, id), pass);
    OrderlyPrefix(id, world, tree, ops, Min(committed, |ops|));
  }

  // ---------- An invocation is so many quiet steps ----------

  function StepsOf(ops: seq<DbOp>): seq<Past> { seq(|ops|, i requires 0 <= i < |ops| => Scrubbed(ops[i])) }

  lemma LastOfSteps(ops: seq<DbOp>)
    requires ops != []
    ensures var n := |ops| - 1;
            StepsOf(ops)[..n] == StepsOf(ops[..n]) && StepsOf(ops)[n] == Scrubbed(ops[n]) && |StepsOf(ops)| == |ops|
  {
  }

  lemma LastOfRun(db: Db, ops: seq<DbOp>)
    requires ops != []
    ensures RunDb(db, ops) == ApplyDb(RunDb(db, ops[..|ops| - 1]), ops[|ops| - 1])
  {
    assert ops == ops[..|ops| - 1] + [ops[|ops| - 1]];
    RunDbSnoc(db, ops[..|ops| - 1], ops[|ops| - 1]);
  }

  lemma HappenedLast(db: Db, config: SourceConfig, steps: seq<Past>)
    requires steps != []
    ensures Happened(db, config, steps) == Happen(Happened(db, config, steps[..|steps| - 1]), config, steps[|steps| - 1])
  {
  }

  lemma {:induction false} StepsRun(db: Db, config: SourceConfig, ops: seq<DbOp>)
    requires forall i :: 0 <= i < |ops| ==> ScrubWork(ops[i], config.registration.sourceId)
    ensures Happened(db, config, StepsOf(ops)) == RunDb(db, ops)
    decreases |ops|
  {
    if ops != [] {
      StepsRun(db, config, ops[..|ops| - 1]);
      LastOfRun(db, ops);
      LastOfSteps(ops);
      HappenedLast(db, config, StepsOf(ops));
    }
  }

  /** So a scrub of the tree, crashed or not, is among the steps between which sweeps of it converge. */
  lemma InvocationsAreQuietSteps(db: Db, config: SourceConfig, world: World, tree: set<FileCandidate>, pass: ScrubPass,
                                 committed: nat)
    requires OneFileEach(tree) && QuietPass(world, tree, pass)
    ensures var id := config.registration.sourceId;
            var steps := StepsOf(Committed(db, id, Invoke(pass, committed)));
            && EachQuiet(config, world, tree, steps)
            && Happened(db, config, steps) == Act(db, id, Invoke(pass, committed))
  {
    var id := config.registration.sourceId;
    InvocationIsOrderly(db, id, world, tree, pass, committed);
    StepsRun(db, config, Committed(db, id, Invoke(pass, committed)));
  }

  // ---------- What leaves an active file active ----------

  /** A store transaction of the sweeps of this tree, or work on the queue. */
  predicate CalmStoreOp(world: World, tree: set<FileCandidate>, op: Op) {
    || QueueWork(op)
    || (op.Observe? && exists f :: f in tree && IsRecord(world, f) && op.location == f.location
                                   && world.holds(f.location, f.fingerprint) == Some((op.identity, op.revision)))
  }

  /** Any transaction of a sweep or a scrub of this tree, except a completion that may tombstone. */
  predicate Calm(world: World, tree: set<FileCandidate>, op: DbOp) {
    match op
    case OnStore(storeOp) => CalmStoreOp(world, tree, storeOp)
    case CompleteScan(_, grace, _) => grace.None?
    case ObserveScrubbed(_, _, _, _, _) => VisitsTree(world, tree, op)
    case _ => true
  }

  /** The record is owned, or active as read, if it was. */
  predicate Keeps(db: Db, t: Db, id: SourceId, world: World, f: FileCandidate) {
    && IsRecord(world, f) && LedgerInv(t.store)
    && (ScrubOwns(db, id, IdentityOf(world, f)) ==> ScrubOwns(t, id, IdentityOf(world, f)))
    && (ActiveAsRead(db.store, world, f) ==> ActiveAsRead(t.store, world, f))
  }

  /** An observation of a file of the tree. */
  lemma ObservationKeeps(db: Db, id: SourceId, world: World, tree: set<FileCandidate>, f: FileCandidate, a: Admission)
    requires LedgerInv(db.store) && Unrivalled(world, tree, f)
    requires exists g :: g in tree && IsRecord(world, g) && a.record.location == g.location
                         && world.holds(g.location, g.fingerprint) == Some((a.record.identity, a.revision))
    ensures Keeps(db, db.(store := ObservePresent(db.store, a.record.identity, a.record.location, a.revision, a.commitMs)),
                  id, world, f)
  {
    ObservationTakesEffect(db.store, a.record.identity, a.record.location, a.revision, a.commitMs);
    if a.record.identity == IdentityOf(world, f) {
      ObservationSettles(db.store, world, f.location, f.fingerprint, a.commitMs);
    } else {
      ObservationLeavesOthers(db.store, a.record.identity, a.record.location, a.revision, a.commitMs,
                              IdentityOf(world, f));
    }
  }

  lemma WorkKeeps(db: Db, id: SourceId, world: World, f: FileCandidate, op: Op)
    requires LedgerInv(db.store) && IsRecord(world, f) && QueueWork(op)
    ensures Keeps(db, db.(store := Apply(db.store, op)), id, world, f)
  {
    ApplyKeepsLedger(db.store, op);
    QueueWorkKeepsRecords(db.store, op);
  }

  /** The tables of the source change, the store does not, and an owner stays the owner. */
  lemma TablesKeep(db: Db, id: SourceId, world: World, f: FileCandidate, op: DbOp)
    requires LedgerInv(db.store) && IsRecord(world, f)
    requires !op.OnStore? && !op.ObserveScrubbed? && (op.CompleteScan? ==> op.grace.None?)
    ensures Keeps(db, ApplyDb(db, op), id, world, f)
  {
  }

  lemma CalmOpKeeps(db: Db, id: SourceId, world: World, tree: set<FileCandidate>, f: FileCandidate, op: DbOp)
    requires LedgerInv(db.store) && Unrivalled(world, tree, f) && Calm(world, tree, op)
    ensures Keeps(db, ApplyDb(db, op), id, world, f)
  {
    match op
    case OnStore(storeOp) =>
      if QueueWork(storeOp) {
        WorkKeeps(db, id, world, f, storeOp);
      } else {
        ObservationKeeps(db, id, world, tree, f,
                         Admission(ParsedRecord(storeOp.identity, storeOp.location), storeOp.revision, storeOp.nowMs));
      }
    case ObserveScrubbed(_, identity, location, revision, nowMs) =>
      var g :| g in tree && VisitOf(world, op, g);
      ObservationKeeps(db, id, world, tree, f, Admission(ParsedRecord(identity, location), revision, nowMs));
    case _ => TablesKeep(db, id, world, f, op);
  }

  predicate AllCalm(world: World, tree: set<FileCandidate>, ops: seq<DbOp>) {
    forall i :: 0 <= i < |ops| ==> Calm(world, tree, ops[i])
  }

  /** Some of these transactions visits the file. */
  predicate VisitsFile(id: SourceId, world: World, ops: seq<DbOp>, f: FileCandidate) {
    exists i :: 0 <= i < |ops| && VisitOf(world, ops[i], f) && ops[i].sourceId == id
  }

  lemma KeepsOn(a: Db, b: Db, c: Db, id: SourceId, world: World, f: FileCandidate)
    requires Keeps(a, b, id, world, f) && Keeps(b, c, id, world, f)
    ensures Keeps(a, c, id, world, f)
  {
  }

  lemma LastVisit(id: SourceId, world: World, ops: seq<DbOp>, f: FileCandidate)
    requires ops != [] && VisitsFile(id, world, ops, f)
    ensures var n := |ops| - 1;
            VisitsFile(id, world, ops[..n], f) || (VisitOf(world, ops[n], f) && ops[n].sourceId == id)
  {
    var i :| 0 <= i < |ops| && VisitOf(world, ops[i], f) && ops[i].sourceId == id;
    if i < |ops| - 1 {
      assert ops[..|ops| - 1][i] == ops[i];
    }
  }

  /** Calm transactions keep the file as it is, and mend it if they visit it while its record is owned. */
  lemma {:induction false} CalmRunMends(db: Db, id: SourceId, world: World, tree: set<FileCandidate>, f: FileCandidate,
                                        ops: seq<DbOp>)
    requires LedgerInv(db.store) && Unrivalled(world, tree, f) && AllCalm(world, tree, ops)
    ensures Keeps(db, RunDb(db, ops), id, world, f)
    ensures VisitsFile(id, world, ops, f) && ScrubOwns(db, id, IdentityOf(world, f)) ==>
              ActiveAsRead(RunDb(db, ops).store, world, f)
    decreases |ops|
  {
    if ops != [] {
      var n := |ops| - 1;
      var mid := RunDb(db, ops[..n]);
      CalmRunMends(db, id, world, tree, f, ops[..n]);
      assert ops == ops[..n] + [ops[n]];
      RunDbSnoc(db, ops[..n], ops[n]);
      CalmOpKeeps(mid, id, world, tree, f, ops[n]);
      KeepsOn(db, mid, RunDb(db, ops), id, world, f);
      if VisitsFile(id, world, ops, f) && ScrubOwns(db, id, IdentityOf(world, f)) {
        LastVisit(id, world, ops, f);
        if !VisitsFile(id, world, ops[..n], f) {
          VisitMends(mid, world, ops[n], f);
        }
      }
    }
  }

  // ---------- Whole cycles ----------

  /** An invocation over the tree, crashed or not, or a calm transaction of another kind. */
  predicate QuietAction(world: World, tree: set<FileCandidate>, a: Action) {
    match a
    case Invoke(pass, _) => QuietPass(world, tree, pass)
    case Elsewhere(op) => Calm(world, tree, op)
  }

  lemma QuietActionsAreCalm(db: Db, id: SourceId, world: World, tree: set<FileCandidate>, a: Action)
    requires OneFileEach(tree) && QuietAction(world, tree, a)
    ensures AllCalm(world, tree, Committed(db, id, a))
  {
    if a.Invoke? {
      InvocationIsOrderly(db, id, world, tree, a.pass, a.committed);
    }
  }

  /** What the cursor moved to was visited. */
  lemma {:induction false} TrailWasVisited(id: SourceId, world: World, tree: set<FileCandidate>, ops: seq<DbOp>,
                                           f: FileCandidate)
    requires Orderly(id, world, tree, ops) && f in tree && IsRecord(world, f) && f.location in Trail(id, ops)
    ensures VisitsFile(id, world, ops, f)
    decreases |ops|
  {
    var n := |ops| - 1;
    if f.location in Trail(id, ops[..n]) {
      OrderlyPrefix(id, world, tree, ops, n);
      TrailWasVisited(id, world, tree, ops[..n], f);
      var i :| 0 <= i < n && VisitOf(world, ops[..n][i], f) && ops[..n][i].sourceId == id;
      assert ops[i] == ops[..n][i];
    } else {
      assert VisitedFirst(world, tree, ops, n);
      assert VisitOf(world, ops[n - 1], f) && ScrubWork(ops[n - 1], id);
    }
  }

  /** Action `i` moved the cursor to this location. */
  predicate ConsideredIn(db: Db, id: SourceId, actions: seq<Action>, i: nat, l: LogicalLocation) {
    i < |actions| && l in Trail(id, Committed(ActAll(db, id, actions[..i]), id, actions[i]))
  }

  lemma ConsideredInMore(db: Db, id: SourceId, actions: seq<Action>, n: nat, i: nat, l: LogicalLocation)
    requires n <= |actions| && ConsideredIn(db, id, actions[..n], i, l)
    ensures ConsideredIn(db, id, actions, i, l)
  {
    assert actions[..n][..i] == actions[..i] && actions[..n][i] == actions[i];
  }

  lemma {:induction false} ConsideredAt(db: Db, id: SourceId, actions: seq<Action>, l: LogicalLocation) returns (i: nat)
    requires l in Considered(db, id, actions)
    ensures ConsideredIn(db, id, actions, i, l)
    decreases |actions|
  {
    var n := |actions| - 1;
    if l in Considered(db, id, actions[..n]) {
      i := ConsideredAt(db, id, actions[..n], l);
      ConsideredInMore(db, id, actions, n, i, l);
    } else {
      i := n;
    }
  }

  predicate AllQuiet(world: World, tree: set<FileCandidate>, actions: seq<Action>) {
    forall i :: 0 <= i < |actions| ==> QuietAction(world, tree, actions[i])
  }

  lemma ActionKeeps(db: Db, id: SourceId, world: World, tree: set<FileCandidate>, f: FileCandidate, a: Action)
    requires LedgerInv(db.store) && OneFileEach(tree) && Unrivalled(world, tree, f) && QuietAction(world, tree, a)
    ensures Keeps(db, Act(db, id, a), id, world, f)
  {
    QuietActionsAreCalm(db, id, world, tree, a);
    CalmRunMends(db, id, world, tree, f, Committed(db, id, a));
  }

  /** From the first `m` actions to the first `n`. */
  lemma ActionsKeep(db: Db, id: SourceId, world: World, tree: set<FileCandidate>, f: FileCandidate, actions: seq<Action>,
                    m: nat, n: nat)
    requires LedgerInv(db.store) && OneFileEach(tree) && Unrivalled(world, tree, f) && AllQuiet(world, tree, actions)
    requires m <= n <= |actions| && LedgerInv(ActAll(db, id, actions[..m]).store)
    ensures Keeps(ActAll(db, id, actions[..m]), ActAll(db, id, actions[..n]), id, world, f)
  {
    for k := m to n
      invariant Keeps(ActAll(db, id, actions[..m]), ActAll(db, id, actions[..k]), id, world, f)
    {
      ActionKeeps(ActAll(db, id, actions[..k]), id, world, tree, f, actions[k]);
      assert actions[..k + 1][..k] == actions[..k];
      KeepsOn(ActAll(db, id, actions[..m]), ActAll(db, id, actions[..k]), ActAll(db, id, actions[..k + 1]), id, world, f);
    }
  }

  lemma ElsewhereVisitsNothing(db: Db, id: SourceId, op: DbOp)
    ensures Trail(id, Committed(db, id, Elsewhere(op))) == []
  {
    TrailSnoc(id, [], op);
    assert [] + [op] == [op];
  }

  lemma VisitedIsMended(db: Db, id: SourceId, world: World, tree: set<FileCandidate>, f: FileCandidate, a: Action)
    requires LedgerInv(db.store) && OneFileEach(tree) && f in tree && Unrivalled(world, tree, f)
    requires QuietAction(world, tree, a) && f.location in Trail(id, Committed(db, id, a))
    requires ScrubOwns(db, id, IdentityOf(world, f))
    ensures ActiveAsRead(Act(db, id, a).store, world, f)
  {
    if a.Elsewhere? {
      ElsewhereVisitsNothing(db, id, a.op);
    } else {
      InvocationIsOrderly(db, id, world, tree, a.pass, a.committed);
      TrailWasVisited(id, world, tree, Committed(db, id, a), f);
      QuietActionsAreCalm(db, id, world, tree, a);
      CalmRunMends(db, id, world, tree, f, Committed(db, id, a));
    }
  }

  lemma MendedByTheEnd(db: Db, id: SourceId, world: World, tree: set<FileCandidate>, actions: seq<Action>,
                       f: FileCandidate, i: nat)
    requires LedgerInv(db.store) && AllQuiet(world, tree, actions)
    requires OneFileEach(tree) && f in tree && Unrivalled(world, tree, f)
    requires ConsideredIn(db, id, actions, i, f.location)
    ensures ScrubOwns(ActAll(db, id, actions[..i]), id, IdentityOf(world, f)) ==>
              ActiveAsRead(ActAll(db, id, actions).store, world, f)
    ensures ScrubOwns(db, id, IdentityOf(world, f)) ==> ActiveAsRead(ActAll(db, id, actions).store, world, f)
  {
    var mid := ActAll(db, id, actions[..i]);
    assert actions[..0] == [] && actions[..|actions|] == actions && actions[..i + 1][..i] == actions[..i];
    ActionsKeep(db, id, world, tree, f, actions, 0, i);
    if ScrubOwns(mid, id, IdentityOf(world, f)) {
      VisitedIsMended(mid, id, world, tree, f, actions[i]);
      ActionKeeps(mid, id, world, tree, f, actions[i]);
      ActionsKeep(db, id, world, tree, f, actions, i + 1, |actions|);
    }
  }

  /** From no cursor to the invocation that clears it again. */
  predicate WholeCycle(db: Db, id: SourceId, actions: seq<Action>, last: Action, cycles: nat) {
    && CursorIs(db, id, None, cycles)
    && NeverFinishes(db, id, actions) && Finishes(ActAll(db, id, actions), id, last)
  }

  /**
   * A whole cycle over an unchanging tree, with invocations budgeted, failed and crashed as they may be, and with
   * sweeps and deliveries interleaved, visits every file of it that the listings show; and each whose record the source
   * owns at that visit, be it stranded or over the limits of the sweeps, is active as read at the end.
   */
  lemma ScrubMendsWhatItOwns(db: Db, id: SourceId, world: World, tree: set<FileCandidate>, actions: seq<Action>,
                             last: Action, cycles: nat, f: FileCandidate)
    returns (i: nat)
    requires LedgerInv(db.store) && WholeCycle(db, id, actions, last, cycles)
    requires ShowsAll(actions + [last], f.location) && f.location in ListedBy(last)
    requires OneFileEach(tree) && AllQuiet(world, tree, actions + [last]) && f in tree && Unrivalled(world, tree, f)
    ensures ConsideredIn(db, id, actions + [last], i, f.location)
    ensures var mid, t := ActAll(db, id, (actions + [last])[..i]), ActAll(db, id, actions + [last]);
            && (ScrubOwns(mid, id, IdentityOf(world, f)) ==> ActiveAsRead(t.store, world, f))
            && (ScrubOwns(db, id, IdentityOf(world, f)) ==> ActiveAsRead(t.store, world, f))
  {
    ScrubCoversEverything(db, id, actions, last, cycles, f.location);
    assert f.location in Considered(db, id, actions + [last]);
    i := ConsideredAt(db, id, actions + [last], f.location);
    MendedByTheEnd(db, id, world, tree, actions + [last], f, i);
  }
}
