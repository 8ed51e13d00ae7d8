/** How far the scrub's byte budget reaches: it is checked against shown lengths, and counts hashed ones. */
module ScrubBudget {
  import opened Wrappers
  import opened Domain
  import opened Sources
  import opened Files
  import opened Scrub

  // ---------- What was hashed ----------

  /** The lengths of the hashed files, in order. */
  function HashedLengths(ops: seq<DbOp>): seq<nat> {
    if ops == [] then []
    else
      var n := |ops| - 1;
      HashedLengths(ops[..n]) + if ops[n].ObserveScrubbed? then [ops[n].revision.byteLength] else []
  }

  function Total(lengths: seq<nat>): nat {
    if lengths == [] then 0 else Total(lengths[..|lengths| - 1]) + lengths[|lengths| - 1]
  }

  function FirstNonEmpty(lengths: seq<nat>): nat {
    if lengths == [] then 0
    else
      var n := |lengths| - 1;
      if Total(lengths[..n]) > 0 then FirstNonEmpty(lengths[..n]) else lengths[n]
  }

  function Max(a: int, b: int): int { if a < b then b else a }

  lemma LengthsSnoc(lengths: seq<nat>, n: nat)
    ensures Total(lengths + [n]) == Total(lengths) + n
    ensures FirstNonEmpty(lengths + [n]) == if Total(lengths) > 0 then FirstNonEmpty(lengths) else n
  {
    assert (lengths + [n])[..|lengths|] == lengths;
  }

  lemma VisitHashes(id: SourceId, location: LogicalLocation, verdict: Verdict, ops: seq<DbOp>)
    ensures HashedLengths(ops + VisitOps(id, location, verdict))
            == if verdict.Admit? then HashedLengths(ops) + [verdict.revision.byteLength] else HashedLengths(ops)
  {
    match verdict
    case Abort(_) => assert ops + [] == ops;
    case PassBy(_, nowMs) => HashedSnoc(ops, AdvanceTo(id, location, nowMs));
    case Admit(identity, revision, nowMs) =>
      var observed := ObserveScrubbed(id, identity, location, revision, nowMs);
      var advance := AdvanceTo(id, location, nowMs);
      HashedSnoc(ops, observed);
      HashedSnoc(ops + [observed], advance);
      assert ops + [observed, advance] == ops + [observed] + [advance];
  }

  lemma HashedSnoc(ops: seq<DbOp>, op: DbOp)
    ensures HashedLengths(ops + [op])
            == if op.ObserveScrubbed? then HashedLengths(ops) + [op.revision.byteLength] else HashedLengths(ops)
  {
    assert (ops + [op])[..|ops|] == ops;
  }

  // ---------- One budget ----------

  /** The plan goes on to this entry, whatever its budget says. */
  predicate Reaches(p: Plan, start: Option<LogicalLocation>, entry: ScrubEntry) {
    p.stop.Going? && !Skipped(start, entry.file.location)
  }

  /** How much longer the file was when hashed than its unchanged fingerprint shows, if bytes were counted before it. */
  function LateGrowthOf(p: Plan, start: Option<LogicalLocation>, entry: ScrubEntry, byteBudget: nat): int {
    var verdict := Counted(p, Judge(entry.file, entry.visit));
    if Reaches(p, start, entry) && !OverBudget(p, entry.file, byteBudget) && verdict.Admit? && p.bytesHashed > 0
    then verdict.revision.byteLength - entry.file.fingerprint.byteLength else 0
  }

  /** The most any file grew that the pass hashed after its first non-empty one. */
  function LateGrowth(id: SourceId, start: Option<LogicalLocation>, sorted: seq<ScrubEntry>, byteBudget: nat, n: nat): nat
    requires n <= |sorted|
  {
    if n == 0 then 0
    else
      Max(LateGrowth(id, start, sorted, byteBudget, n - 1),
          LateGrowthOf(PlanUpTo(id, start, sorted, byteBudget, n - 1), start, sorted[n - 1], byteBudget))
  }

  /** The bytes counted are those hashed, and stay within the budget or the first non-empty file, plus any growth. */
  predicate BytesBounded(p: Plan, byteBudget: nat, growth: nat) {
    var lengths := HashedLengths(p.ops);
    && |lengths| == p.filesHashed
    && Total(lengths) == p.bytesHashed
    && p.bytesHashed <= Max(FirstNonEmpty(lengths), byteBudget + growth)
  }

  lemma {:induction false} CountedBytesAreBounded(id: SourceId, start: Option<LogicalLocation>, sorted: seq<ScrubEntry>,
                                                  byteBudget: nat, n: nat)
    requires n <= |sorted|
    ensures BytesBounded(PlanUpTo(id, start, sorted, byteBudget, n), byteBudget,
                         LateGrowth(id, start, sorted, byteBudget, n))
    decreases n
  {
    if n > 0 {
      CountedBytesAreBounded(id, start, sorted, byteBudget, n - 1);
      OneVisitIsBounded(PlanUpTo(id, start, sorted, byteBudget, n - 1), id, start, sorted[n - 1], byteBudget,
                        LateGrowth(id, start, sorted, byteBudget, n - 1), LateGrowth(id, start, sorted, byteBudget, n));
    }
  }

  lemma OneVisitIsBounded(p: Plan, id: SourceId, start: Option<LogicalLocation>, entry: ScrubEntry, byteBudget: nat,
                          growth: nat, next: nat)
    requires BytesBounded(p, byteBudget, growth)
    requires growth <= next && LateGrowthOf(p, start, entry, byteBudget) <= next
    ensures BytesBounded(PlanOne(p, id, start, entry, byteBudget), byteBudget, next)
  {
    if Reaches(p, start, entry) && !OverBudget(p, entry.file, byteBudget) {
      var verdict := Counted(p, Judge(entry.file, entry.visit));
      VisitHashes(id, entry.file.location, verdict, p.ops);
      if verdict.Admit? {
        LengthsSnoc(HashedLengths(p.ops), verdict.revision.byteLength);
      }
    }
  }

  // ---------- Every budget ----------

  function VisitOne(p: Plan, id: SourceId, start: Option<LogicalLocation>, entry: ScrubEntry): Plan {
    if Reaches(p, start, entry) then PlanVisit(p, id, entry.file, entry.visit) else p
  }

  /** The plan of a pass that never runs out of budget. */
  function Unlimited(id: SourceId, start: Option<LogicalLocation>, sorted: seq<ScrubEntry>, n: nat): Plan
    requires n <= |sorted|
  {
    if n == 0 then NO_PLAN else VisitOne(Unlimited(id, start, sorted, n - 1), id, start, sorted[n - 1])
  }

  /** The least budget that lets the plan visit this entry. */
  function DemandOf(p: Plan, start: Option<LogicalLocation>, entry: ScrubEntry): nat {
    if Reaches(p, start, entry) && p.bytesHashed > 0 then p.bytesHashed + entry.file.fingerprint.byteLength else 0
  }

  function Demand(id: SourceId, start: Option<LogicalLocation>, sorted: seq<ScrubEntry>, n: nat): nat
    requires n <= |sorted|
  {
    if n == 0 then 0
    else Max(Demand(id, start, sorted, n - 1), DemandOf(Unlimited(id, start, sorted, n - 1), start, sorted[n - 1]))
  }

  lemma {:induction false} DemandIsEnough(id: SourceId, start: Option<LogicalLocation>, sorted: seq<ScrubEntry>,
                                          byteBudget: nat, n: nat)
    requires n <= |sorted| && Demand(id, start, sorted, n) <= byteBudget
    ensures PlanUpTo(id, start, sorted, byteBudget, n) == Unlimited(id, start, sorted, n)
    decreases n
  {
    if n > 0 {
      DemandIsEnough(id, start, sorted, byteBudget, n - 1);
    }
  }

  /** The budgeted plan `p` of `n` entries is the unlimited plan `u` of the first `m`. */
  predicate CutOffAt(p: Plan, u: Plan, m: nat, n: nat) {
    && p.ops == u.ops && p.bytesHashed == u.bytesHashed
    && (!p.stop.Exhausted? ==> m == n && p == u)
  }

  /** Within its budget a plan goes on as an unlimited one would; otherwise it stops for good. */
  lemma WithinOrExhausted(p: Plan, id: SourceId, start: Option<LogicalLocation>, entry: ScrubEntry, byteBudget: nat)
    ensures var q := PlanOne(p, id, start, entry, byteBudget);
            if !p.stop.Exhausted? && !(Reaches(p, start, entry) && OverBudget(p, entry.file, byteBudget))
            then q == VisitOne(p, id, start, entry) && DemandOf(p, start, entry) <= byteBudget
            else q.stop.Exhausted? && q.ops == p.ops && q.bytesHashed == p.bytesHashed
  {
  }

  /** A budgeted plan is an unlimited one cut off where its budget stops meeting the demand. */
  lemma {:induction false} BudgetCutsOff(id: SourceId, start: Option<LogicalLocation>, sorted: seq<ScrubEntry>,
                                         byteBudget: nat, n: nat)
    returns (m: nat)
    requires n <= |sorted|
    ensures m <= n && CutOffAt(PlanUpTo(id, start, sorted, byteBudget, n), Unlimited(id, start, sorted, m), m, n)
    ensures Demand(id, start, sorted, m) <= byteBudget
    decreases n
  {
    if n == 0 {
      return 0;
    }
    m := BudgetCutsOff(id, start, sorted, byteBudget, n - 1);
    var p, entry := PlanUpTo(id, start, sorted, byteBudget, n - 1), sorted[n - 1];
    WithinOrExhausted(p, id, start, entry, byteBudget);
    if !p.stop.Exhausted? && !(Reaches(p, start, entry) && OverBudget(p, entry.file, byteBudget)) {
      m := n;
    }
  }

  lemma VisitingCounts(p: Plan, id: SourceId, start: Option<LogicalLocation>, entry: ScrubEntry)
    requires Total(HashedLengths(p.ops)) == p.bytesHashed <= U64_MAX
    ensures var q := VisitOne(p, id, start, entry);
            && Total(HashedLengths(q.ops)) == q.bytesHashed <= U64_MAX
            && p.bytesHashed <= q.bytesHashed
            && (p.bytesHashed > 0 ==> FirstNonEmpty(HashedLengths(q.ops)) == FirstNonEmpty(HashedLengths(p.ops)))
            && (p.bytesHashed == 0 ==> q.bytesHashed <= FirstNonEmpty(HashedLengths(q.ops)))
  {
    if Reaches(p, start, entry) {
      var verdict := Counted(p, Judge(entry.file, entry.visit));
      VisitHashes(id, entry.file.location, verdict, p.ops);
      if verdict.Admit? {
        LengthsSnoc(HashedLengths(p.ops), verdict.revision.byteLength);
      }
    }
  }

  predicate Sums(p: Plan) {
    && Total(HashedLengths(p.ops)) == p.bytesHashed <= U64_MAX
    && FirstNonEmpty(HashedLengths(p.ops)) <= p.bytesHashed
  }

  lemma {:induction false} UnlimitedSums(id: SourceId, start: Option<LogicalLocation>, sorted: seq<ScrubEntry>, n: nat)
    requires n <= |sorted|
    ensures Sums(Unlimited(id, start, sorted, n))
    decreases n
  {
    if n > 0 {
      UnlimitedSums(id, start, sorted, n - 1);
      FirstIsCounted(Unlimited(id, start, sorted, n - 1), id, start, sorted[n - 1]);
    }
  }

  lemma FirstIsCounted(p: Plan, id: SourceId, start: Option<LogicalLocation>, entry: ScrubEntry)
    requires Sums(p)
    ensures Sums(VisitOne(p, id, start, entry))
  {
    VisitingCounts(p, id, start, entry);
    if Reaches(p, start, entry) {
      var verdict := Counted(p, Judge(entry.file, entry.visit));
      VisitHashes(id, entry.file.location, verdict, p.ops);
      if verdict.Admit? {
        LengthsSnoc(HashedLengths(p.ops), verdict.revision.byteLength);
      }
    }
  }

  predicate CountedFurther(p: Plan, q: Plan) {
    && p.bytesHashed <= q.bytesHashed
    && (p.bytesHashed > 0 ==> FirstNonEmpty(HashedLengths(q.ops)) == FirstNonEmpty(HashedLengths(p.ops)))
  }

  lemma OneCountsFurther(p: Plan, id: SourceId, start: Option<LogicalLocation>, entry: ScrubEntry, byteBudget: nat)
    requires Total(HashedLengths(p.ops)) == p.bytesHashed <= U64_MAX
    ensures CountedFurther(p, PlanOne(p, id, start, entry, byteBudget))
  {
    VisitingCounts(p, id, start, entry);
    assert PlanOne(p, id, start, entry, byteBudget) == VisitOne(p, id, start, entry)
           || (PlanOne(p, id, start, entry, byteBudget).ops == p.ops
               && PlanOne(p, id, start, entry, byteBudget).bytesHashed == p.bytesHashed);
  }

  /** What was counted stays counted, and the first non-empty file stays the first. */
  lemma {:induction false} CountsOnlyGrow(id: SourceId, start: Option<LogicalLocation>, sorted: seq<ScrubEntry>,
                                          byteBudget: nat, m: nat, n: nat)
    requires m <= n <= |sorted|
    ensures CountedFurther(PlanUpTo(id, start, sorted, byteBudget, m), PlanUpTo(id, start, sorted, byteBudget, n))
    decreases n
  {
    if m < n {
      CountsOnlyGrow(id, start, sorted, byteBudget, m, n - 1);
      var k := BudgetCutsOff(id, start, sorted, byteBudget, n - 1);
      UnlimitedSums(id, start, sorted, k);
      OneCountsFurther(PlanUpTo(id, start, sorted, byteBudget, n - 1), id, start, sorted[n - 1], byteBudget);
    }
  }

  /** Within the budget or the first non-empty hashed file. */
  predicate WithinBudget(p: Plan, byteBudget: nat) {
    p.bytesHashed <= Max(FirstNonEmpty(HashedLengths(p.ops)), byteBudget)
  }

  predicate WithinEveryBudget(id: SourceId, start: Option<LogicalLocation>, sorted: seq<ScrubEntry>) {
    forall byteBudget: nat :: byteBudget <= U64_MAX ==>
      WithinBudget(PlanUpTo(id, start, sorted, byteBudget, |sorted|), byteBudget)
  }

  /** At every point the bytes counted are within what it took to get there. */
  predicate WithinDemand(id: SourceId, start: Option<LogicalLocation>, sorted: seq<ScrubEntry>) {
    forall m :: 0 <= m <= |sorted| ==> WithinBudget(Unlimited(id, start, sorted, m), Demand(id, start, sorted, m))
  }

  /**
   * A pass over these files stays within every budget it may be given, or its first non-empty file, exactly when no
   * file takes the count past the largest budget that it or an earlier file demands.
   */
  lemma EveryBudgetHoldsIff(id: SourceId, start: Option<LogicalLocation>, sorted: seq<ScrubEntry>)
    ensures WithinEveryBudget(id, start, sorted) <==> WithinDemand(id, start, sorted)
  {
    if WithinEveryBudget(id, start, sorted) {
      forall m | 0 <= m <= |sorted|
        ensures WithinBudget(Unlimited(id, start, sorted, m), Demand(id, start, sorted, m))
      {
        UnlimitedSums(id, start, sorted, m);
        var demand := Demand(id, start, sorted, m);
        if demand <= U64_MAX {
          assert WithinBudget(PlanUpTo(id, start, sorted, demand, |sorted|), demand);
          DemandIsEnough(id, start, sorted, demand, m);
          CountsOnlyGrow(id, start, sorted, demand, m, |sorted|);
        }
      }
    }
    if WithinDemand(id, start, sorted) {
      forall byteBudget: nat | byteBudget <= U64_MAX
        ensures WithinBudget(PlanUpTo(id, start, sorted, byteBudget, |sorted|), byteBudget)
      {
        var m := BudgetCutsOff(id, start, sorted, byteBudget, |sorted|);
        assert WithinBudget(Unlimited(id, start, sorted, m), Demand(id, start, sorted, m));
      }
    }
  }

  // ---------- Files that do not shrink ----------

  /** Past the first non-empty hashed file, the next one is not hashed longer than it shows. */
  predicate GrowsNotLate(id: SourceId, start: Option<LogicalLocation>, sorted: seq<ScrubEntry>, k: nat)
    requires k < |sorted|
  {
    var p := Unlimited(id, start, sorted, k);
    Reaches(p, start, sorted[k]) && p.bytesHashed > 0 ==>
      Unlimited(id, start, sorted, k + 1).bytesHashed <= p.bytesHashed + sorted[k].file.fingerprint.byteLength
  }

  predicate NoneGrowsLate(id: SourceId, start: Option<LogicalLocation>, sorted: seq<ScrubEntry>) {
    forall k :: 0 <= k < |sorted| ==> GrowsNotLate(id, start, sorted, k)
  }

  /** A visited file that does not end the pass counts at least what it shows. */
  predicate ShrinksNot(id: SourceId, start: Option<LogicalLocation>, sorted: seq<ScrubEntry>, k: nat)
    requires k < |sorted|
  {
    var p, q := Unlimited(id, start, sorted, k), Unlimited(id, start, sorted, k + 1);
    Reaches(p, start, sorted[k]) && q.stop.Going? ==>
      p.bytesHashed + sorted[k].file.fingerprint.byteLength <= q.bytesHashed
  }

  predicate NoneShrinks(id: SourceId, start: Option<LogicalLocation>, sorted: seq<ScrubEntry>) {
    forall k :: 0 <= k < |sorted| ==> ShrinksNot(id, start, sorted, k)
  }

  lemma DemandCountsOn(p: Plan, q: Plan, id: SourceId, start: Option<LogicalLocation>, entry: ScrubEntry, demand: nat)
    requires q == VisitOne(p, id, start, entry) && Sums(p) && q.stop.Going?
    requires p.stop.Going? ==> demand <= p.bytesHashed
    requires Reaches(p, start, entry) ==> p.bytesHashed + entry.file.fingerprint.byteLength <= q.bytesHashed
    ensures Max(demand, DemandOf(p, start, entry)) <= q.bytesHashed
  {
    VisitingCounts(p, id, start, entry);
  }

  lemma {:induction false} DemandIsCounted(id: SourceId, start: Option<LogicalLocation>, sorted: seq<ScrubEntry>, n: nat)
    requires n <= |sorted| && NoneShrinks(id, start, sorted) && Unlimited(id, start, sorted, n).stop.Going?
    ensures Demand(id, start, sorted, n) <= Unlimited(id, start, sorted, n).bytesHashed
    decreases n
  {
    if n > 0 {
      var p := Unlimited(id, start, sorted, n - 1);
      if p.stop.Going? {
        DemandIsCounted(id, start, sorted, n - 1);
      }
      UnlimitedSums(id, start, sorted, n - 1);
      assert ShrinksNot(id, start, sorted, n - 1);
      DemandCountsOn(p, Unlimited(id, start, sorted, n), id, start, sorted[n - 1], Demand(id, start, sorted, n - 1));
    }
  }

  lemma NoGrowthStep(p: Plan, q: Plan, id: SourceId, start: Option<LogicalLocation>, entry: ScrubEntry, demand: nat)
    requires q == VisitOne(p, id, start, entry) && Sums(p) && WithinBudget(p, demand)
    requires Reaches(p, start, entry) && p.bytesHashed > 0 ==>
               q.bytesHashed <= p.bytesHashed + entry.file.fingerprint.byteLength
    ensures WithinBudget(q, Max(demand, DemandOf(p, start, entry)))
  {
    VisitingCounts(p, id, start, entry);
  }

  lemma {:induction false} NoGrowthIsWithinDemand(id: SourceId, start: Option<LogicalLocation>, sorted: seq<ScrubEntry>,
                                                  m: nat)
    requires m <= |sorted| && NoneGrowsLate(id, start, sorted)
    ensures WithinBudget(Unlimited(id, start, sorted, m), Demand(id, start, sorted, m))
    decreases m
  {
    if m > 0 {
      NoGrowthIsWithinDemand(id, start, sorted, m - 1);
      UnlimitedSums(id, start, sorted, m - 1);
      assert GrowsNotLate(id, start, sorted, m - 1);
      NoGrowthStep(Unlimited(id, start, sorted, m - 1), Unlimited(id, start, sorted, m), id, start, sorted[m - 1],
                   Demand(id, start, sorted, m - 1));
    }
  }

  lemma DemandBoundsGrowth(id: SourceId, start: Option<LogicalLocation>, sorted: seq<ScrubEntry>, k: nat)
    requires k < |sorted| && NoneShrinks(id, start, sorted) && WithinDemand(id, start, sorted)
    ensures GrowsNotLate(id, start, sorted, k)
  {
    var p := Unlimited(id, start, sorted, k);
    if Reaches(p, start, sorted[k]) && p.bytesHashed > 0 {
      DemandIsCounted(id, start, sorted, k);
      UnlimitedSums(id, start, sorted, k);
      VisitingCounts(p, id, start, sorted[k]);
      assert WithinBudget(Unlimited(id, start, sorted, k + 1), Demand(id, start, sorted, k + 1));
    }
  }

  /**
   * Without growth past the first non-empty hashed file every budget holds; and among files that do not shrink, only
   * then. Files behind the cursor, files after an error and the first non-empty file itself may grow as they like.
   */
  lemma EveryBudgetHoldsIffNoneGrowsLate(id: SourceId, start: Option<LogicalLocation>, sorted: seq<ScrubEntry>)
    ensures NoneGrowsLate(id, start, sorted) ==> WithinEveryBudget(id, start, sorted)
    ensures NoneShrinks(id, start, sorted) ==> (WithinEveryBudget(id, start, sorted) <==> NoneGrowsLate(id, start, sorted))
  {
    EveryBudgetHoldsIff(id, start, sorted);
    if NoneGrowsLate(id, start, sorted) {
      forall m | 0 <= m <= |sorted|
        ensures WithinBudget(Unlimited(id, start, sorted, m), Demand(id, start, sorted, m))
      {
        NoGrowthIsWithinDemand(id, start, sorted, m);
      }
    }
    if NoneShrinks(id, start, sorted) && WithinDemand(id, start, sorted) {
      forall k | 0 <= k < |sorted| ensures GrowsNotLate(id, start, sorted, k) {
        DemandBoundsGrowth(id, start, sorted, k);
      }
    }
  }

  /** A file of this shown and hashed length, unchanged from its enumeration to the end of its hash. */
  function SteadyEntry(identity: RecordIdentity, path: string, shown: nat, hashed: nat): ScrubEntry {
    var l, f := LogicalLocation("r", path), SourceFingerprint(shown, 0, 0, None, None);
    ScrubEntry(FileCandidate(l, f),
               Opened(f, Parsed(ParsedRecord(identity, l)), Hashed(CanonicalRevision(hashed, []), f), 0))
  }

  lemma PlanStep(id: SourceId, start: Option<LogicalLocation>, sorted: seq<ScrubEntry>, byteBudget: nat, n: nat)
    requires n < |sorted|
    ensures PlanUpTo(id, start, sorted, byteBudget, n + 1)
            == PlanOne(PlanUpTo(id, start, sorted, byteBudget, n), id, start, sorted[n], byteBudget)
    ensures n == 0 ==> PlanUpTo(id, start, sorted, byteBudget, n) == NO_PLAN
  {
  }

  /** A steady file within the budget is visited, hashed in full and counted. */
  lemma SteadyVisit(p: Plan, id: SourceId, entry: ScrubEntry, identity: RecordIdentity, path: string, shown: nat,
                    hashed: nat, byteBudget: nat)
    requires entry == SteadyEntry(identity, path, shown, hashed) && p.stop.Going?
    requires (p.bytesHashed == 0 || p.bytesHashed + shown <= byteBudget) && p.bytesHashed + hashed <= U64_MAX
    ensures var q := PlanOne(p, id, None, entry, byteBudget);
            && q.stop.Going? && q.bytesHashed == p.bytesHashed + hashed
            && HashedLengths(q.ops) == HashedLengths(p.ops) + [hashed]
  {
    assert Judge(entry.file, entry.visit).Admit?;
    VisitHashes(id, entry.file.location, Judge(entry.file, entry.visit), p.ops);
  }

  lemma TwoSteps(id: SourceId, first: ScrubEntry, second: ScrubEntry, byteBudget: nat)
    ensures PlanUpTo(id, None, [first, second], byteBudget, 2)
            == PlanOne(PlanOne(NO_PLAN, id, None, first, byteBudget), id, None, second, byteBudget)
  {
    PlanStep(id, None, [first, second], byteBudget, 0);
    PlanStep(id, None, [first, second], byteBudget, 1);
  }

  /** Two steady files whose shown lengths fit the budget: both are counted, at their hashed lengths. */
  lemma TwoSteadyVisits(p: Plan, id: SourceId, identity: RecordIdentity, first: ScrubEntry, second: ScrubEntry,
                        length: nat, shown: nat, hashed: nat, byteBudget: nat)
    requires first == SteadyEntry(identity, "a", length, length) && second == SteadyEntry(identity, "b", shown, hashed)
    requires 0 < length && length + shown <= byteBudget && length + hashed <= U64_MAX
    requires p == NO_PLAN
    ensures var q := PlanOne(PlanOne(p, id, None, first, byteBudget), id, None, second, byteBudget);
            FirstNonEmpty(HashedLengths(q.ops)) == length && q.bytesHashed == length + hashed
  {
    SteadyVisit(p, id, first, identity, "a", length, length, byteBudget);
    SteadyVisit(PlanOne(p, id, None, first, byteBudget), id, second, identity, "b", shown, hashed, byteBudget);
    LengthsSnoc([], length);
    LengthsSnoc([length], hashed);
    assert [] + [length] == [length];
  }

  /**
   * The growth matters: the budget is checked against the fingerprint's length, and the hashed length is counted.
   * Two files of one byte fit a budget of two, but the second is nine bytes long by the time it is hashed.
   */
  lemma GrowthEscapesTheBudget(id: SourceId, identity: RecordIdentity)
    ensures var sorted := [SteadyEntry(identity, "a", 1, 1), SteadyEntry(identity, "b", 1, 9)];
            var p := PlanUpTo(id, None, sorted, 2, 2);
            && Ascending(Locations(sorted))
            && FirstNonEmpty(HashedLengths(p.ops)) == 1
            && p.bytesHashed == 10
  {
    var first, second := SteadyEntry(identity, "a", 1, 1), SteadyEntry(identity, "b", 1, 9);
    TwoAreAscending(first, second);
    TwoSteps(id, first, second, 2);
    TwoSteadyVisits(NO_PLAN, id, identity, first, second, 1, 1, 9, 2);
  }

  lemma TwoAreAscending(first: ScrubEntry, second: ScrubEntry)
    requires Before(first.file.location, second.file.location)
    ensures Ascending(Locations([first, second]))
  {
  }
}
