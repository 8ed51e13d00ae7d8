/** What an invocation of the scrub commits, counts and refuses, entry by entry. */
module ScrubEffects {
  import opened Wrappers
  import opened Domain
  import opened Sources
  import opened Files
  import opened Scrub

  // ---------- One entry ----------

  /** Not behind the cursor the invocation started from. */
  predicate Ahead(start: Option<LogicalLocation>, e: ScrubEntry) {
    start.Some? ==> Before(start.value, e.file.location)
  }

  /** Opened as listed, and a record of this very place. */
  predicate InPlace(e: ScrubEntry) {
    && e.visit.Opened? && e.visit.before == e.file.fingerprint
    && e.visit.parse.Parsed? && e.visit.parse.record.location == e.file.location
  }

  /** Hashed from end to end without changing. */
  predicate ReadWell(e: ScrubEntry) {
    InPlace(e) && e.visit.hash.Hashed? && e.visit.hash.after == e.file.fingerprint
  }

  /** Changed since it was listed, or while it was hashed. */
  predicate ChangedUnderway(e: ScrubEntry) {
    && e.visit.Opened?
    && (e.visit.before != e.file.fingerprint
        || (InPlace(e) && e.visit.hash.Hashed? && e.visit.hash.after != e.file.fingerprint))
  }

  /** Why the entry stops the invocation, if it does. */
  function Trouble(e: ScrubEntry): Option<SourceError> {
    if e.visit.Unopenable? then Some(ReadFailed)
    else if e.visit.before == e.file.fingerprint && e.visit.parse.ParseFailed? then Some(ReadFailed)
    else if InPlace(e) && e.visit.hash.HashFailed? then Some(ReadFailed)
    else if e.visit.before == e.file.fingerprint && e.visit.parse.Parsed? && !InPlace(e) then Some(InvalidProviderRecord)
    else None
  }

  /** A file read well is observed as read, and then the cursor moves; past any other it only moves. */
  function OpsFor(id: SourceId, e: ScrubEntry): seq<DbOp>
    requires e.visit.Opened?
  {
    var move := AdvanceScrub(id, Some(e.file.location), e.visit.nowMs);
    if ReadWell(e) then
      [ObserveScrubbed(id, e.visit.parse.record.identity, e.file.location, e.visit.hash.revision, e.visit.nowMs), move]
    else [move]
  }

  // ---------- A pass over sorted entries ----------

  predicate Anyhow(e: ScrubEntry) { true }

  function Those(start: Option<LogicalLocation>, sorted: seq<ScrubEntry>, n: nat, which: ScrubEntry -> bool): set<nat>
    requires n <= |sorted|
  {
    set i | 0 <= i < n && Ahead(start, sorted[i]) && which(sorted[i])
  }

  lemma OneMoreOfThose(start: Option<LogicalLocation>, sorted: seq<ScrubEntry>, n: nat, which: ScrubEntry -> bool)
    requires n < |sorted|
    ensures |Those(start, sorted, n + 1, which)|
            == |Those(start, sorted, n, which)| + if Ahead(start, sorted[n]) && which(sorted[n]) then 1 else 0
  {
    var earlier := Those(start, sorted, n, which);
    assert n !in earlier;
    assert Those(start, sorted, n + 1, which)
           == if Ahead(start, sorted[n]) && which(sorted[n]) then earlier + {n} else earlier;
  }

  /** The transactions of the first `n` entries, when none of them stops the pass. */
  function OpsUpTo(id: SourceId, start: Option<LogicalLocation>, sorted: seq<ScrubEntry>, n: nat): seq<DbOp>
    requires n <= |sorted|
  {
    if n == 0 then []
    else
      OpsUpTo(id, start, sorted, n - 1)
      + if Ahead(start, sorted[n - 1]) && sorted[n - 1].visit.Opened? then OpsFor(id, sorted[n - 1]) else []
  }

  function BytesUpTo(start: Option<LogicalLocation>, sorted: seq<ScrubEntry>, n: nat): nat
    requires n <= |sorted|
  {
    if n == 0 then 0
    else
      BytesUpTo(start, sorted, n - 1)
      + if Ahead(start, sorted[n - 1]) && ReadWell(sorted[n - 1]) then sorted[n - 1].visit.hash.revision.byteLength else 0
  }

  /** Its first `n` entries are behind the cursor, or were dealt with. */
  predicate TookUpTo(p: Plan, id: SourceId, start: Option<LogicalLocation>, sorted: seq<ScrubEntry>, n: nat)
    requires n <= |sorted|
  {
    && (forall i :: 0 <= i < n && Ahead(start, sorted[i]) ==> Trouble(sorted[i]).None?)
    && p.ops == OpsUpTo(id, start, sorted, n)
    && p.filesHashed == |Those(start, sorted, n, ReadWell)|
    && p.bytesHashed == BytesUpTo(start, sorted, n) <= U64_MAX
    && p.changed == |Those(start, sorted, n, ChangedUnderway)|
  }

  /** Some bytes were hashed, and this file's would take them over the budget. */
  predicate WouldExceed(p: Plan, e: ScrubEntry, byteBudget: nat) {
    0 < p.bytesHashed && byteBudget < p.bytesHashed + e.file.fingerprint.byteLength
  }

  /** What stops the pass at this entry, budget first. */
  predicate StopsAt(p: Plan, e: ScrubEntry, byteBudget: nat) {
    if WouldExceed(p, e, byteBudget) then p.stop == Exhausted
    else if Trouble(e).Some? then p.stop == Failed(Trouble(e).value)
    else
      && ReadWell(e) && p.bytesHashed + e.visit.hash.revision.byteLength > U64_MAX
      && p.stop == Failed(HashCounterOverflow)
  }

  /** Went through all of the first `n` entries, or stopped at the `m`th, for just the reason it gives. */
  predicate Went(p: Plan, id: SourceId, start: Option<LogicalLocation>, sorted: seq<ScrubEntry>, byteBudget: nat, n: nat,
                 m: nat)
    requires m <= n <= |sorted|
  {
    && TookUpTo(p, id, start, sorted, m)
    && (p.stop == Going <==> m == n)
    && (m < n ==> Ahead(start, sorted[m]) && StopsAt(p, sorted[m], byteBudget))
    && (!p.stop.Failed? ==> p.considered == |Those(start, sorted, m, Anyhow)|)
  }

  /** An entry ahead of the cursor stops the pass, or adds its transactions and is counted. */
  predicate DealsWith(p: Plan, q: Plan, id: SourceId, e: ScrubEntry, byteBudget: nat) {
    if q.stop.Going? then
      && Trouble(e).None? && q.ops == p.ops + OpsFor(id, e)
      && q.filesHashed == p.filesHashed + (if ReadWell(e) then 1 else 0)
      && q.bytesHashed == p.bytesHashed + (if ReadWell(e) then e.visit.hash.revision.byteLength else 0)
      && (ReadWell(e) ==> q.bytesHashed <= U64_MAX)
      && q.changed == p.changed + (if ChangedUnderway(e) then 1 else 0)
      && q.considered == p.considered + 1
    else
      && StopsAt(q, e, byteBudget) && q.ops == p.ops && q.filesHashed == p.filesHashed
      && q.bytesHashed == p.bytesHashed && q.changed == p.changed
      && (q.stop.Exhausted? ==> q.considered == p.considered)
  }

  lemma EntryIsDealtWith(p: Plan, id: SourceId, start: Option<LogicalLocation>, e: ScrubEntry, byteBudget: nat)
    requires p.stop.Going? && Ahead(start, e)
    ensures DealsWith(p, PlanOne(p, id, start, e, byteBudget), id, e, byteBudget)
  {
  }

  lemma OneEntryOn(p: Plan, q: Plan, id: SourceId, start: Option<LogicalLocation>, sorted: seq<ScrubEntry>,
                   byteBudget: nat, n: nat)
    requires n < |sorted| && p.stop.Going? && Went(p, id, start, sorted, byteBudget, n, n)
    requires if Ahead(start, sorted[n]) then DealsWith(p, q, id, sorted[n], byteBudget) else q == p
    ensures Went(q, id, start, sorted, byteBudget, n + 1, if q.stop.Going? then n + 1 else n)
  {
    OneMoreOfThose(start, sorted, n, ReadWell);
    OneMoreOfThose(start, sorted, n, ChangedUnderway);
    OneMoreOfThose(start, sorted, n, Anyhow);
  }

  lemma OneEntryGoes(p: Plan, id: SourceId, start: Option<LogicalLocation>, sorted: seq<ScrubEntry>, byteBudget: nat,
                     n: nat)
    requires n < |sorted| && p.stop.Going? && Went(p, id, start, sorted, byteBudget, n, n)
    ensures var q := PlanOne(p, id, start, sorted[n], byteBudget);
            Went(q, id, start, sorted, byteBudget, n + 1, if q.stop.Going? then n + 1 else n)
  {
    if Ahead(start, sorted[n]) {
      EntryIsDealtWith(p, id, start, sorted[n], byteBudget);
    }
    OneEntryOn(p, PlanOne(p, id, start, sorted[n], byteBudget), id, start, sorted, byteBudget, n);
  }

  lemma StoppedStays(p: Plan, id: SourceId, start: Option<LogicalLocation>, sorted: seq<ScrubEntry>, byteBudget: nat,
                     n: nat, m: nat)
    requires m < n < |sorted| && Went(p, id, start, sorted, byteBudget, n, m)
    ensures Went(p, id, start, sorted, byteBudget, n + 1, m) && PlanOne(p, id, start, sorted[n], byteBudget) == p
  {
  }

  lemma {:induction false} PassGoes(id: SourceId, start: Option<LogicalLocation>, sorted: seq<ScrubEntry>,
                                    byteBudget: nat, n: nat)
    returns (m: nat)
    requires n <= |sorted|
    ensures m <= n && Went(PlanUpTo(id, start, sorted, byteBudget, n), id, start, sorted, byteBudget, n, m)
    decreases n
  {
    m := 0;
    if n > 0 {
      m := PassGoes(id, start, sorted, byteBudget, n - 1);
      var p := PlanUpTo(id, start, sorted, byteBudget, n - 1);
      if m == n - 1 {
        OneEntryGoes(p, id, start, sorted, byteBudget, m);
        m := if PlanUpTo(id, start, sorted, byteBudget, n).stop.Going? then n else m;
      } else {
        StoppedStays(p, id, start, sorted, byteBudget, n - 1, m);
      }
    }
  }

  // ---------- A whole invocation ----------

  /** The same files, in location order. */
  predicate InOrder(entries: seq<ScrubEntry>, sorted: seq<ScrubEntry>) {
    && multiset(sorted) == multiset(entries)
    && forall i, j :: 0 <= i < j < |sorted| ==> Before(sorted[i].file.location, sorted[j].file.location)
  }

  /**
   * An invocation with healthy roots and a listing takes the files past its cursor in location order, up to the first
   * that stops it; it commits just the transactions of those before, and then, if none stopped it and the roots are
   * still healthy, clears the cursor. Without healthy roots or a listing it commits nothing.
   */
  lemma PassTakesEffect(id: SourceId, start: Option<LogicalLocation>, pass: ScrubPass)
    returns (sorted: seq<ScrubEntry>, m: nat)
    requires pass.listing.Some? ==> OneFilePerLocation(pass.listing.value)
    ensures pass.rootsBefore && pass.listing.Some? ==>
              && InOrder(pass.listing.value, sorted) && m <= |sorted|
              && Went(PlanOf(id, start, pass), id, start, sorted, pass.byteBudget, |sorted|, m)
              && PassOps(id, start, pass)
                 == OpsUpTo(id, start, sorted, m)
                    + if m == |sorted| && pass.rootsAfter then [AdvanceScrub(id, None, pass.endMs)] else []
    ensures !pass.rootsBefore || pass.listing.None? ==> PassOps(id, start, pass) == []
  {
    sorted, m := [], 0;
    if pass.rootsBefore && pass.listing.Some? {
      sorted := Sorted(pass.listing.value);
      m := PassGoes(id, start, sorted, pass.byteBudget, |sorted|);
      SortedIsAscending(pass.listing.value);
      forall i, j | 0 <= i < j < |sorted| ensures Before(sorted[i].file.location, sorted[j].file.location) {
        assert Before(Locations(sorted)[i], Locations(sorted)[j]);
      }
    }
  }
}
