/** What a sweep accepts, counts and commits, and when it must not commit at all. */
module SweepEffects {
  import opened Wrappers
  import opened Domain
  import opened Sources
  import opened Files
  import opened Scan
  import opened Honesty

  // ---------- Sweeps that must fail ----------

  /** Beyond what the sweep observed: no event, no delivery, no further miss, and no generation closed. */
  predicate OnlyObserved(db: Db, t: Db) {
    && t.store == db.store
    && (forall r :: r in t.tables.missing ==> r in db.tables.missing && t.tables.missing[r] == db.tables.missing[r])
    && (forall id :: id in t.tables.sources ==>
          t.tables.sources[id].lastCompleteGeneration
          == if id in db.tables.sources then db.tables.sources[id].lastCompleteGeneration else 0)
    && t.tables.scrubs == db.tables.scrubs
  }

  lemma OnlyObservedOn(a: Db, b: Db, c: Db)
    requires OnlyObserved(a, b) && OnlyObserved(b, c) && c.tables.sources == b.tables.sources
    ensures OnlyObserved(a, c)
  {
  }

  lemma NotingOnlyObserves(db: Db, scan: SourceScan, location: LogicalLocation, fingerprint: SourceFingerprint)
    ensures var t := ObserveSourceFingerprint(db, scan, location, fingerprint).0;
            OnlyObserved(db, t) && t.tables.sources == db.tables.sources
  {
  }

  lemma SeeingOnlyObserves(db: Db, scan: SourceScan, registration: SourceRegistration, identity: RecordIdentity)
    ensures var t := MarkSourceRecordSeen(db, scan, registration, identity).0;
            OnlyObserved(db, t) && t.tables.sources == db.tables.sources
  {
  }

  lemma ObservingOnlyObserves(t: Tally, u: Tally, scan: SourceScan, config: SourceConfig, c: Candidate)
    requires TallyFollows(t, u, scan, config, c)
    ensures OnlyObserved(t.db, u.db) && u.db.tables.sources == t.db.tables.sources
  {
    var noted := ObserveSourceFingerprint(t.db, scan, c.record.location, c.file.fingerprint).0;
    var seen := MarkSourceRecordSeen(noted, scan, config.registration, c.record.identity).0;
    NotingOnlyObserves(t.db, scan, c.record.location, c.file.fingerprint);
    SeeingOnlyObserves(noted, scan, config.registration, c.record.identity);
    OnlyObservedOn(t.db, noted, seen);
    assert u.db == t.db || u.db == noted || u.db == seen;
  }

  lemma LoopOnlyObserves(t: Tally, scan: SourceScan, config: SourceConfig, candidates: seq<Candidate>)
    ensures OnlyObserved(t.db, ObserveUpTo(t, scan, config, candidates, |candidates|).db)
  {
    var us := TalliesOf(t, scan, config, candidates);
    for n := 0 to |candidates|
      invariant OnlyObserved(t.db, us[n].db)
    {
      assert TallyFollows(us[n], us[n + 1], scan, config, candidates[n]);
      ObservingOnlyObserves(us[n], us[n + 1], scan, config, candidates[n]);
      OnlyObservedOn(t.db, us[n].db, us[n + 1].db);
    }
  }

  lemma PreparingOnlyObserves(db: Db, config: SourceConfig, pass: ScanPass)
    ensures OnlyObserved(db, Prepare(db, config, pass).db)
  {
    var (begun, started) := BeginSourceScan(db, config.registration);
    if started.Ok? && pass.listing.Some? {
      var look := LookUpTo(pass.listing.value, |pass.listing.value|);
      var t := Tally(begun, NO_REPORT.(changedDuringScan := look.changed), [], None);
      LoopOnlyObserves(t, started.value, config, look.candidates);
    }
  }

  /** The file cannot be opened, or not be parsed though it is unchanged. */
  predicate Unreadable(e: ScanEntry) {
    e.opening.OpenFailed? || (e.opening.current == e.file.fingerprint && e.opening.parse.ParseFailed?)
  }

  /** Unchanged since it was listed, and a record. */
  predicate Taken(e: ScanEntry) {
    e.opening.First? && e.opening.current == e.file.fingerprint && e.opening.parse.Parsed?
  }

  predicate Changed(e: ScanEntry) { e.opening.First? && e.opening.current != e.file.fingerprint }

  /** Two unchanged files hold records of one identity. */
  predicate ClaimsTwice(entries: seq<ScanEntry>) {
    exists i, j :: 0 <= i < j < |entries| && Taken(entries[i]) && Taken(entries[j])
                   && entries[i].opening.parse.record.identity == entries[j].opening.parse.record.identity
  }

  /** A root was unhealthy before or after, the walk failed, a file is unreadable, or an identity is claimed twice. */
  predicate MustFail(pass: ScanPass) {
    || !pass.rootsBefore || !pass.rootsAfter || pass.listing.None?
    || (exists i :: 0 <= i < |pass.listing.value| && Unreadable(pass.listing.value[i]))
    || ClaimsTwice(pass.listing.value)
  }

  // ---------- The first look ----------

  function ChangedAmong(entries: seq<ScanEntry>, n: nat): set<nat>
    requires n <= |entries|
  {
    set i | 0 <= i < n && Changed(entries[i])
  }

  /** The candidates are the records among the first `n` entries, each once, in order; `at` says which. */
  predicate TakenAt(entries: seq<ScanEntry>, n: nat, candidates: seq<Candidate>, at: seq<nat>)
    requires n <= |entries|
  {
    && |at| == |candidates|
    && (forall k :: 0 <= k < |at| ==>
          && at[k] < n && Taken(entries[at[k]])
          && candidates[k] == Candidate(entries[at[k]].file, entries[at[k]].opening.parse.record,
                                        entries[at[k]].reopening, entries[at[k]].commitMs))
    && (forall k, l :: 0 <= k < l < |at| ==> at[k] < at[l])
    && (forall i :: 0 <= i < n && Taken(entries[i]) ==> i in at)
  }

  lemma OneMoreChanged(entries: seq<ScanEntry>, n: nat)
    requires n < |entries|
    ensures |ChangedAmong(entries, n + 1)| == |ChangedAmong(entries, n)| + if Changed(entries[n]) then 1 else 0
  {
    var before := ChangedAmong(entries, n);
    assert n !in before;
    assert ChangedAmong(entries, n + 1) == if Changed(entries[n]) then before + {n} else before;
  }

  /** Fails on an unreadable entry, or else takes the records and counts the changed files. */
  predicate Looked(entries: seq<ScanEntry>, n: nat, look: FirstLook, at: seq<nat>)
    requires n <= |entries|
  {
    if exists i :: 0 <= i < n && Unreadable(entries[i]) then look.error == Some(ReadFailed)
    else look.error.None? && TakenAt(entries, n, look.candidates, at) && look.changed == |ChangedAmong(entries, n)|
  }

  lemma LooksOn(entries: seq<ScanEntry>, n: nat, look: FirstLook, at: seq<nat>)
    requires n < |entries| && Looked(entries, n, look, at)
    requires look.error.None? ==> Taken(entries[n])
    ensures Looked(entries, n + 1, LookAt(look, entries[n]), at + [n])
  {
    OneMoreChanged(entries, n);
    if look.error.None? {
      TakenOnce(entries, n, look.candidates, at);
    }
  }

  lemma LooksPast(entries: seq<ScanEntry>, n: nat, look: FirstLook, at: seq<nat>)
    requires n < |entries| && Looked(entries, n, look, at) && !Taken(entries[n])
    ensures Looked(entries, n + 1, LookAt(look, entries[n]), at)
  {
    OneMoreChanged(entries, n);
  }

  /** The first look takes just the unchanged records, counts the changed files, and fails on an unreadable one. */
  lemma {:induction false} LookingTakes(entries: seq<ScanEntry>, n: nat) returns (at: seq<nat>)
    requires n <= |entries|
    ensures Looked(entries, n, LookUpTo(entries, n), at)
    decreases n
  {
    at := [];
    if n > 0 {
      at := LookingTakes(entries, n - 1);
      if Taken(entries[n - 1]) {
        LooksOn(entries, n - 1, LookUpTo(entries, n - 1), at);
        at := at + [n - 1];
      } else {
        LooksPast(entries, n - 1, LookUpTo(entries, n - 1), at);
      }
    }
  }

  lemma TakenOnce(entries: seq<ScanEntry>, n: nat, candidates: seq<Candidate>, at: seq<nat>)
    requires n < |entries| && TakenAt(entries, n, candidates, at) && Taken(entries[n])
    ensures var e := entries[n];
            TakenAt(entries, n + 1, candidates + [Candidate(e.file, e.opening.parse.record, e.reopening, e.commitMs)],
                    at + [n])
  {
    forall i | 0 <= i < n + 1 && Taken(entries[i]) ensures i in at + [n] {
    }
  }

  lemma TwiceAmongCandidates(entries: seq<ScanEntry>, candidates: seq<Candidate>, at: seq<nat>, i: nat, j: nat)
    requires TakenAt(entries, |entries|, candidates, at)
    requires i < j < |entries| && Taken(entries[i]) && Taken(entries[j])
    requires entries[i].opening.parse.record.identity == entries[j].opening.parse.record.identity
    ensures DuplicateIdentity(candidates)
  {
    var k :| 0 <= k < |at| && at[k] == i;
    var l :| 0 <= l < |at| && at[l] == j;
    assert k < l && candidates[k].record.identity == candidates[l].record.identity;
  }

  lemma ClaimedTwice(entries: seq<ScanEntry>, candidates: seq<Candidate>, at: seq<nat>)
    requires TakenAt(entries, |entries|, candidates, at)
    ensures DuplicateIdentity(candidates) <==> ClaimsTwice(entries)
  {
    if DuplicateIdentity(candidates) {
      var k, l :| 0 <= k < l < |candidates| && candidates[k].record.identity == candidates[l].record.identity;
      assert at[k] < at[l] && Taken(entries[at[k]]) && Taken(entries[at[l]]);
    }
    if ClaimsTwice(entries) {
      var i, j :| 0 <= i < j < |entries| && Taken(entries[i]) && Taken(entries[j])
                  && entries[i].opening.parse.record.identity == entries[j].opening.parse.record.identity;
      TwiceAmongCandidates(entries, candidates, at, i, j);
    }
  }

  /**
   * A sweep whose roots were unhealthy before or after it, whose walk failed, or that met an unreadable file or an
   * identity claimed twice fails, and has committed nothing but observations; if the roots were unhealthy from the
   * start, nothing at all.
   */
  lemma BadSweepsCommitNothing(db: Db, config: SourceConfig, pass: ScanPass)
    requires MustFail(pass)
    ensures var t := ScanOnce(db, config, pass);
            && t.error.Some? && OnlyObserved(db, t.db)
            && (!pass.rootsBefore ==> t == Commits(db, Some(UnhealthyRoot)))
  {
    PreparingOnlyObserves(db, config, pass);
    if pass.listing.Some? {
      var entries := pass.listing.value;
      var at := LookingTakes(entries, |entries|);
      var look := LookUpTo(entries, |entries|);
      if look.error.None? {
        ClaimedTwice(entries, look.candidates, at);
      }
    }
  }
}
