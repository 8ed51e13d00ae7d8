/** What a filesystem source shows its reconciler: candidates, their order, and the records parsed from them. */
module Files {
  import opened Domain
  import opened Sources

  /** One enumerated file. Its place in the tree is its logical location. */
  datatype FileCandidate = FileCandidate(location: LogicalLocation, fingerprint: SourceFingerprint)

  datatype ParsedRecord = ParsedRecord(identity: RecordIdentity, location: LogicalLocation)

  /** What the layout plugin makes of an open file. */
  datatype Parse = ParseFailed | NotARecord | Parsed(record: ParsedRecord)

  /** What hashing an open file gives, with the fingerprint the handle shows afterwards. */
  datatype HashRead = HashFailed | Hashed(revision: CanonicalRevision, after: SourceFingerprint)

  datatype SourceError =
    | UnhealthyRoot
    | ReadFailed
    | InvalidProviderRecord
    | DuplicateLiveIdentity
    | HashCounterOverflow
    | CatalogFailed(error: CatalogError)

  // ---------- Location order ----------

  /** `Ord` on Rust strings: UTF-8 order, which is the order of code points. */
  predicate StringBefore(a: string, b: string) {
    if b == [] then false
    else if a == [] then true
    else if a[0] != b[0] then a[0] < b[0]
    else StringBefore(a[1..], b[1..])
  }

  predicate Before(a: LogicalLocation, b: LogicalLocation) {
    if a.rootRole != b.rootRole then StringBefore(a.rootRole, b.rootRole)
    else StringBefore(a.sourceRelativePath, b.sourceRelativePath)
  }

  lemma {:induction false} StringOrderIsTotal(a: string, b: string)
    ensures !(StringBefore(a, b) && StringBefore(b, a))
    ensures a == b <==> !StringBefore(a, b) && !StringBefore(b, a)
    decreases |a|
  {
    if a != [] && b != [] && a[0] == b[0] {
      StringOrderIsTotal(a[1..], b[1..]);
      assert a == [a[0]] + a[1..] && b == [b[0]] + b[1..];
    }
  }

  lemma {:induction false} StringOrderIsTransitive(a: string, b: string, c: string)
    requires StringBefore(a, b) && StringBefore(b, c)
    ensures StringBefore(a, c)
    decreases |a|
  {
    if a != [] && a[0] == b[0] == c[0] {
      StringOrderIsTransitive(a[1..], b[1..], c[1..]);
    }
  }

  /** Exactly one of before, same and after holds. */
  lemma LocationOrderIsTotal(a: LogicalLocation, b: LogicalLocation)
    ensures !(Before(a, b) && Before(b, a))
    ensures a == b <==> !Before(a, b) && !Before(b, a)
  {
    StringOrderIsTotal(a.rootRole, b.rootRole);
    StringOrderIsTotal(a.sourceRelativePath, b.sourceRelativePath);
  }

  lemma LocationOrderIsTransitive(a: LogicalLocation, b: LogicalLocation, c: LogicalLocation)
    requires Before(a, b) && Before(b, c)
    ensures Before(a, c)
  {
    StringOrderIsTotal(a.rootRole, b.rootRole);
    StringOrderIsTotal(b.rootRole, c.rootRole);
    if a.rootRole != b.rootRole && b.rootRole != c.rootRole {
      StringOrderIsTransitive(a.rootRole, b.rootRole, c.rootRole);
      StringOrderIsTotal(a.rootRole, c.rootRole);
    } else if a.rootRole == b.rootRole == c.rootRole {
      StringOrderIsTransitive(a.sourceRelativePath, b.sourceRelativePath, c.sourceRelativePath);
    }
  }

  /** Alike up to `n`, where `a` ends or has the smaller character. */
  predicate DifferAt(a: string, b: string, n: nat) {
    n <= |a| && n < |b| && a[..n] == b[..n] && (n == |a| || a[n] < b[n])
  }

  /** Strings are ordered by the first place where they differ. */
  lemma {:induction false} StringOrderIsLexicographic(a: string, b: string)
    ensures StringBefore(a, b) <==> exists n: nat :: DifferAt(a, b, n)
    decreases |a|
  {
    if a == [] && b != [] {
      assert DifferAt(a, b, 0);
    } else if a != [] && b != [] {
      StringOrderIsLexicographic(a[1..], b[1..]);
      if a[0] < b[0] {
        assert DifferAt(a, b, 0);
      } else if StringBefore(a, b) {
        var n: nat :| DifferAt(a[1..], b[1..], n);
        assert a[..n + 1] == [a[0]] + a[1..][..n] && b[..n + 1] == [b[0]] + b[1..][..n];
        assert DifferAt(a, b, n + 1);
      }
      forall n: nat | DifferAt(a, b, n) ensures StringBefore(a, b) {
        if n > 0 {
          assert a[0] == a[..n][0] == b[..n][0] == b[0];
          assert a[1..][..n - 1] == a[..n][1..] && b[1..][..n - 1] == b[..n][1..];
          assert DifferAt(a[1..], b[1..], n - 1);
        }
      }
    }
  }

  /** Locations are ordered by role, and then by path. */
  lemma LocationOrderIsByRoleThenPath(a: LogicalLocation, b: LogicalLocation)
    ensures Before(a, b) <==>
            || (exists n: nat :: DifferAt(a.rootRole, b.rootRole, n))
            || (a.rootRole == b.rootRole && exists n: nat :: DifferAt(a.sourceRelativePath, b.sourceRelativePath, n))
  {
    StringOrderIsLexicographic(a.rootRole, b.rootRole);
    StringOrderIsLexicographic(a.sourceRelativePath, b.sourceRelativePath);
    StringOrderIsTotal(a.rootRole, b.rootRole);
  }

  predicate Ascending(locations: seq<LogicalLocation>) {
    forall i, j :: 0 <= i < j < |locations| ==> Before(locations[i], locations[j])
  }

  /** An ascending sequence names each of its locations exactly once. */
  lemma {:induction false} AscendingIsOnce(locations: seq<LogicalLocation>, l: LogicalLocation)
    requires Ascending(locations)
    ensures multiset(locations)[l] == if l in locations then 1 else 0
  {
    if locations != [] {
      var n := |locations| - 1;
      var earlier := locations[..n];
      AscendingIsOnce(earlier, l);
      assert locations == earlier + [locations[n]];
      if locations[n] in earlier {
        var i :| 0 <= i < n && earlier[i] == locations[n];
        LocationOrderIsTotal(locations[i], locations[n]);
      }
    }
  }
}
