/** Verified access to external bytes: the streaming reader, the cache and its leases. */
module Payload {
  import opened Wrappers
  import opened Domain
  import opened Cache

  // ---------- What a mutable file shows its reader ----------

  /** The outcome of one read of the held descriptor; an empty chunk is an end of file. */
  datatype ReadOutcome = Chunk(bytes: seq<byte>) | ReadFailed

  /** What is consumed up to the next end of file, and what the file would show afterwards. */
  datatype Streamed = Streamed(bytes: seq<byte>, rest: seq<ReadOutcome>, failed: bool)

  function StreamToEnd(script: seq<ReadOutcome>): Streamed {
    if script == [] then Streamed([], [], false)
    else
      match script[0]
      case ReadFailed => Streamed([], script[1..], true)
      case Chunk(bytes) =>
        if bytes == [] then Streamed([], script[1..], false)
        else
          var tail := StreamToEnd(script[1..]);
          Streamed(bytes + tail.bytes, tail.rest, tail.failed)
  }

  /** So much of the stream was read, and this is still to come. */
  predicate Midway(whole: Streamed, read: seq<byte>, ahead: Streamed) {
    whole == Streamed(read + ahead.bytes, ahead.rest, ahead.failed)
  }

  /** Reads that each give something. */
  function Reads(pieces: seq<seq<byte>>): seq<ReadOutcome> {
    seq(|pieces|, i requires 0 <= i < |pieces| => Chunk(pieces[i]))
  }

  function Joined(pieces: seq<seq<byte>>): seq<byte> { if pieces == [] then [] else pieces[0] + Joined(pieces[1..]) }

  predicate NoneEmpty(pieces: seq<seq<byte>>) { forall i :: 0 <= i < |pieces| ==> pieces[i] != [] }

  lemma {:induction false} StreamPasses(pieces: seq<seq<byte>>, rest: seq<ReadOutcome>)
    requires NoneEmpty(pieces)
    ensures var end := StreamToEnd(rest);
            StreamToEnd(Reads(pieces) + rest) == Streamed(Joined(pieces) + end.bytes, end.rest, end.failed)
    decreases |pieces|
  {
    if pieces == [] {
      assert Reads(pieces) + rest == rest;
    } else {
      StreamPasses(pieces[1..], rest);
      assert (Reads(pieces) + rest)[1..] == Reads(pieces[1..]) + rest;
    }
  }

  /** However a stream is cut up, it ends where it runs out, gives an empty read, or fails. */
  lemma StreamsEndWhereTheyDo(pieces: seq<seq<byte>>, more: seq<ReadOutcome>)
    requires NoneEmpty(pieces)
    ensures StreamToEnd(Reads(pieces)) == Streamed(Joined(pieces), [], false)
    ensures StreamToEnd(Reads(pieces) + ([Chunk([])] + more)) == Streamed(Joined(pieces), more, false)
    ensures StreamToEnd(Reads(pieces) + ([ReadFailed] + more)) == Streamed(Joined(pieces), more, true)
  {
    StreamPasses(pieces, []);
    StreamPasses(pieces, [Chunk([])] + more);
    StreamPasses(pieces, [ReadFailed] + more);
    assert Reads(pieces) + [] == Reads(pieces) && Joined(pieces) + [] == Joined(pieces);
    assert ([Chunk([])] + more)[1..] == more && ([ReadFailed] + more)[1..] == more;
  }

  datatype PayloadError =
    | ReadError
    | StaleRevision
    | CacheIo
    | MaterializationLimit
    | CacheCapacityExceeded

  /** `CanonicalRevision::from_reader`: the revision does not depend on how the bytes were chunked. */
  method RevisionFromReader(hash: Hasher, script: seq<ReadOutcome>) returns (r: Option<CanonicalRevision>)
    ensures r == if StreamToEnd(script).failed then None else Some(RevisionOfBytes(hash, StreamToEnd(script).bytes))
  {
    var hashed: seq<byte>, byteLength := [], 0;
    var rest := script;
    while rest != [] && rest[0] != Chunk([])
      invariant byteLength == |hashed|
      invariant StreamToEnd(script).bytes == hashed + StreamToEnd(rest).bytes
      invariant StreamToEnd(script).failed == StreamToEnd(rest).failed
      decreases |rest|
    {
      if rest[0].ReadFailed? {
        return None;
      }
      byteLength := byteLength + |rest[0].bytes|;
      hashed := hashed + rest[0].bytes;
      rest := rest[1..];
    }
    assert hashed + StreamToEnd(rest).bytes == hashed;
    return Some(CanonicalRevision(byteLength, hash(hashed)));
  }

  /** A reader over one held descriptor. */
  class VerifiedReader {
    const expected: CanonicalRevision
    const initialFingerprint: SourceFingerprint
    const hash: Hasher
    var script: seq<ReadOutcome>
    var hashed: seq<byte>
    var bytesRead: nat
    var finished: bool

    ghost predicate Valid()
      reads this
    {
      bytesRead == |hashed| && (finished ==> expected == RevisionOfBytes(hash, hashed))
    }

    constructor (expected: CanonicalRevision, fingerprint: SourceFingerprint, hash: Hasher, script: seq<ReadOutcome>)
      ensures Valid() && !finished && hashed == []
      ensures this.expected == expected && initialFingerprint == fingerprint && this.hash == hash && this.script == script
    {
      this.expected, initialFingerprint, this.hash := expected, fingerprint, hash;
      this.script, hashed, bytesRead, finished := script, [], 0, false;
    }

    /** Every byte handed to the caller is hashed, and nothing else is. */
    method Read() returns (r: Result<seq<byte>, PayloadError>)
      requires Valid()
      modifies this
      ensures Valid() && finished == old(finished)
      ensures hashed == old(hashed) + if r.Ok? then r.value else []
      ensures old(finished) ==> r == Ok([]) && script == old(script)
      ensures !old(finished) ==>
                && script == (if old(script) == [] then [] else old(script)[1..])
                && r == if old(script) == [] then Ok([])
                        else if old(script)[0].ReadFailed? then Err(ReadError)
                        else Ok(old(script)[0].bytes)
    {
      if finished || script == [] {
        return Ok([]);
      }
      var outcome := script[0];
      script := script[1..];
      if outcome.ReadFailed? {
        return Err(ReadError);
      }
      if |outcome.bytes| > 0 {
        bytesRead := bytesRead + |outcome.bytes|;
        hashed := hashed + outcome.bytes;
      }
      return Ok(outcome.bytes);
    }

    /** After any earlier reads, success means the whole stream, read and unread, is the expected revision. */
    method Finish(closingFingerprint: SourceFingerprint) returns (r: Result<(), PayloadError>)
      requires Valid()
      modifies this
      ensures Valid() && (finished <==> old(finished) || r.Ok?)
      ensures old(finished) ==> r.Ok? && hashed == old(hashed) && script == old(script)
      ensures !old(finished) ==>
                var tail := StreamToEnd(old(script));
                && hashed == old(hashed) + tail.bytes && script == tail.rest
                && (r.Ok? <==>
                      && !tail.failed
                      && closingFingerprint == initialFingerprint
                      && expected == RevisionOfBytes(hash, hashed))
    {
      if finished {
        return Ok(());
      }
      var chunk := Read();
      ghost var drained := if chunk.Ok? then chunk.value else [];
      while chunk.Ok? && chunk.value != []
        invariant Valid() && !finished && hashed == old(hashed) + drained
        invariant chunk.Ok? && chunk.value != [] ==>
                    Midway(StreamToEnd(old(script)), drained, StreamToEnd(script))
        invariant !(chunk.Ok? && chunk.value != []) ==>
                    StreamToEnd(old(script)) == Streamed(drained, script, chunk.Err?)
        decreases if chunk.Ok? && chunk.value != [] then |script| + 1 else 0
      {
        chunk := Read();
        drained := drained + if chunk.Ok? then chunk.value else [];
      }
      if chunk.Err? {
        return Err(ReadError);
      }
      if closingFingerprint != initialFingerprint {
        return Err(StaleRevision);
      }
      if CanonicalRevision(bytesRead, hash(hashed)) != expected {
        return Err(StaleRevision);
      }
      finished := true;
      return Ok(());
    }
  }

  // ---------- One materialization ----------

  /** Everything the outside world shows one `materialize`: the adversary's whole choice. */
  datatype External = External(
    createFails: bool,
    descriptor: Option<SourceFingerprint>,
    script: seq<ReadOutcome>,
    closingFingerprint: SourceFingerprint,
    publishFails: bool)

  /** What the copy loop writes to the file. */
  function CopiedBytes(external: External): seq<byte> {
    StreamToEnd(external.script).bytes
  }

  /** What `finish` still finds after the copy loop saw an end of file. */
  function LateBytes(external: External): seq<byte> {
    StreamToEnd(StreamToEnd(external.script).rest).bytes
  }

  predicate CopySucceeds(hash: Hasher, expected: CanonicalRevision, external: External) {
    var copied := StreamToEnd(external.script);
    && !external.createFails
    && external.descriptor.Some? && external.descriptor.value.byteLength == expected.byteLength
    && !copied.failed && !StreamToEnd(copied.rest).failed
    && external.closingFingerprint == external.descriptor.value
    && expected == RevisionOfBytes(hash, copied.bytes + LateBytes(external))
    && !external.publishFails
  }

  /**
   * A successful copy verified the copied bytes followed by the late ones. What it published is that verified stream,
   * and has the expected revision, exactly when its length is the expected one: a caller who compares the two
   * lengths misses nothing.
   */
  lemma PublishedIsVerifiedIff(hash: Hasher, expected: CanonicalRevision, external: External)
    requires CopySucceeds(hash, expected, external)
    ensures var published, verified := CopiedBytes(external), CopiedBytes(external) + LateBytes(external);
            && external.descriptor == Some(external.closingFingerprint)
            && external.closingFingerprint.byteLength == expected.byteLength
            && !external.createFails && !external.publishFails
            && expected == RevisionOfBytes(hash, verified)
            && |published| <= expected.byteLength
            && (published == verified <==> |published| == expected.byteLength)
            && (RevisionOfBytes(hash, published) == expected <==> |published| == expected.byteLength)
  {
    if LateBytes(external) == [] {
      assert CopiedBytes(external) + LateBytes(external) == CopiedBytes(external);
    }
  }

  /** A file that stands still is published whole, however its reads are cut. */
  lemma SteadyFilesMaterialize(hash: Hasher, pieces: seq<seq<byte>>, fingerprint: SourceFingerprint)
    requires NoneEmpty(pieces) && fingerprint.byteLength == |Joined(pieces)|
    ensures var external := External(false, Some(fingerprint), Reads(pieces), fingerprint, false);
            CopySucceeds(hash, RevisionOfBytes(hash, Joined(pieces)), external) && CopiedBytes(external) == Joined(pieces)
  {
    StreamsEndWhereTheyDo(pieces, []);
    assert Joined(pieces) + [] == Joined(pieces);
  }

  /** A file that shrinks and then regrows between reads: the check passes and the published file is short. */
  lemma LateBytesAreCheckedButNotPublished(hash: Hasher, fingerprint: SourceFingerprint)
    requires fingerprint.byteLength == 2
    ensures var external := External(false, Some(fingerprint), [Chunk([1]), Chunk([]), Chunk([2])], fingerprint, false);
            && CopySucceeds(hash, RevisionOfBytes(hash, [1, 2]), external)
            && CopiedBytes(external) == [1]
  {
    var script: seq<ReadOutcome> := [Chunk([1]), Chunk([]), Chunk([2])];
    assert script[1..] == [Chunk([]), Chunk([2])];
    assert script[1..][1..] == [Chunk([2])];
    assert StreamToEnd([Chunk([2])]).bytes == [2];
    assert StreamToEnd(script[1..]) == Streamed([], [Chunk([2])], false);
    assert StreamToEnd(script) == Streamed([1], [Chunk([2])], false);
    assert [1] + [2] == [1 as byte, 2];
  }

  class MaterializationCache {
    const limits: MaterializationLimits
    const hash: Hasher
    var activeEntries: nat
    var activeBytes: nat
    /** Every reservation ever taken, for accounting only. */
    ghost var slots: seq<Slot>

    ghost function State(): CacheState
      reads this
    {
      CacheState(activeEntries, activeBytes, slots)
    }

    ghost predicate Valid()
      reads this
    {
      Balanced(State(), limits)
    }

    constructor (limits: MaterializationLimits, hash: Hasher)
      ensures Valid() && State() == EMPTY_CACHE && this.limits == limits && this.hash == hash
    {
      this.limits, this.hash := limits, hash;
      activeEntries, activeBytes, slots := 0, 0, [];
    }

    method Reserve(bytes: nat) returns (r: Result<(), PayloadError>)
      requires Valid()
      modifies this
      ensures Valid()
      ensures r.Ok? <==>
              && bytes <= limits.maxEntryBytes
              && old(activeEntries) < limits.maxActiveEntries
              && old(activeBytes) + bytes <= limits.maxActiveBytes
      ensures r == Err(MaterializationLimit) <==> bytes > limits.maxEntryBytes
      ensures State() == if r.Ok? then Cache.Reserve(old(State()), bytes) else old(State())
    {
      if bytes > limits.maxEntryBytes {
        return Err(MaterializationLimit);
      }
      var nextEntries, nextBytes := activeEntries + 1, activeBytes + bytes;
      if nextEntries > limits.maxActiveEntries || nextBytes > limits.maxActiveBytes {
        return Err(CacheCapacityExceeded);
      }
      ghost var before := State();
      ReserveBalances(before, limits, bytes);
      activeEntries, activeBytes := nextEntries, nextBytes;
      slots := slots + [Slot(bytes, false)];
      assert State() == Cache.Reserve(before, bytes);
      return Ok(());
    }

    method ReleaseReservation(bytes: nat, ghost i: nat)
      requires Valid() && i < |slots| && slots[i] == Slot(bytes, false)
      modifies this
      ensures Valid() && State() == Return(old(State()), i)
      ensures activeEntries == old(activeEntries) - 1 && activeBytes == old(activeBytes) - bytes
    {
      ReturnIsExact(State(), limits, i);
      activeEntries := SaturatingSub(activeEntries, 1);
      activeBytes := SaturatingSub(activeBytes, bytes);
      slots := slots[i := slots[i].(released := true)];
    }

    /** Publishes a verified copy under its own reservation, or gives the reservation back. */
    method Materialize(expected: CanonicalRevision, external: External)
      returns (r: Result<MaterializedLease, PayloadError>)
      requires Valid()
      modifies this
      ensures Valid()
      ensures r.Ok? <==> Admits(old(State()), limits, expected.byteLength) && CopySucceeds(hash, expected, external)
      ensures r.Ok? ==>
                && fresh(r.value) && r.value.Holds() && r.value.cache == this && !r.value.released
                && r.value.file == CopiedBytes(external) && r.value.expected == expected
                && r.value.reservedBytes == expected.byteLength
                && State() == Cache.Reserve(old(State()), expected.byteLength)
                && |r.value.file| <= expected.byteLength
                && (RevisionOfBytes(hash, r.value.file) == expected <==> |r.value.file| == expected.byteLength)
      ensures r.Err? ==> activeEntries == old(activeEntries) && activeBytes == old(activeBytes)
    {
      var reserved := Reserve(expected.byteLength);
      if reserved.Err? {
        return Err(reserved.error);
      }
      ghost var i := |slots| - 1;
      var copied := Copy(expected, external);
      if copied.Err? {
        ReleaseReservation(expected.byteLength, i);
        return Err(copied.error);
      }
      PublishedIsVerifiedIff(hash, expected, external);
      var lease := new MaterializedLease(this, expected, copied.value, i);
      return Ok(lease);
    }

    /** The fallible part of a materialization: open, copy to the first end of file, check, publish. */
    method Copy(expected: CanonicalRevision, external: External) returns (r: Result<seq<byte>, PayloadError>)
      ensures r.Ok? <==> CopySucceeds(hash, expected, external)
      ensures r.Ok? ==> r.value == CopiedBytes(external)
    {
      if external.createFails {
        return Err(CacheIo);
      }
      if external.descriptor.None? {
        return Err(ReadError);
      }
      if external.descriptor.value.byteLength != expected.byteLength {
        return Err(StaleRevision);
      }
      r := CopyStream(expected, external);
    }

    /** Copies until a read ends or fails, then finishes, which checks the whole stream against the revision. */
    method CopyStream(expected: CanonicalRevision, external: External) returns (r: Result<seq<byte>, PayloadError>)
      requires !external.createFails && external.descriptor.Some?
      requires external.descriptor.value.byteLength == expected.byteLength
      ensures r.Ok? <==> CopySucceeds(hash, expected, external)
      ensures r.Ok? ==> r.value == CopiedBytes(external)
    {
      var input := new VerifiedReader(expected, external.descriptor.value, hash, external.script);
      var output, failed := CopyToEnd(input);
      if failed {
        return Err(ReadError);
      }
      var checked := input.Finish(external.closingFingerprint);
      if checked.Err? {
        return Err(checked.error);
      }
      if external.publishFails {
        return Err(CacheIo);
      }
      return Ok(output);
    }

    /** The copy loop: everything up to the first end of file or failure is written and hashed. */
    method CopyToEnd(input: VerifiedReader) returns (output: seq<byte>, failed: bool)
      requires input.Valid() && !input.finished && input.hashed == []
      modifies input
      ensures input.Valid() && !input.finished && input.hashed == output
      ensures StreamToEnd(old(input.script)) == Streamed(output, input.script, failed)
    {
      output := [];
      var chunk := input.Read();
      while chunk.Ok? && chunk.value != []
        invariant input.Valid() && !input.finished
        invariant chunk.Ok? && chunk.value != [] ==>
                    && input.hashed == output + chunk.value
                    && Midway(StreamToEnd(old(input.script)), input.hashed, StreamToEnd(input.script))
        invariant !(chunk.Ok? && chunk.value != []) ==>
                    && input.hashed == output
                    && StreamToEnd(old(input.script)) == Streamed(output, input.script, chunk.Err?)
        decreases if chunk.Ok? && chunk.value != [] then |input.script| + 1 else 0
      {
        output := output + chunk.value;
        chunk := input.Read();
      }
      failed := chunk.Err?;
    }
  }

  /** A unique verified file, and the capacity it occupies. */
  class MaterializedLease {
    const cache: MaterializationCache
    const expected: CanonicalRevision
    const file: seq<byte>
    const reservedBytes: nat
    ghost const slot: nat
    var released: bool

    ghost predicate Holds()
      reads this, cache
    {
      slot < |cache.slots| && cache.slots[slot] == Slot(reservedBytes, released)
    }

    constructor (cache: MaterializationCache, expected: CanonicalRevision, file: seq<byte>, ghost slot: nat)
      requires slot < |cache.slots| && cache.slots[slot] == Slot(expected.byteLength, false)
      ensures Holds() && this.cache == cache && this.expected == expected && this.file == file && !released
      ensures this.slot == slot && reservedBytes == expected.byteLength
    {
      this.cache, this.expected, this.file, this.slot := cache, expected, file, slot;
      reservedBytes, released := expected.byteLength, false;
    }

    /** Called by `release` and again by `drop`: gives the reservation back once, and only when the file is gone. */
    method RemoveAndRelease(removal: Removal) returns (r: Result<(), PayloadError>)
      requires cache.Valid() && Holds()
      modifies this, cache
      ensures cache.Valid() && Holds()
      ensures cache.State() == Cache.RemoveAndRelease(old(cache.State()), slot, removal)
      ensures released <==> old(released) || !removal.RemovalFailed?
      ensures r.Ok? <==> released
    {
      if released {
        return Ok(());
      }
      match removal
      case Removed | AlreadyGone =>
        cache.ReleaseReservation(reservedBytes, slot);
        released := true;
        return Ok(());
      case RemovalFailed =>
        return Err(CacheIo);
    }
  }
}
