/** Reservation accounting of the materialization cache, over every interleaving. */
module Cache {
  datatype LimitFields = LimitFields(maxEntryBytes: nat, maxActiveEntries: nat, maxActiveBytes: nat)

  /** What `MaterializationLimits::new` lets through. */
  type MaterializationLimits = l: LimitFields |
    0 < l.maxEntryBytes <= l.maxActiveBytes && 0 < l.maxActiveEntries
    witness LimitFields(1, 1, 1)

  /** One reservation: taken by a materialization, kept by its lease until the file is gone. */
  datatype Slot = Slot(bytes: nat, released: bool)

  datatype CacheState = CacheState(activeEntries: nat, activeBytes: nat, slots: seq<Slot>)

  const EMPTY_CACHE := CacheState(0, 0, [])

  datatype Removal = Removed | AlreadyGone | RemovalFailed

  function SaturatingSub(a: nat, b: nat): nat { if a >= b then a - b else 0 }

  predicate Admits(c: CacheState, limits: MaterializationLimits, bytes: nat) {
    && bytes <= limits.maxEntryBytes
    && c.activeEntries + 1 <= limits.maxActiveEntries
    && c.activeBytes + bytes <= limits.maxActiveBytes
  }

  function Reserve(c: CacheState, bytes: nat): CacheState {
    CacheState(c.activeEntries + 1, c.activeBytes + bytes, c.slots + [Slot(bytes, false)])
  }

  function Return(c: CacheState, i: nat): CacheState
    requires i < |c.slots|
  {
    CacheState(SaturatingSub(c.activeEntries, 1), SaturatingSub(c.activeBytes, c.slots[i].bytes),
               c.slots[i := c.slots[i].(released := true)])
  }

  function RemoveAndRelease(c: CacheState, i: nat, removal: Removal): CacheState
    requires i < |c.slots|
  {
    if c.slots[i].released || removal.RemovalFailed? then c else Return(c, i)
  }

  datatype CacheOp =
    | Begin(bytes: nat)
    | Abort(i: nat)
    | Release(i: nat, removal: Removal)

  function ApplyCache(c: CacheState, limits: MaterializationLimits, op: CacheOp): CacheState {
    match op
    case Begin(bytes) => if Admits(c, limits, bytes) then Reserve(c, bytes) else c
    case Abort(i) => if i < |c.slots| then RemoveAndRelease(c, i, Removed) else c
    case Release(i, removal) => if i < |c.slots| then RemoveAndRelease(c, i, removal) else c
  }

  function RunCache(c: CacheState, limits: MaterializationLimits, ops: seq<CacheOp>): CacheState
    decreases |ops|
  {
    if ops == [] then c else RunCache(ApplyCache(c, limits, ops[0]), limits, ops[1..])
  }

  // ---------- The accounts balance ----------

  function HeldEntries(slots: seq<Slot>): nat {
    if slots == [] then 0
    else HeldEntries(slots[..|slots| - 1]) + if slots[|slots| - 1].released then 0 else 1
  }

  function HeldBytes(slots: seq<Slot>): nat {
    if slots == [] then 0
    else HeldBytes(slots[..|slots| - 1]) + if slots[|slots| - 1].released then 0 else slots[|slots| - 1].bytes
  }

  predicate Balanced(c: CacheState, limits: MaterializationLimits) {
    && c.activeEntries == HeldEntries(c.slots) <= limits.maxActiveEntries
    && c.activeBytes == HeldBytes(c.slots) <= limits.maxActiveBytes
  }

  lemma {:induction false} ReturningOneSlot(slots: seq<Slot>, i: nat)
    requires i < |slots| && !slots[i].released
    ensures HeldEntries(slots[i := slots[i].(released := true)]) == HeldEntries(slots) - 1
    ensures HeldBytes(slots[i := slots[i].(released := true)]) == HeldBytes(slots) - slots[i].bytes
    decreases |slots|
  {
    var n := |slots| - 1;
    var returned := slots[i := slots[i].(released := true)];
    if i == n {
      assert returned[..n] == slots[..n];
    } else {
      assert returned[..n] == slots[..n][i := slots[i].(released := true)];
      ReturningOneSlot(slots[..n], i);
    }
  }

  /** A reservation is given back exactly: the saturating subtraction never saturates. */
  lemma ReturnIsExact(c: CacheState, limits: MaterializationLimits, i: nat)
    requires Balanced(c, limits) && i < |c.slots| && !c.slots[i].released
    ensures Balanced(Return(c, i), limits)
    ensures Return(c, i).activeEntries == c.activeEntries - 1
    ensures Return(c, i).activeBytes == c.activeBytes - c.slots[i].bytes
  {
    ReturningOneSlot(c.slots, i);
  }

  lemma ReserveBalances(c: CacheState, limits: MaterializationLimits, bytes: nat)
    requires Balanced(c, limits) && Admits(c, limits, bytes)
    ensures Balanced(Reserve(c, bytes), limits)
  {
    assert Reserve(c, bytes).slots[..|c.slots|] == c.slots;
  }

  lemma ApplyBalances(c: CacheState, limits: MaterializationLimits, op: CacheOp)
    requires Balanced(c, limits)
    ensures Balanced(ApplyCache(c, limits, op), limits)
    ensures |c.slots| <= |ApplyCache(c, limits, op).slots|
    ensures forall i :: 0 <= i < |c.slots| && c.slots[i].released ==> ApplyCache(c, limits, op).slots[i] == c.slots[i]
  {
    match op
    case Begin(bytes) =>
      if Admits(c, limits, bytes) {
        ReserveBalances(c, limits, bytes);
      }
    case Abort(i) =>
      if i < |c.slots| && !c.slots[i].released {
        ReturnIsExact(c, limits, i);
      }
    case Release(i, removal) =>
      if i < |c.slots| && !c.slots[i].released {
        ReturnIsExact(c, limits, i);
      }
  }

  /** Whether the operation gives reservation `i` back. */
  predicate Returns(c: CacheState, limits: MaterializationLimits, op: CacheOp, i: nat) {
    i < |c.slots| && !c.slots[i].released && ApplyCache(c, limits, op).slots[i].released
  }

  function ReturnCount(c: CacheState, limits: MaterializationLimits, ops: seq<CacheOp>, i: nat): nat
    decreases |ops|
  {
    if ops == [] then 0
    else (if Returns(c, limits, ops[0], i) then 1 else 0) + ReturnCount(ApplyCache(c, limits, ops[0]), limits, ops[1..], i)
  }

  /** Over any run the accounts equal what is held, stay within the limits, and no reservation returns twice. */
  lemma {:induction false} CacheAccountingIsExact(c: CacheState, limits: MaterializationLimits, ops: seq<CacheOp>, i: nat)
    requires Balanced(c, limits)
    ensures Balanced(RunCache(c, limits, ops), limits)
    ensures ReturnCount(c, limits, ops, i) <= if i < |c.slots| && c.slots[i].released then 0 else 1
    decreases |ops|
  {
    if ops != [] {
      ApplyBalances(c, limits, ops[0]);
      CacheAccountingIsExact(ApplyCache(c, limits, ops[0]), limits, ops[1..], i);
    }
  }
}
