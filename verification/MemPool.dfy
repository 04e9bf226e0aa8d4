/** A pool of equal blocks: a flag per block and a cursor that always names a free block.
    Where the code stops the process (its ASSERT exits), the operation reports Stopped. */
module MemPool {
  datatype Outcome<+T> = Running(value: T) | Stopped

  // ---------------------------------------------------------------------------------------
  // The cyclic search
  // ---------------------------------------------------------------------------------------

  function Succ(n: nat, i: nat): nat
    requires i < n
  {
    if i + 1 == n then 0 else i + 1
  }

  /** How many steps lead from one index to another, going round. */
  function Steps(n: nat, i: nat, j: nat): nat
    requires i < n && j < n
  {
    if i <= j then j - i else j + n - i
  }

  /** `j` is the first free index met when going round from `i`. */
  ghost predicate FirstFree(free: seq<bool>, i: nat, j: nat)
    requires i < |free|
  {
    && j < |free| && free[j]
    && forall k :: 0 <= k < |free| && Steps(|free|, i, k) < Steps(|free|, i, j) ==> !free[k]
  }

  predicate SomeFree(free: seq<bool>) {
    exists k :: 0 <= k < |free| && free[k]
  }

  lemma FirstFreeUnique(free: seq<bool>, i: nat, j: nat, j': nat)
    requires i < |free| && FirstFree(free, i, j) && FirstFree(free, i, j')
    ensures j == j'
  {
    if Steps(|free|, i, j) < Steps(|free|, i, j') {
    } else if Steps(|free|, i, j') < Steps(|free|, i, j) {
    }
  }

  // ---------------------------------------------------------------------------------------
  // One operation
  // ---------------------------------------------------------------------------------------

  datatype Op = Allocate | Deallocate(index: int)

  /** The pool as a value, with the blocks handed out and not given back. */
  datatype State = State(free: seq<bool>, next: nat, held: set<nat>)

  ghost predicate Init(n: nat, s: State) {
    n > 0 && s == State(seq(n, _ => true), 0, {})
  }

  /** One operation that does not stop the process, as Pool's contracts have it. */
  ghost predicate Next(s: State, op: Op, s': State) {
    match op
    case Allocate =>
      && s.next < |s.free| && s.free[s.next]
      && s'.free == s.free[s.next := false] && FirstFree(s'.free, s.next, s'.next)
      && s'.held == s.held + {s.next}
    case Deallocate(i) =>
      && 0 <= i < |s.free| && !s.free[i]
      && s' == State(s.free[i := true], s.next, s.held - {i})
  }

  /** An operation leaves the pool in one state only. */
  lemma NextUnique(s: State, op: Op, s': State, s'': State)
    requires Next(s, op, s') && Next(s, op, s'')
    ensures s' == s''
  {
    if op.Allocate? { FirstFreeUnique(s'.free, s.next, s'.next, s''.next); }
  }

  class Pool<T> {
    const objects: array<T>
    const isFree: array<bool>
    var nextFreeIndex: nat

    /** The cursor names a free block. */
    ghost predicate Valid()
      reads this, isFree
    {
      && objects.Length == isFree.Length && (objects as object) != (isFree as object)
      && nextFreeIndex < isFree.Length && isFree[nextFreeIndex]
    }

    /** The pool as a value, for a caller who holds these blocks. */
    ghost function AsState(held: set<nat>): State
      reads this, isFree
    {
      State(isFree[..], nextFreeIndex, held)
    }

    constructor (numElems: nat, init: T)
      requires numElems > 0
      ensures Valid() && fresh(objects) && fresh(isFree)
      ensures isFree[..] == seq(numElems, _ => true) && nextFreeIndex == 0
    {
      objects := new T[numElems](_ => init);
      isFree := new bool[numElems](_ => true);
      nextFreeIndex := 0;
    }

    /** updateNextFreeIndex: goes round once from the block just taken, and stops the process
        if it comes back to it; that is, exactly if no block is free any more. */
    method UpdateNextFreeIndex() returns (r: Outcome<()>)
      requires objects.Length == isFree.Length && (objects as object) != (isFree as object)
      requires nextFreeIndex < isFree.Length && !isFree[nextFreeIndex]
      modifies this`nextFreeIndex
      ensures r.Running? <==> SomeFree(isFree[..])
      ensures r.Running? ==> Valid() && FirstFree(isFree[..], old(nextFreeIndex), nextFreeIndex)
    {
      var initialFreeIndex := nextFreeIndex;
      ghost var n := isFree.Length;
      ghost var d := 0;
      while !isFree[nextFreeIndex]
        invariant nextFreeIndex < n && d == Steps(n, initialFreeIndex, nextFreeIndex)
        invariant forall k :: 0 <= k < n && Steps(n, initialFreeIndex, k) < d ==> !isFree[k]
        decreases n - d
      {
        nextFreeIndex := nextFreeIndex + 1;
        if nextFreeIndex == isFree.Length {
          nextFreeIndex := 0;
        }
        if initialFreeIndex == nextFreeIndex {
          return Stopped;
        }
        d := d + 1;
      }
      return Running(());
    }

    /** allocate: hands out the block under the cursor.  The process stops exactly when this
        was the last free block. */
    method Allocate(x: T) returns (r: Outcome<nat>)
      requires Valid()
      modifies this, objects, isFree
      ensures isFree[..] == old(isFree[..])[old(nextFreeIndex) := false]
      ensures objects[..] == old(objects[..])[old(nextFreeIndex) := x]
      ensures r.Running? <==> exists k :: 0 <= k < isFree.Length && k != old(nextFreeIndex) && old(isFree[k])
      ensures r.Running? ==>
        && Valid() && r.value == old(nextFreeIndex) && old(isFree[nextFreeIndex])
        && forall held :: Next(old(AsState(held)), Op.Allocate, AsState(held + {r.value}))
      ensures r.Stopped? ==> forall held, s' :: !Next(old(AsState(held)), Op.Allocate, s')
    {
      var block := nextFreeIndex;
      objects[block] := x;
      isFree[block] := false;
      var u := UpdateNextFreeIndex();
      assert forall k :: 0 <= k < isFree.Length ==> isFree[..][k] == isFree[k];
      assert forall k :: 0 <= k < isFree.Length && k != block ==> isFree[k] == old(isFree[k]);
      if u.Stopped? {
        return Stopped;
      }
      return Running(block);
    }

    /** deallocate: the process stops on a block that is not of this pool or is free. */
    method Deallocate(elemIndex: int) returns (r: Outcome<()>)
      requires Valid()
      modifies isFree
      ensures r.Running? <==> 0 <= elemIndex < isFree.Length && !old(isFree[elemIndex])
      ensures if r.Running? then isFree[..] == old(isFree[..])[elemIndex := true] else isFree[..] == old(isFree[..])
      ensures r.Running? ==>
        var i: nat := elemIndex;
        forall held :: Next(old(AsState(held)), Op.Deallocate(elemIndex), AsState(held - {i}))
      ensures Valid()
    {
      if !(0 <= elemIndex < isFree.Length) || isFree[elemIndex] {
        return Stopped;
      }
      isFree[elemIndex] := true;
      return Running(());
    }
  }

  // ---------------------------------------------------------------------------------------
  // Histories
  // ---------------------------------------------------------------------------------------

  ghost predicate Run(n: nat, ops: seq<Op>, states: seq<State>) {
    && |states| == |ops| + 1 && Init(n, states[0])
    && forall k :: 0 <= k < |ops| ==> Next(states[k], ops[k], states[k + 1])
  }

  /** Allocations less deallocations: what a caller can count. */
  function Balance(ops: seq<Op>): int {
    if ops == [] then 0 else Balance(ops[..|ops| - 1]) + (if ops[|ops| - 1] == Allocate then 1 else -1)
  }

  ghost predicate Inv(n: nat, s: State) {
    && |s.free| == n > 0 && s.next < n && s.free[s.next]
    && (forall i :: i in s.held ==> i < n)
    && (forall i :: 0 <= i < n ==> (s.free[i] <==> i !in s.held))
  }

  function Upto(n: nat): (s: set<nat>)
    ensures |s| == n && forall i: nat :: i in s <==> i < n
  {
    if n == 0 then {} else Upto(n - 1) + {n - 1}
  }

  /** As many blocks are free as are not held. */
  lemma HeldCount(n: nat, s: State)
    requires |s.free| == n && (forall i :: i in s.held ==> i < n) && (forall i :: 0 <= i < n ==> (s.free[i] <==> i !in s.held))
    ensures |s.held| <= n && (|s.held| == n <==> !SomeFree(s.free))
  {
    SubsetCount(s.held, Upto(n));
    if |s.held| == n {
      forall k | 0 <= k < n ensures !s.free[k] { assert k in Upto(n) && Upto(n) <= s.held; }
    }
    if !SomeFree(s.free) {
      forall k | k in Upto(n) ensures k in s.held { assert !s.free[k]; }
      assert s.held == Upto(n);
    }
  }

  lemma {:induction false} SubsetCount(a: set<nat>, b: set<nat>)
    requires a <= b
    ensures |a| <= |b| && (|a| == |b| ==> a == b)
  {
    if a != {} {
      var x :| x in a;
      SubsetCount(a - {x}, b - {x});
    }
  }

  lemma {:induction false} FirstFreeExists(free: seq<bool>, i: nat) returns (j: nat)
    requires i < |free| && SomeFree(free)
    ensures FirstFree(free, i, j)
  {
    var n := |free|;
    var k :| 0 <= k < n && free[k];
    j := k;
    while exists k :: 0 <= k < n && free[k] && Steps(n, i, k) < Steps(n, i, j)
      invariant j < n && free[j]
      decreases Steps(n, i, j)
    {
      var k :| 0 <= k < n && free[k] && Steps(n, i, k) < Steps(n, i, j);
      j := k;
    }
  }

  lemma NextKeeps(n: nat, s: State, op: Op, s': State)
    requires Inv(n, s) && Next(s, op, s')
    ensures Inv(n, s')
    ensures op.Allocate? ==> s.next !in s.held && |s'.held| == |s.held| + 1
    ensures op.Deallocate? ==> op.index in s.held && |s'.held| == |s.held| - 1
  {
    hide Steps, FirstFree;
    if op.Allocate? { FoundIs(s'.free, s.next, s'.next); }
  }

  lemma FoundIs(free: seq<bool>, i: nat, j: nat)
    requires i < |free| && FirstFree(free, i, j)
    ensures j < |free| && free[j]
  {
  }

  lemma InitHolds(n: nat, s: State)
    requires Init(n, s)
    ensures Inv(n, s) && s.held == {}
  {
  }

  /** The cursor names a block that is not held, so not all of them are. */
  lemma OneLeft(n: nat, s: State)
    requires Inv(n, s)
    ensures |s.held| < n
  {
    assert SomeFree(s.free);
    HeldCount(n, s);
  }

  /** Over every history of a pool of `n` blocks: a block is held exactly if its flag says so,
      no block is handed out while it is held, the number held is the balance of the caller's
      operations, and it stays below `n`. */
  lemma {:induction false} PoolHistory(n: nat, ops: seq<Op>, states: seq<State>)
    requires Run(n, ops, states)
    ensures Inv(n, states[|ops|]) && |states[|ops|].held| == Balance(ops) < n
    ensures forall k :: 0 <= k < |ops| && ops[k].Allocate? ==> states[k].next !in states[k].held && states[k].next in states[k + 1].held
    decreases |ops|
  {
    hide Next, Inv;
    var m := |ops|;
    if m == 0 {
      InitHolds(n, states[0]);
    } else {
      PoolHistory(n, ops[..m - 1], states[..m]);
      NextKeeps(n, states[m - 1], ops[m - 1], states[m]);
      NextHolds(states[m - 1], ops[m - 1], states[m]);
    }
    OneLeft(n, states[m]);
  }

  lemma NextHolds(s: State, op: Op, s': State)
    requires Next(s, op, s')
    ensures op.Allocate? ==> s.next in s'.held
  {
  }

  /** The exact limit: after any history, an allocation goes through if and only if the caller
      holds fewer than `n - 1` blocks, so a pool of `n` sustains `n - 1` live objects; and a
      deallocation does if and only if its block is held. */
  lemma PoolLimit(n: nat, ops: seq<Op>, states: seq<State>, op: Op)
    requires Run(n, ops, states)
    ensures
      (exists s' :: Next(states[|ops|], op, s'))
      <==> if op.Allocate? then Balance(ops) < n - 1 else op.index in states[|ops|].held
  {
    hide Next, Inv;
    PoolHistory(n, ops, states);
    StepLimit(n, states[|ops|], op);
  }

  lemma StepLimit(n: nat, s: State, op: Op)
    requires Inv(n, s)
    ensures (exists s' :: Next(s, op, s')) <==> if op.Allocate? then |s.held| < n - 1 else op.index in s.held
  {
    hide FirstFree;
    match op
    case Allocate =>
      AfterTaking(n, s);
      var taken := s.free[s.next := false];
      if SomeFree(taken) {
        var j := FirstFreeExists(taken, s.next);
        assert Next(s, op, State(taken, j, s.held + {s.next}));
      }
      forall s' | Next(s, op, s') ensures SomeFree(taken) { FoundFree(taken, s.next, s'.next); }
    case Deallocate(i) =>
      if i in s.held { assert Next(s, op, State(s.free[i := true], s.next, s.held - {i})); }
  }

  lemma FoundFree(free: seq<bool>, i: nat, j: nat)
    requires i < |free| && FirstFree(free, i, j)
    ensures SomeFree(free)
  {
  }

  lemma AfterTaking(n: nat, s: State)
    requires Inv(n, s)
    ensures SomeFree(s.free[s.next := false]) <==> |s.held| < n - 1
  {
    HeldCount(n, State(s.free[s.next := false], s.next, s.held + {s.next}));
  }
}
