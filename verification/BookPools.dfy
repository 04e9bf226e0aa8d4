/** The block pools as their clients see them: pointers to blocks, of which a client holds
    some.  A pointer is one more than the index of its block. */
module BookPools {
  import opened MemPool
  import opened Ring

  function Blocks(ptrs: set<Ptr>): (r: set<nat>)
    ensures forall i: nat :: i in r <==> i + 1 in ptrs
  {
    set p | p in ptrs && p != NULL :: p - 1
  }

  /** Of a pool of `n` blocks exactly these are handed out. */
  ghost predicate Holds(pool: Pool<()>, ptrs: set<Ptr>, n: nat)
    reads pool, pool.isFree
  {
    pool.Valid() && NULL !in ptrs && Inv(n, pool.AsState(Blocks(ptrs)))
  }

  lemma NothingHeld(pool: Pool<()>, n: nat)
    requires pool.Valid() && pool.isFree[..] == seq(n, _ => true)
    ensures Holds(pool, {}, n)
  {
    assert Blocks({}) == {};
    assert |pool.isFree[..]| == n;
  }

  lemma {:induction false} BlockCount(ptrs: set<Ptr>)
    requires NULL !in ptrs
    ensures |Blocks(ptrs)| == |ptrs|
  {
    if ptrs != {} {
      var p :| p in ptrs;
      BlockCount(ptrs - {p});
      var block: nat := p - 1;
      assert Blocks(ptrs) == Blocks(ptrs - {p}) + {block};
    }
  }

  /** A fresh block; the process stops exactly if the client holds all but one already. */
  method Obtain(pool: Pool<()>, ghost ptrs: set<Ptr>, ghost n: nat) returns (r: Outcome<Ptr>)
    requires Holds(pool, ptrs, n)
    modifies pool, pool.objects, pool.isFree
    ensures r.Running? <==> |ptrs| < n - 1
    ensures r.Running? ==> r.value != NULL && r.value !in ptrs && Holds(pool, ptrs + {r.value}, n)
  {
    hide FirstFree, SomeFree;
    ghost var s0 := pool.AsState(Blocks(ptrs));
    BlockCount(ptrs);
    StepLimit(n, s0, Op.Allocate);
    var block := pool.Allocate(());
    match block
    case Stopped =>
      r := Stopped;
    case Running(i) =>
      r := Running(i + 1);
      ghost var s1 := pool.AsState(Blocks(ptrs) + {i});
      NextKeeps(n, s0, Op.Allocate, s1);
      assert Blocks(ptrs + {i + 1}) == Blocks(ptrs) + {i};
  }

  /** A block given back; that it was handed out is what the pool asserts. */
  method Release(pool: Pool<()>, p: Ptr, ghost ptrs: set<Ptr>, ghost n: nat)
    requires Holds(pool, ptrs, n) && p in ptrs
    modifies pool.isFree
    ensures Holds(pool, ptrs - {p}, n)
  {
    ghost var s0 := pool.AsState(Blocks(ptrs));
    var block: nat := p - 1;
    assert block in Blocks(ptrs);
    var r := pool.Deallocate(block);
    assert r.Running?;
    NextKeeps(n, s0, Op.Deallocate(block), pool.AsState(Blocks(ptrs) - {block}));
    assert Blocks(ptrs - {p}) == Blocks(ptrs) - {block};
  }

  /** A client never holds all the blocks of a pool. */
  lemma HoldsBelow(pool: Pool<()>, ptrs: set<Ptr>, n: nat)
    requires Holds(pool, ptrs, n)
    ensures |ptrs| < n
  {
    BlockCount(ptrs);
    OneLeft(n, pool.AsState(Blocks(ptrs)));
  }
}
