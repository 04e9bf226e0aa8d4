/** The rings of price levels: what linking a level in and unlinking one out do to them. */
module LevelRings {
  import opened Seqs
  import opened BookSpec
  import opened Ring
  import opened BookStore
  import opened StoreSteps

  /** A price's place among the levels of a side. */
  ghost predicate PlacedAt(levels: Heap<LevelInfo>, s: seq<Ptr>, side: Side, price: Price, i: nat) {
    && i <= |s|
    && (forall k :: 0 <= k < i ==> Better(side, PriceAt(levels, s[k]), price))
    && (forall k :: i <= k < |s| ==> Better(side, price, PriceAt(levels, s[k])))
  }

  lemma SideInsert(levels: Heap<LevelInfo>, levels': Heap<LevelInfo>, s: seq<Ptr>, side: Side, i: nat, n: Ptr)
    requires s != [] && SideOk(levels, s[0], s, side) && n in levels && n !in s && levels[n].val.side == side
    requires PlacedAt(levels, s, side, PriceAt(levels, n), i)
    requires LinkedBefore(levels, levels', if i == |s| then s[0] else s[i], n)
    ensures SideOk(levels', if i == 0 then n else s[0], InsertAt(s, i, n), side)
  {
    assert i <= |s|;
    hide IsRing, LinkedBefore, LevelsSorted, PlacedAt;
    RingMore(levels, levels', s, i, n);
    LinkedVals(levels, levels', if i == |s| then s[0] else s[i], n);
    SortedInsert(levels, levels', s, side, i, n);
    InsertMembersOk(levels, levels', s, side, i, n);
    InsertMove(s, i, n, 0);
    hide InsertAt;
  }

  lemma InsertMembersOk(levels: Heap<LevelInfo>, levels': Heap<LevelInfo>, s: seq<Ptr>, side: Side, i: nat, n: Ptr)
    requires i <= |s| && forall k :: 0 <= k < |s| ==> s[k] in levels && levels[s[k]].val.side == side
    requires n in levels && levels[n].val.side == side
    requires levels'.Keys == levels.Keys && forall l :: l in levels ==> levels'[l].val == levels[l].val
    ensures var s' := InsertAt(s, i, n); forall k :: 0 <= k < |s'| ==> s'[k] in levels' && levels'[s'[k]].val.side == side
  {
    hide InsertAt;
    var s' := InsertAt(s, i, n);
    forall k | 0 <= k < |s'| ensures s'[k] in levels' && levels'[s'[k]].val.side == side { InsertMove(s, i, n, k); }
  }

  lemma RingMore(levels: Heap<LevelInfo>, levels': Heap<LevelInfo>, s: seq<Ptr>, i: nat, n: Ptr)
    requires s != [] && i <= |s| && IsRing(levels, s) && n in levels && n !in s
    requires (if i == |s| then s[0] else s[i]) in levels && LinkedBefore(levels, levels', if i == |s| then s[0] else s[i], n)
    ensures IsRing(levels', InsertAt(s, i, n))
  {
    hide IsRing, LinkedBefore;
    RingInsert(levels, levels', s, if i == |s| then 0 else i, n);
    assert i == |s| ==> InsertAt(s, i, n) == s + [n];
  }

  lemma InsertMove(s: seq<Ptr>, i: nat, n: Ptr, k: nat)
    requires i <= |s|
    ensures |InsertAt(s, i, n)| == |s| + 1
    ensures k <= |s| ==> InsertAt(s, i, n)[k] == if k < i then s[k] else if k == i then n else s[k - 1]
  {
  }

  lemma LinkedVals(levels: Heap<LevelInfo>, levels': Heap<LevelInfo>, t: Ptr, n: Ptr)
    requires t in levels && LinkedBefore(levels, levels', t, n)
    ensures levels'.Keys == levels.Keys && forall l :: l in levels ==> levels'[l].val == levels[l].val
    ensures forall l :: PriceAt(levels', l) == PriceAt(levels, l)
  {
  }

  lemma SortedInsert(levels: Heap<LevelInfo>, levels': Heap<LevelInfo>, s: seq<Ptr>, side: Side, i: nat, n: Ptr)
    requires LevelsSorted(levels, s, side) && PlacedAt(levels, s, side, PriceAt(levels, n), i)
    requires forall l :: PriceAt(levels', l) == PriceAt(levels, l)
    ensures LevelsSorted(levels', InsertAt(s, i, n), side)
  {
    hide Better, PriceAt;
    var s' := InsertAt(s, i, n);
    forall j, k | 0 <= j < k < |s'| ensures Better(side, PriceAt(levels', s'[j]), PriceAt(levels', s'[k])) {
      assert j != i ==> s'[j] == s[if j < i then j else j - 1];
      assert k != i ==> s'[k] == s[if k < i then k else k - 1];
    }
  }

  /** The tables and the other side agree with a level more. */
  lemma LevelsMore(levels: Heap<LevelInfo>, levels': Heap<LevelInfo>, bids: Ptr, asks: Ptr, bids': Ptr, asks': Ptr,
                   table: seq<Ptr>, sb: seq<Ptr>, sa: seq<Ptr>, side: Side, i: nat, n: Ptr)
    requires n in levels && n != NULL && LevelsOk(levels - {n}, bids, asks, table, sb, sa)
    requires levels'.Keys == levels.Keys && forall l :: l in levels ==> levels'[l].val == levels[l].val
    requires |table| == ME_MAX_PRICE_LEVELS && table[IndexOf(PriceAt(levels, n))] == NULL
    requires side == BUY ==> i <= |sb| && SideOk(levels', bids', InsertAt(sb, i, n), BUY) && asks' == asks
    requires side == SELL ==> i <= |sa| && SideOk(levels', asks', InsertAt(sa, i, n), SELL) && bids' == bids
    requires side != INVALID
    requires forall l :: l in (if side == BUY then sa else sb) && l in levels ==> levels'[l] == levels[l]
    ensures
      LevelsOk(levels', bids', asks', table[IndexOf(PriceAt(levels, n)) := n],
               if side == BUY then InsertAt(sb, i, n) else sb, if side == BUY then sa else InsertAt(sa, i, n))
  {
    assert NULL !in levels by { hide SideOk, TableOk; assert NULL !in levels - {n}; }
    hide SideOk, Covers, TableOk, InsertAt, PriceAt, IndexOf;
    SideFrame(levels - {n}, levels', if side == BUY then asks else bids, if side == BUY then sa else sb, Opposite(side));
    CoversMore(levels - {n}, levels', sb, sa, side, i, n);
    TableMore(levels, levels', table, n);
  }

  lemma CoversMore(levels: Heap<LevelInfo>, levels': Heap<LevelInfo>, sb: seq<Ptr>, sa: seq<Ptr>, side: Side, i: nat, n: Ptr)
    requires Covers(levels, sb, sa) && levels'.Keys == levels.Keys + {n} && n != NULL
    requires i <= |(if side == BUY then sb else sa)|
    ensures Covers(levels', if side == BUY then InsertAt(sb, i, n) else sb, if side == BUY then sa else InsertAt(sa, i, n))
  {
    InsertMembers(if side == BUY then sb else sa, i, n);
  }

  lemma InsertMembers(s: seq<Ptr>, i: nat, n: Ptr)
    requires i <= |s|
    ensures forall l :: l in s || l == n ==> l in InsertAt(s, i, n)
  {
    assert InsertAt(s, i, n)[i] == n;
    forall l | l in s ensures l in InsertAt(s, i, n) {
      var k :| 0 <= k < |s| && s[k] == l;
      assert InsertAt(s, i, n)[if k < i then k else k + 1] == l;
    }
  }

  lemma TableMore(levels: Heap<LevelInfo>, levels': Heap<LevelInfo>, table: seq<Ptr>, n: Ptr)
    requires n in levels && n != NULL && TableOk(levels - {n}, table) && table[IndexOf(PriceAt(levels, n))] == NULL
    requires levels'.Keys == levels.Keys && forall l :: l in levels ==> levels'[l].val == levels[l].val
    requires NULL !in levels
    ensures TableOk(levels', table[IndexOf(PriceAt(levels, n)) := n])
  {
    var table' := table[IndexOf(PriceAt(levels, n)) := n];
    forall l | l in levels' ensures table'[IndexOf(PriceAt(levels', l))] == l {
      if l != n { assert l in levels - {n} && PriceAt(levels - {n}, l) == PriceAt(levels', l); }
    }
    forall i | 0 <= i < |table'| && table'[i] != NULL
      ensures table'[i] in levels' && IndexOf(PriceAt(levels', table'[i])) == i
    {
      if i != IndexOf(PriceAt(levels, n)) { assert table[i] in levels - {n} && PriceAt(levels - {n}, table[i]) == PriceAt(levels', table[i]); }
    }
  }

  /** A side stays one when a level is added to the pool. */
  lemma SideAmongMore(levels: Heap<LevelInfo>, head: Ptr, s: seq<Ptr>, side: Side, n: Ptr)
    requires n in levels && SideOk(levels - {n}, head, s, side)
    ensures SideOk(levels, head, s, side) && n !in s && forall l :: l in s ==> l in levels
  {
    SideFrame(levels - {n}, levels, head, s, side);
    hide LevelsSorted, IsRing;
  }

  /** A level linked in at its place among others. */
  lemma LevelLinked(levels: Heap<LevelInfo>, levels': Heap<LevelInfo>, bids: Ptr, asks: Ptr, bids': Ptr, asks': Ptr,
                    table: seq<Ptr>, sb: seq<Ptr>, sa: seq<Ptr>, side: Side, i: nat, n: Ptr)
    requires n in levels && n != NULL && LevelsOk(levels - {n}, bids, asks, table, sb, sa)
    requires side != INVALID && levels[n].val.side == side
    requires |table| == ME_MAX_PRICE_LEVELS && table[IndexOf(PriceAt(levels, n))] == NULL
    requires (if side == BUY then sb else sa) != [] && PlacedAt(levels, if side == BUY then sb else sa, side, PriceAt(levels, n), i)
    requires
      var s := if side == BUY then sb else sa;
      var t := if i == |s| then s[0] else s[i];
      t in levels && levels[t].prev in s && LinkedBefore(levels, levels', t, n)
    requires bids' == (if side == BUY && i == 0 then n else bids) && asks' == (if side == SELL && i == 0 then n else asks)
    ensures
      LevelsOk(levels', bids', asks', table[IndexOf(PriceAt(levels, n)) := n],
               if side == BUY then InsertAt(sb, i, n) else sb, if side == BUY then sa else InsertAt(sa, i, n))
  {
    var s := if side == BUY then sb else sa;
    var t := if i == |s| then s[0] else s[i];
    hide IsRing, LevelsSorted, Covers, TableOk, PlacedAt, Better;
    SideAmongMore(levels, bids, sb, BUY, n);
    SideAmongMore(levels, asks, sa, SELL, n);
    LinkedVals(levels, levels', t, n);
    SideInsert(levels, levels', s, side, i, n);
    LinkedElsewhere(levels, levels', bids, asks, sb, sa, side, t, n);
    hide SideOk, LinkedBefore, InsertAt, IndexOf, PriceAt;
    LevelsMore(levels, levels', bids, asks, bids', asks', table, sb, sa, side, i, n);
  }

  lemma LinkedElsewhere(levels: Heap<LevelInfo>, levels': Heap<LevelInfo>, bids: Ptr, asks: Ptr, sb: seq<Ptr>, sa: seq<Ptr>, side: Side, t: Ptr, n: Ptr)
    requires side != INVALID && SideOk(levels, bids, sb, BUY) && SideOk(levels, asks, sa, SELL)
    requires n !in sb && n !in sa && t in levels && t in (if side == BUY then sb else sa) && levels[t].prev in (if side == BUY then sb else sa)
    requires LinkedBefore(levels, levels', t, n)
    ensures forall l :: l in (if side == BUY then sa else sb) && l in levels ==> l in levels' && levels'[l] == levels[l]
  {
    hide IsRing, LevelsSorted;
  }

  lemma AloneOk(levels: Heap<LevelInfo>, n: Ptr, side: Side)
    requires n in levels && levels[n].val.side == side && levels[n].prev == n == levels[n].next
    ensures SideOk(levels, n, InsertAt([], 0, n), side)
  {
  }

  /** The first level of a side. */
  lemma LevelAlone(levels: Heap<LevelInfo>, levels': Heap<LevelInfo>, bids: Ptr, asks: Ptr, bids': Ptr, asks': Ptr,
                   table: seq<Ptr>, sb: seq<Ptr>, sa: seq<Ptr>, side: Side, n: Ptr)
    requires n in levels && n != NULL && LevelsOk(levels - {n}, bids, asks, table, sb, sa)
    requires side != INVALID && levels[n].val.side == side
    requires |table| == ME_MAX_PRICE_LEVELS && table[IndexOf(PriceAt(levels, n))] == NULL
    requires (if side == BUY then sb else sa) == []
    requires levels' == levels[n := levels[n].(prev := n, next := n)]
    requires bids' == (if side == BUY then n else bids) && asks' == (if side == SELL then n else asks)
    ensures
      LevelsOk(levels', bids', asks', table[IndexOf(PriceAt(levels, n)) := n],
               if side == BUY then InsertAt(sb, 0, n) else sb, if side == BUY then sa else InsertAt(sa, 0, n))
  {
    AloneOk(levels', n, side);
    hide Covers, TableOk, Better, SideOk, InsertAt;
    SideAmongMore(levels, bids, sb, BUY, n);
    SideAmongMore(levels, asks, sa, SELL, n);
    LevelsMore(levels, levels', bids, asks, bids', asks', table, sb, sa, side, 0, n);
  }

  // ---------------------------------------------------------------------------------------
  // A level less
  // ---------------------------------------------------------------------------------------

  lemma SideRemove(levels: Heap<LevelInfo>, levels': Heap<LevelInfo>, s: seq<Ptr>, side: Side, i: nat)
    requires i < |s| && SideOk(levels, s[0], s, side) && |s| > 1 && s[i] in levels
    requires Unlinked(levels, levels', s[i])
    ensures SideOk(levels', if i == 0 then s[1] else s[0], DropAt(s, i), side)
  {
    hide Unlinked, IsRing, LevelsSorted;
    RingDrop(levels, levels', s, i);
    assert Distinct(s) by { RingDistinctAny(levels, s); }
    DropMoves(s, i);
    hide Distinct, DropAt;
    var s' := DropAt(s, i);
    assert |s'| == |s| - 1 by { DropLength(s, i); }
    forall k | 0 <= k < |s'|
      ensures s'[k] in levels' && levels'[s'[k]].val.side == side && PriceAt(levels', s'[k]) == PriceAt(levels, s'[k])
    {
      UnlinkedAt(levels, levels', s[i], s'[k]);
    }
    SortedSub(levels, levels', s, s', side, i);
  }

  lemma DropLength(s: seq<Ptr>, i: nat)
    requires i < |s|
    ensures |DropAt(s, i)| == |s| - 1 && (|s| > 1 ==> DropAt(s, i)[0] == if i == 0 then s[1] else s[0])
  {
  }

  lemma RingDistinctAny(levels: Heap<LevelInfo>, s: seq<Ptr>)
    requires IsRing(levels, s)
    ensures Distinct(s)
  {
  }

  lemma UnlinkedAt(levels: Heap<LevelInfo>, levels': Heap<LevelInfo>, l: Ptr, q: Ptr)
    requires l in levels && Unlinked(levels, levels', l) && q in levels && q != l
    ensures q in levels' && levels'[q].val == levels[q].val
  {
  }

  lemma SortedSub(levels: Heap<LevelInfo>, levels': Heap<LevelInfo>, s: seq<Ptr>, s': seq<Ptr>, side: Side, i: nat)
    requires LevelsSorted(levels, s, side) && |s'| < |s|
    requires forall k :: 0 <= k < |s'| ==> s'[k] == s[OldIndex(i, k)] && PriceAt(levels', s'[k]) == PriceAt(levels, s'[k])
    ensures LevelsSorted(levels', s', side)
  {
    hide Better, PriceAt;
    forall j, k | 0 <= j < k < |s'| ensures Better(side, PriceAt(levels', s'[j]), PriceAt(levels', s'[k])) {
      assert s'[j] == s[OldIndex(i, j)] && s'[k] == s[OldIndex(i, k)];
    }
  }

  lemma LevelsFewer(levels: Heap<LevelInfo>, levels': Heap<LevelInfo>, bids: Ptr, asks: Ptr, bids': Ptr, asks': Ptr,
                    table: seq<Ptr>, sb: seq<Ptr>, sa: seq<Ptr>, side: Side, i: nat, l: Ptr)
    requires LevelsOk(levels, bids, asks, table, sb, sa) && l in levels && side != INVALID
    requires levels'.Keys == levels.Keys - {l} && forall q :: q in levels' && q in levels ==> levels'[q].val == levels[q].val
    requires |table| == ME_MAX_PRICE_LEVELS
    requires side == BUY ==> i < |sb| && sb[i] == l && SideOk(levels', bids', DropAt(sb, i), BUY) && asks' == asks
    requires side == SELL ==> i < |sa| && sa[i] == l && SideOk(levels', asks', DropAt(sa, i), SELL) && bids' == bids
    requires forall q :: q in (if side == BUY then sa else sb) ==> q in levels' && q in levels && levels'[q] == levels[q]
    ensures
      LevelsOk(levels', bids', asks', table[IndexOf(PriceAt(levels, l)) := NULL],
               if side == BUY then DropAt(sb, i) else sb, if side == BUY then sa else DropAt(sa, i))
  {
    hide LevelsSorted, Covers, TableOk;
    var own := if side == BUY then sb else sa;
    assert Distinct(own);
    DropDistinct(own, i);
    SideFrame(levels, levels', if side == BUY then asks else bids, if side == BUY then sa else sb, Opposite(side));
    hide SideOk, Distinct;
    assert Covers(levels', if side == BUY then DropAt(sb, i) else sb, if side == BUY then sa else DropAt(sa, i)) by {
      CoversFewer(levels, levels', sb, sa, if side == BUY then DropAt(sb, i) else sb, if side == BUY then sa else DropAt(sa, i), l);
    }
    assert TableOk(levels', table[IndexOf(PriceAt(levels, l)) := NULL]) by { TableFewer(levels, levels', table, l); }
  }

  lemma CoversFewer(levels: Heap<LevelInfo>, levels': Heap<LevelInfo>, sb: seq<Ptr>, sa: seq<Ptr>, sb': seq<Ptr>, sa': seq<Ptr>, l: Ptr)
    requires Covers(levels, sb, sa) && levels'.Keys == levels.Keys - {l}
    requires forall q :: q in sb && q != l ==> q in sb'
    requires forall q :: q in sa && q != l ==> q in sa'
    ensures Covers(levels', sb', sa')
  {
  }

  lemma TableFewer(levels: Heap<LevelInfo>, levels': Heap<LevelInfo>, table: seq<Ptr>, l: Ptr)
    requires TableOk(levels, table) && l in levels
    requires levels'.Keys == levels.Keys - {l} && forall q :: q in levels' && q in levels ==> levels'[q].val == levels[q].val
    ensures TableOk(levels', table[IndexOf(PriceAt(levels, l)) := NULL])
  {
    var table' := table[IndexOf(PriceAt(levels, l)) := NULL];
    forall q | q in levels' ensures table'[IndexOf(PriceAt(levels', q))] == q {
      assert q in levels && PriceAt(levels', q) == PriceAt(levels, q);
    }
    forall i | 0 <= i < |table'| && table'[i] != NULL
      ensures table'[i] in levels' && IndexOf(PriceAt(levels', table'[i])) == i
    {
      assert table[i] in levels && PriceAt(levels, table[i]) == PriceAt(levels', table[i]);
    }
  }

  // ---------------------------------------------------------------------------------------
  // The ring that is linked wrongly
  // ---------------------------------------------------------------------------------------

  /** Once the head of the asks is a level whose next one is the old second best, no reading
      of the links is a sorted side with every level on it: the old best is lost to it. */
  lemma AsksBroken(levels: Heap<LevelInfo>, bids: Ptr, n: Ptr, table: seq<Ptr>, second: Ptr, best: Ptr, sb: seq<Ptr>, sa: seq<Ptr>)
    requires n != NULL && n in levels && levels[n].next == second
    requires best in levels && levels[best].val.side == SELL && second in levels
    requires best != n && second != n && second != best
    requires PriceAt(levels, best) < PriceAt(levels, second)
    ensures !LevelsOk(levels, bids, n, table, sb, sa)
  {
    hide TableOk;
    if LevelsOk(levels, bids, n, table, sb, sa) { assert false; }
  }
}
