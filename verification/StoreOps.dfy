/** Each operation on the store, seen from the book: what it inserts, removes and refills. */
module StoreOps {
  import opened Seqs
  import opened BookSpec
  import opened Ring
  import opened BookStore
  import opened StoreLaws
  import opened StoreSteps
  import opened LevelRings

  /** The other side has none of a side's levels. */
  lemma OtherSide(st: Store, sh: Shape, l: Ptr)
    requires Good(st, sh) && l in st.levels && st.levels[l].val.side != INVALID
    ensures l !in LevelsOf(sh, Opposite(st.levels[l].val.side))
  {
    hide IsRing, LevelsSorted, QueuesOk, OrdersOk, SlotsOk, Covers, TableOk;
  }

  lemma SideDistinct(st: Store, sh: Shape, side: Side)
    requires Good(st, sh) && side != INVALID
    ensures Distinct(LevelsOf(sh, side))
  {
    hide LevelsSorted, QueuesOk, OrdersOk, SlotsOk, Covers, TableOk;
  }

  lemma FlatOther(queues: map<Ptr, seq<Ptr>>, queues': map<Ptr, seq<Ptr>>, s: seq<Ptr>, l: Ptr)
    requires l !in s && forall l' :: l' != l ==> QueueAt(queues', l') == QueueAt(queues, l')
    ensures Flat(queues', s) == Flat(queues, s)
  {
    FlatFrame(queues, queues', s);
  }

  lemma AppendKeeps(st: Store, sh: Shape, orders': Heap<Order>, l: Ptr, p: Ptr, o: Order)
    requires Good(st, sh) && l in st.levels && st.levels[l].val.side != INVALID
    requires Queued(st.orders, orders', p, o, st.levels[l].val.first)
    requires o.side == st.levels[l].val.side && o.price == PriceAt(st.levels, l)
    requires o.priority == NextPriority(SideOf(Abs(st, sh), o.side), o.side, o.price)
    requires KeyOf(o) !in st.slots
    ensures l in sh.queues
    ensures Good(st.(orders := orders', slots := st.slots[KeyOf(o) := p]), sh.(queues := sh.queues[l := sh.queues[l] + [p]]))
    ensures
      Abs(st.(orders := orders', slots := st.slots[KeyOf(o) := p]), sh.(queues := sh.queues[l := sh.queues[l] + [p]]))
        == WithSide(Abs(st, sh), o.side, Insert(SideOf(Abs(st, sh), o.side), o))
  {
    hide LevelsOk, QueuesOk, OrdersOk, SlotsOk, Queued, Abs, Flat, NextPriority, Place, WithSide, SideOf, Distinct;
    var side, i := LevelPlace(st, sh, l);
    PlaceInLevel(st, sh, l, i);
    AppendGood(st, sh, orders', l, p, o);
    QueuedVals(st.orders, orders', p, o, st.levels[l].val.first);
    var sh' := sh.(queues := sh.queues[l := sh.queues[l] + [p]]);
    SideDistinct(st, sh, side);
    FlatAppend(sh.queues, LevelsOf(sh, side), i, p);
    OtherSide(st, sh, l);
    FlatOther(sh.queues, sh'.queues, LevelsOf(sh, Opposite(side)), l);
    InsertAbs(st, st.(orders := orders', slots := st.slots[KeyOf(o) := p]), sh, sh', side,
              |Flat(sh.queues, LevelsOf(sh, side)[..i + 1])|, p, o);
  }

  lemma NewLevelKeeps(st: Store, st': Store, sh: Shape, sh': Shape, l: Ptr, p: Ptr, o: Order, i: nat)
    requires Good(st, sh) && p !in st.orders && p != NULL && l !in st.levels && KeyOf(o) !in st.slots && o.side != INVALID
    requires st'.orders == st.orders[p := Node(o, p, p)] && st'.slots == st.slots[KeyOf(o) := p]
    requires st'.levels.Keys == st.levels.Keys + {l} && st'.levels[l].val == LevelInfo(o.side, o.price, p)
    requires forall l' :: l' in st.levels ==> st'.levels[l'].val == st.levels[l'].val
    requires st.priceTable[IndexOf(o.price)] == NULL && st'.priceTable == st.priceTable[IndexOf(o.price) := l]
    requires LevelsOk(st'.levels, st'.bids, st'.asks, st'.priceTable, sh'.bids, sh'.asks)
    requires PlacedAt(st.levels, LevelsOf(sh, o.side), o.side, o.price, i)
    requires LevelsOf(sh', o.side) == InsertAt(LevelsOf(sh, o.side), i, l)
    requires LevelsOf(sh', Opposite(o.side)) == LevelsOf(sh, Opposite(o.side))
    requires sh'.queues == sh.queues[l := [p]]
    ensures Good(st', sh')
    ensures Abs(st', sh') == WithSide(Abs(st, sh), o.side, Insert(SideOf(Abs(st, sh), o.side), o))
  {
    hide LevelsOk, QueuesOk, OrdersOk, SlotsOk, Abs, Flat, Place, WithSide, SideOf, PlacedAt, Better;
    assert i <= |LevelsOf(sh, o.side)| by { PlacedIn(st.levels, LevelsOf(sh, o.side), o.side, o.price, i); }
    NewLevelGood(st, st', sh, sh', l, p, o);
    NewLevelPlace(st, sh, o, i);
    NotListed(st, sh, l);
    FlatInsertLevel(sh.queues, LevelsOf(sh, o.side), i, l, p);
    FlatOther(sh.queues, sh'.queues, LevelsOf(sh, Opposite(o.side)), l);
    InsertAbs(st, st', sh, sh', o.side, |Flat(sh.queues, LevelsOf(sh, o.side)[..i])|, p, o);
  }

  lemma PlacedIn(levels: Heap<LevelInfo>, s: seq<Ptr>, side: Side, price: Price, i: nat)
    requires PlacedAt(levels, s, side, price, i)
    ensures i <= |s|
  {
  }

  lemma NewLevelPlace(st: Store, sh: Shape, o: Order, i: nat)
    requires Good(st, sh) && o.side != INVALID && PlacedAt(st.levels, LevelsOf(sh, o.side), o.side, o.price, i)
    ensures |Flat(sh.queues, LevelsOf(sh, o.side)[..i])| <= |SideOf(Abs(st, sh), o.side)|
    ensures Place(SideOf(Abs(st, sh), o.side), o.side, o.price) == |Flat(sh.queues, LevelsOf(sh, o.side)[..i])|
  {
    hide Good, Abs, Flat, Place;
    PlaceAtLevel(st, sh, o.side, o.price, i);
  }

  lemma NotListed(st: Store, sh: Shape, l: Ptr)
    requires Good(st, sh) && l !in st.levels
    ensures l !in sh.bids && l !in sh.asks && l !in sh.queues
  {
    hide LevelsSorted, OrdersOk, SlotsOk, TableOk;
  }

  lemma DropOrderKeeps(st: Store, st': Store, sh: Shape, l: Ptr, i: nat, j: nat)
    requires Good(st, sh) && l in st.levels && l in sh.queues && j < |sh.queues[l]| && |sh.queues[l]| > 1
    requires st.levels[l].val.side != INVALID
    requires i < |LevelsOf(sh, st.levels[l].val.side)| && LevelsOf(sh, st.levels[l].val.side)[i] == l
    requires sh.queues[l][j] in st.orders
    requires st'.orders.Keys == st.orders.Keys - {sh.queues[l][j]} && Unlinked(st.orders, st'.orders, sh.queues[l][j])
    requires st'.levels == st.levels[l := st.levels[l].(val := st.levels[l].val.(first := if j == 0 then sh.queues[l][1] else sh.queues[l][0]))]
    requires st'.slots == st.slots - {KeyOf(st.orders[sh.queues[l][j]].val)}
    requires st'.bids == st.bids && st'.asks == st.asks && st'.priceTable == st.priceTable
    ensures
      var side, k := st.levels[l].val.side, |Flat(sh.queues, LevelsOf(sh, st.levels[l].val.side)[..i])| + j;
      var sh' := sh.(queues := sh.queues[l := DropAt(sh.queues[l], j)]);
      && Good(st', sh')
      && k < |SideOf(Abs(st, sh), side)| && Abs(st', sh') == WithSide(Abs(st, sh), side, DropAt(SideOf(Abs(st, sh), side), k))
  {
    hide LevelsOk, QueuesOk, OrdersOk, SlotsOk, Abs, Flat, WithSide, SideOf, Distinct, Unlinked, DropAt;
    var side := st.levels[l].val.side;
    var sh' := sh.(queues := sh.queues[l := DropAt(sh.queues[l], j)]);
    DropOrderGood(st, st', sh, l, j);
    UnlinkedVals(st.orders, st'.orders, sh.queues[l][j]);
    SideDistinct(st, sh, side);
    FlatDrop(sh.queues, LevelsOf(sh, side), i, j);
    OtherSide(st, sh, l);
    FlatOther(sh.queues, sh'.queues, LevelsOf(sh, Opposite(side)), l);
    DropAbs(st, st', sh, sh', side, |Flat(sh.queues, LevelsOf(sh, side)[..i])| + j, sh.queues[l][j]);
  }

  lemma DropLevelKeeps(st: Store, st': Store, sh: Shape, sh': Shape, l: Ptr, i: nat, p: Ptr)
    requires Good(st, sh) && l in st.levels && l in sh.queues && sh.queues[l] == [p] && p in st.orders
    requires st.levels[l].val.side != INVALID
    requires i < |LevelsOf(sh, st.levels[l].val.side)| && LevelsOf(sh, st.levels[l].val.side)[i] == l
    requires st'.orders == st.orders - {p} && st'.slots == st.slots - {KeyOf(st.orders[p].val)}
    requires st'.levels.Keys == st.levels.Keys - {l}
    requires forall l' :: l' in st'.levels && l' in st.levels ==> st'.levels[l'].val == st.levels[l'].val
    requires st'.priceTable == st.priceTable[IndexOf(st.orders[p].val.price) := NULL]
    requires LevelsOk(st'.levels, st'.bids, st'.asks, st'.priceTable, sh'.bids, sh'.asks)
    requires LevelsOf(sh', st.levels[l].val.side) == DropAt(LevelsOf(sh, st.levels[l].val.side), i)
    requires LevelsOf(sh', Opposite(st.levels[l].val.side)) == LevelsOf(sh, Opposite(st.levels[l].val.side))
    requires sh'.queues == sh.queues - {l}
    ensures
      var side, k := st.levels[l].val.side, |Flat(sh.queues, LevelsOf(sh, st.levels[l].val.side)[..i])|;
      && Good(st', sh')
      && k < |SideOf(Abs(st, sh), side)| && Abs(st', sh') == WithSide(Abs(st, sh), side, DropAt(SideOf(Abs(st, sh), side), k))
  {
    hide LevelsOk, QueuesOk, OrdersOk, SlotsOk, Abs, Flat, WithSide, SideOf, Distinct, DropAt;
    DropLevelGood(st, st', sh, sh', l, p);
    var side := st.levels[l].val.side;
    SideDistinct(st, sh, side);
    FlatDropLevel(sh.queues, LevelsOf(sh, side), i);
    OtherSide(st, sh, l);
    FlatOther(sh.queues, sh'.queues, LevelsOf(sh, Opposite(side)), l);
    DropAbs(st, st', sh, sh', side, |Flat(sh.queues, LevelsOf(sh, side)[..i])|, p);
  }
}
