/** What the writes of each operation do to a store that holds together, and to the book it
    represents. */
module StoreSteps {
  import opened Seqs
  import opened BookSpec
  import opened Ring
  import opened BookStore
  import opened StoreLaws

  lemma QueueOf(st: Store, sh: Shape, l: Ptr)
    requires Good(st, sh) && l in st.levels
    ensures l in sh.queues && QueueOk(st.orders, st.levels[l].val, sh.queues[l]) && |st.priceTable| == ME_MAX_PRICE_LEVELS
  {
  }

  /** A live order stands in one queue only. */
  lemma QueuesDisjoint(st: Store, sh: Shape, l: Ptr, l': Ptr, p: Ptr)
    requires Good(st, sh) && l in st.levels && l' in st.levels
    requires p in QueueAt(sh.queues, l) && p in QueueAt(sh.queues, l')
    ensures l == l'
  {
    hide OrdersOk, SlotsOk, SideOk, Covers, IsRing;
    QueueOf(st, sh, l);
    QueueOf(st, sh, l');
    TableUnique(st, sh, l, l');
  }

  lemma TableUnique(st: Store, sh: Shape, l: Ptr, l': Ptr)
    requires Good(st, sh) && l in st.levels && l' in st.levels && PriceAt(st.levels, l) == PriceAt(st.levels, l')
    ensures l == l'
  {
    hide OrdersOk, SlotsOk, SideOk, Covers, QueuesOk;
  }

  /** Only the links and the side and price of a level matter to its side. */
  lemma LevelsFrame(levels: Heap<LevelInfo>, levels': Heap<LevelInfo>, bids: Ptr, asks: Ptr, table: seq<Ptr>, sb: seq<Ptr>, sa: seq<Ptr>)
    requires LevelsOk(levels, bids, asks, table, sb, sa)
    requires levels'.Keys == levels.Keys
    requires forall l :: l in levels ==> levels'[l] == levels[l].(val := levels[l].val.(first := levels'[l].val.first))
    ensures LevelsOk(levels', bids, asks, table, sb, sa)
  {
    SideFrame(levels, levels', bids, sb, BUY);
    SideFrame(levels, levels', asks, sa, SELL);
    hide SideOk;
    assert Covers(levels', sb, sa);
    assert TableOk(levels', table);
  }

  lemma SideFrame(levels: Heap<LevelInfo>, levels': Heap<LevelInfo>, head: Ptr, s: seq<Ptr>, side: Side)
    requires SideOk(levels, head, s, side)
    requires forall l :: l in s && l in levels ==> l in levels' && levels'[l] == levels[l].(val := levels[l].val.(first := levels'[l].val.first))
    ensures SideOk(levels', head, s, side)
  {
    assert IsRing(levels', s) by { RingFrame(levels, levels', s); }
    hide IsRing;
    forall i | 0 <= i < |s| ensures s[i] in levels' && levels'[s[i]].val.side == side && PriceAt(levels', s[i]) == PriceAt(levels, s[i]) {
      assert s[i] in s;
    }
    assert LevelsSorted(levels', s, side) by { SortedFrame(levels, levels', s, side); }
  }

  lemma SortedFrame(levels: Heap<LevelInfo>, levels': Heap<LevelInfo>, s: seq<Ptr>, side: Side)
    requires LevelsSorted(levels, s, side)
    requires forall i :: 0 <= i < |s| ==> PriceAt(levels', s[i]) == PriceAt(levels, s[i])
    ensures LevelsSorted(levels', s, side)
  {
    hide Better, PriceAt;
  }

  lemma QueueFrame(orders: Heap<Order>, orders': Heap<Order>, info: LevelInfo, q: seq<Ptr>)
    requires QueueOk(orders, info, q)
    requires forall p :: p in q ==> p in orders' && p in orders && orders'[p].next == orders[p].next && orders'[p].prev == orders[p].prev
    requires forall p :: p in q ==> p in orders' && p in orders && orders'[p].val == orders[p].val.(qty := orders'[p].val.qty)
    ensures QueueOk(orders', info, q)
  {
    hide IsRing, Rising;
    RingFrame(orders, orders', q);
    RisingFrame(orders, orders', q);
  }

  lemma RisingFrame(orders: Heap<Order>, orders': Heap<Order>, q: seq<Ptr>)
    requires Rising(orders, q)
    requires forall p :: p in q ==> p in orders && p in orders' && orders'[p].val.priority == orders[p].val.priority
    ensures Rising(orders', q)
  {
  }

  // ---------------------------------------------------------------------------------------
  // A fill
  // ---------------------------------------------------------------------------------------

  function Refilled(orders: Heap<Order>, p: Ptr, qty: Qty): Heap<Order>
    requires p in orders
  {
    orders[p := orders[p].(val := orders[p].val.(qty := qty))]
  }

  lemma FillGood(st: Store, sh: Shape, p: Ptr, qty: Qty)
    requires Good(st, sh) && p in st.orders
    ensures Good(st.(orders := Refilled(st.orders, p, qty)), sh)
  {
    hide LevelsOk, QueuesOk, OrdersOk, SlotsOk;
    FillQueues(st.orders, st.levels, sh.queues, p, qty);
    assert OrdersOk(Refilled(st.orders, p, qty), st.priceTable, sh.queues) by { FillOrders(st.orders, st.priceTable, sh.queues, p, qty); }
    assert SlotsOk(Refilled(st.orders, p, qty), st.slots) by { FillSlots(st.orders, st.slots, p, qty); }
  }

  lemma FillQueues(orders: Heap<Order>, levels: Heap<LevelInfo>, queues: map<Ptr, seq<Ptr>>, p: Ptr, qty: Qty)
    requires QueuesOk(orders, levels, queues) && p in orders
    ensures QueuesOk(Refilled(orders, p, qty), levels, queues)
  {
    hide IsRing;
    forall l | l in levels ensures QueueOk(Refilled(orders, p, qty), levels[l].val, queues[l]) {
      QueueFrame(orders, Refilled(orders, p, qty), levels[l].val, queues[l]);
    }
  }

  lemma FillOrders(orders: Heap<Order>, table: seq<Ptr>, queues: map<Ptr, seq<Ptr>>, p: Ptr, qty: Qty)
    requires OrdersOk(orders, table, queues) && p in orders
    ensures OrdersOk(Refilled(orders, p, qty), table, queues)
  {
  }

  lemma FillSlots(orders: Heap<Order>, slots: map<(ClientId, OrderId), Ptr>, p: Ptr, qty: Qty)
    requires SlotsOk(orders, slots) && p in orders
    ensures SlotsOk(Refilled(orders, p, qty), slots)
  {
  }

  lemma FillAbs(st: Store, sh: Shape, p: Ptr, qty: Qty, side: Side, k: nat)
    requires Good(st, sh) && side != INVALID && p in st.orders
    requires k < |SideOf(Abs(st, sh), side)| && SideOf(Abs(st, sh), side)[k] == st.orders[p].val
    ensures
      Abs(st.(orders := Refilled(st.orders, p, qty)), sh)
        == WithSide(Abs(st, sh), side, SideOf(Abs(st, sh), side)[k := st.orders[p].val.(qty := qty)])
  {
    hide IsRing, Abs, LevelsOk, QueuesOk, OrdersOk, SlotsOk;
    var st' := st.(orders := Refilled(st.orders, p, qty));
    FillSide(st, sh, p, qty, side);
    FillSide(st, sh, p, qty, Opposite(side));
    FillAway(st, sh, p, side, k);
  }

  /** The value at each index of a side after a fill. */
  lemma FillSide(st: Store, sh: Shape, p: Ptr, qty: Qty, side: Side)
    requires Good(st, sh) && side != INVALID && p in st.orders
    ensures
      var b, b' := SideOf(Abs(st, sh), side), SideOf(Abs(st.(orders := Refilled(st.orders, p, qty)), sh), side);
      && |b'| == |b|
      && forall x :: 0 <= x < |b| ==> b'[x] == if b[x] == st.orders[p].val then b[x].(qty := qty) else b[x]
  {
    hide LevelsOk, QueuesOk, OrdersOk, SlotsOk, Flat, ValAt;
    var b, b' := SideOf(Abs(st, sh), side), SideOf(Abs(st.(orders := Refilled(st.orders, p, qty)), sh), side);
    forall x | 0 <= x < |b| ensures b'[x] == if b[x] == st.orders[p].val then b[x].(qty := qty) else b[x] {
      FillPoint(st, sh, p, qty, side, x);
    }
  }

  lemma FillPoint(st: Store, sh: Shape, p: Ptr, qty: Qty, side: Side, x: nat)
    requires Good(st, sh) && side != INVALID && p in st.orders && x < |SideOf(Abs(st, sh), side)|
    ensures
      var b, b' := SideOf(Abs(st, sh), side), SideOf(Abs(st.(orders := Refilled(st.orders, p, qty)), sh), side);
      x < |b'| && b'[x] == if b[x] == st.orders[p].val then b[x].(qty := qty) else b[x]
  {
    hide IsRing, QueuesOk, OrdersOk, SideOk, Covers, TableOk;
    var i, j, l := OrderAt(st, sh, side, x);
    var p' := sh.queues[l][j];
    assert p' != p ==> st.orders[p'].val != st.orders[p].val by { hide Flat; }
    hide Flat, Good, SlotsOk;
    ValsAt(st, sh, side, x, p');
    ValsAt(st.(orders := Refilled(st.orders, p, qty)), sh, side, x, p');
  }

  lemma ValsAt(st: Store, sh: Shape, side: Side, x: nat, p: Ptr)
    requires side != INVALID && x < |Flat(sh.queues, LevelsOf(sh, side))| && Flat(sh.queues, LevelsOf(sh, side))[x] == p
    ensures x < |SideOf(Abs(st, sh), side)| && SideOf(Abs(st, sh), side)[x] == ValAt(st.orders, p)
  {
    hide Flat, ValAt;
  }

  /** The filled order is at one index only. */
  lemma FillAway(st: Store, sh: Shape, p: Ptr, side: Side, k: nat)
    requires Good(st, sh) && side != INVALID && p in st.orders
    requires k < |SideOf(Abs(st, sh), side)| && SideOf(Abs(st, sh), side)[k] == st.orders[p].val
    ensures forall x :: 0 <= x < |SideOf(Abs(st, sh), side)| && x != k ==> SideOf(Abs(st, sh), side)[x] != st.orders[p].val
    ensures forall x :: 0 <= x < |SideOf(Abs(st, sh), Opposite(side))| ==> SideOf(Abs(st, sh), Opposite(side))[x] != st.orders[p].val
  {
    hide IsRing, Abs, LevelsOk, QueuesOk, OrdersOk, SlotsOk;
    var b := Abs(st, sh);
    KeysApart(st, sh);
    AtAll(b, side, k);
    forall x | 0 <= x < |SideOf(b, side)| && x != k ensures SideOf(b, side)[x] != st.orders[p].val { AtAll(b, side, x); }
    forall x | 0 <= x < |SideOf(b, Opposite(side))| ensures SideOf(b, Opposite(side))[x] != st.orders[p].val { AtAll(b, Opposite(side), x); }
  }

  // ---------------------------------------------------------------------------------------
  // A newcomer's place
  // ---------------------------------------------------------------------------------------

  lemma FlatGrows(queues: map<Ptr, seq<Ptr>>, s: seq<Ptr>, i: nat, n: nat)
    requires i <= n <= |s|
    ensures |Flat(queues, s[..i])| <= |Flat(queues, s[..n])|
  {
    if i < n { FlatBefore(queues, s, i, n); }
  }

  /** Past the levels not worse than a price, and before those worse, is its place. */
  lemma PlaceAtLevel(st: Store, sh: Shape, side: Side, price: Price, n: nat)
    requires Good(st, sh) && side != INVALID && n <= |LevelsOf(sh, side)|
    requires forall i :: 0 <= i < n ==> !Better(side, price, PriceAt(st.levels, LevelsOf(sh, side)[i]))
    requires n < |LevelsOf(sh, side)| ==> Better(side, price, PriceAt(st.levels, LevelsOf(sh, side)[n]))
    ensures |Flat(sh.queues, LevelsOf(sh, side)[..n])| <= |SideOf(Abs(st, sh), side)|
    ensures Place(SideOf(Abs(st, sh), side), side, price) == |Flat(sh.queues, LevelsOf(sh, side)[..n])|
  {
    hide Better, Abs, Flat, Covers, TableOk, OrdersOk, SlotsOk, QueuesOk, IsRing, LevelsSorted;
    var b, s := SideOf(Abs(st, sh), side), LevelsOf(sh, side);
    var k := |Flat(sh.queues, s[..n])|;
    FlatGrows(sh.queues, s, n, |s|);
    AbsLength(st, sh, side);
    forall x | 0 <= x < k ensures !Better(side, price, b[x].price) {
      var i, j, l := OrderAt(st, sh, side, x);
      if n <= i { FlatGrows(sh.queues, s, n, i); assert false; }
    }
    if k < |b| {
      var i, j, l := OrderAt(st, sh, side, k);
      if i < n { FlatBefore(sh.queues, s, i, n); assert false; }
      BetterThanRest(st.levels, s, side, price, n, i);
    }
    PlaceUnique(b, side, price, k);
  }

  lemma AbsLength(st: Store, sh: Shape, side: Side)
    ensures |SideOf(Abs(st, sh), side)| == |Flat(sh.queues, LevelsOf(sh, side)[..|LevelsOf(sh, side)|])|
    ensures |SideOf(Abs(st, sh), side)| == |Flat(sh.queues, LevelsOf(sh, side))|
  {
    var s := LevelsOf(sh, side);
    assert s[..|s|] == s;
  }

  lemma BetterThanRest(levels: Heap<LevelInfo>, s: seq<Ptr>, side: Side, price: Price, n: nat, i: nat)
    requires LevelsSorted(levels, s, side) && n <= i < |s| && Better(side, price, PriceAt(levels, s[n]))
    ensures Better(side, price, PriceAt(levels, s[i]))
  {
    hide PriceAt;
  }

  /** At a price that has a level: behind the last order of its queue, one priority later. */
  lemma PlaceInLevel(st: Store, sh: Shape, l: Ptr, i: nat)
    requires Good(st, sh) && l in st.levels && l in sh.queues && sh.queues[l] != []
    requires st.levels[l].val.side != INVALID && i < |LevelsOf(sh, st.levels[l].val.side)| && LevelsOf(sh, st.levels[l].val.side)[i] == l
    ensures
      var side, price, q := st.levels[l].val.side, PriceAt(st.levels, l), sh.queues[l];
      var k := |Flat(sh.queues, LevelsOf(sh, side)[..i + 1])|;
      && k <= |SideOf(Abs(st, sh), side)| && Place(SideOf(Abs(st, sh), side), side, price) == k
      && q[|q| - 1] in st.orders && NextPriority(SideOf(Abs(st, sh), side), side, price) == st.orders[q[|q| - 1]].val.priority + 1
  {
    hide Abs, Flat, Covers, TableOk, OrdersOk, SlotsOk, IsRing;
    var side, price, q := st.levels[l].val.side, PriceAt(st.levels, l), sh.queues[l];
    var s := LevelsOf(sh, side);
    forall x | 0 <= x < i + 1 ensures !Better(side, price, PriceAt(st.levels, s[x])) {
      if x < i { assert LevelsSorted(st.levels, s, side); }
    }
    if i + 1 < |s| { assert LevelsSorted(st.levels, s, side); }
    PlaceAtLevel(st, sh, side, price, i + 1);
    assert QueueOk(st.orders, st.levels[l].val, q);
    var k := IndexFor(st, sh, side, i, |q| - 1);
    LevelEnd(sh.queues, s, i);
  }

  lemma LevelEnd(queues: map<Ptr, seq<Ptr>>, s: seq<Ptr>, i: nat)
    requires i < |s|
    ensures |Flat(queues, s[..i + 1])| == |Flat(queues, s[..i])| + |QueueAt(queues, s[i])|
  {
    FlatAround(queues, s[..i + 1], i);
    assert s[..i + 1][..i] == s[..i] && s[..i + 1][i + 1..] == [];
  }

  // ---------------------------------------------------------------------------------------
  // An order more
  // ---------------------------------------------------------------------------------------

  /** The pool with one more block, and then linked in behind the queue that starts at `t`. */
  ghost predicate Queued(orders: Heap<Order>, orders': Heap<Order>, p: Ptr, o: Order, t: Ptr) {
    && p !in orders && p != NULL && t in orders
    && exists n: Node<Order> :: n.val == o && LinkedBefore(orders[p := n], orders', t, p)
  }

  lemma QueuedVals(orders: Heap<Order>, orders': Heap<Order>, p: Ptr, o: Order, t: Ptr)
    requires Queued(orders, orders', p, o, t)
    ensures p !in orders && p != NULL
    ensures orders'.Keys == orders.Keys + {p} && orders'[p].val == o
    ensures forall q :: q in orders ==> orders'[q].val == orders[q].val
    ensures forall q :: q in orders && q != t && q != orders[t].prev ==> orders'[q] == orders[q]
  {
  }

  lemma AppendGood(st: Store, sh: Shape, orders': Heap<Order>, l: Ptr, p: Ptr, o: Order)
    requires Good(st, sh) && l in st.levels && l in sh.queues && sh.queues[l] != []
    requires Queued(st.orders, orders', p, o, st.levels[l].val.first)
    requires o.side == st.levels[l].val.side && o.price == PriceAt(st.levels, l)
    requires sh.queues[l][|sh.queues[l]| - 1] in st.orders && o.priority == st.orders[sh.queues[l][|sh.queues[l]| - 1]].val.priority + 1
    requires KeyOf(o) !in st.slots
    ensures Good(st.(orders := orders', slots := st.slots[KeyOf(o) := p]), sh.(queues := sh.queues[l := sh.queues[l] + [p]]))
  {
    hide LevelsOk, QueuesOk, OrdersOk, SlotsOk, Queued;
    QueuedVals(st.orders, orders', p, o, st.levels[l].val.first);
    AppendQueues(st, sh, orders', l, p, o);
    assert OrdersOk(orders', st.priceTable, sh.queues[l := sh.queues[l] + [p]]) by { AppendOrders(st, sh, orders', l, p, o); }
    assert SlotsOk(orders', st.slots[KeyOf(o) := p]) by { SlotsMore(st.orders, orders', st.slots, p, o); }
  }

  lemma SlotsMore(orders: Heap<Order>, orders': Heap<Order>, slots: map<(ClientId, OrderId), Ptr>, p: Ptr, o: Order)
    requires SlotsOk(orders, slots) && KeyOf(o) !in slots && p !in orders
    requires orders'.Keys == orders.Keys + {p} && orders'[p].val == o
    requires forall q :: q in orders ==> orders'[q].val == orders[q].val
    ensures SlotsOk(orders', slots[KeyOf(o) := p])
  {
    hide KeyOf;
  }

  lemma AppendOrders(st: Store, sh: Shape, orders': Heap<Order>, l: Ptr, p: Ptr, o: Order)
    requires Good(st, sh) && l in st.levels && l in sh.queues && p != NULL
    requires orders'.Keys == st.orders.Keys + {p} && orders'[p].val == o
    requires forall q :: q in st.orders ==> orders'[q].val == st.orders[q].val
    requires o.price == PriceAt(st.levels, l)
    ensures OrdersOk(orders', st.priceTable, sh.queues[l := sh.queues[l] + [p]])
  {
    hide QueuesOk, SlotsOk, SideOk, Covers;
    var queues' := sh.queues[l := sh.queues[l] + [p]];
    forall q | q in orders' ensures q != NULL && q in QueueAt(queues', st.priceTable[IndexOf(orders'[q].val.price)]) {
      if q == p {
        assert queues'[l][|sh.queues[l]|] == p;
      } else {
        assert q in st.orders;
        var l' := st.priceTable[IndexOf(st.orders[q].val.price)];
        assert q in QueueAt(sh.queues, l');
      }
    }
  }

  lemma AppendQueues(st: Store, sh: Shape, orders': Heap<Order>, l: Ptr, p: Ptr, o: Order)
    requires Good(st, sh) && l in st.levels && l in sh.queues && sh.queues[l] != []
    requires Queued(st.orders, orders', p, o, st.levels[l].val.first)
    requires o.side == st.levels[l].val.side && o.price == PriceAt(st.levels, l)
    requires sh.queues[l][|sh.queues[l]| - 1] in st.orders && o.priority == st.orders[sh.queues[l][|sh.queues[l]| - 1]].val.priority + 1
    ensures QueuesOk(orders', st.levels, sh.queues[l := sh.queues[l] + [p]])
  {
    hide IsRing, LevelsOk, OrdersOk, SlotsOk, Queued;
    var queues' := sh.queues[l := sh.queues[l] + [p]];
    var t := st.levels[l].val.first;
    QueuedVals(st.orders, orders', p, o, t);
    RingEnds(st.orders, sh.queues[l]);
    forall l' | l' in st.levels ensures QueueOk(orders', st.levels[l'].val, queues'[l']) {
      if l' == l {
        AppendQueue(st.orders, orders', st.levels[l].val, sh.queues[l], p, o);
      } else {
        AppendElsewhere(st, sh, orders', l, l', t);
      }
    }
  }

  lemma RingEnds(orders: Heap<Order>, q: seq<Ptr>)
    requires IsRing(orders, q) && q != []
    ensures q[0] in orders && q[|q| - 1] in orders && orders[q[0]].prev == q[|q| - 1] && orders[q[|q| - 1]].next == q[0]
  {
  }

  lemma AppendElsewhere(st: Store, sh: Shape, orders': Heap<Order>, l: Ptr, l': Ptr, t: Ptr)
    requires Good(st, sh) && l in st.levels && l' in st.levels && l in sh.queues && l' in sh.queues && l != l'
    requires sh.queues[l] != [] && t == sh.queues[l][0] && t in st.orders && st.orders[t].prev == sh.queues[l][|sh.queues[l]| - 1]
    requires forall q :: q in st.orders && q != t && q != st.orders[t].prev ==> q in orders' && orders'[q] == st.orders[q]
    ensures QueueOk(orders', st.levels[l'].val, sh.queues[l'])
  {
    hide IsRing, LevelsOk, OrdersOk, SlotsOk;
    assert QueueOk(st.orders, st.levels[l'].val, sh.queues[l']);
    forall q | q in sh.queues[l'] ensures q in st.orders && q in orders' && orders'[q] == st.orders[q] {
      if q == t || q == st.orders[t].prev {
        assert q in sh.queues[l];
        QueuesDisjoint(st, sh, l, l', q);
        assert false;
      }
    }
    QueueFrame(st.orders, orders', st.levels[l'].val, sh.queues[l']);
  }

  lemma AppendQueue(orders: Heap<Order>, orders': Heap<Order>, info: LevelInfo, q: seq<Ptr>, p: Ptr, o: Order)
    requires QueueOk(orders, info, q) && Queued(orders, orders', p, o, q[0])
    requires o.side == info.side && o.price == info.price && q[|q| - 1] in orders && o.priority == orders[q[|q| - 1]].val.priority + 1
    ensures QueueOk(orders', info, q + [p])
  {
    hide IsRing, Queued, Rising;
    AppendRing(orders, orders', info, q, p, o);
    QueuedVals(orders, orders', p, o, q[0]);
    RisingAppend(orders, orders', q, p);
  }

  lemma RisingAppend(orders: Heap<Order>, orders': Heap<Order>, q: seq<Ptr>, p: Ptr)
    requires Rising(orders, q) && q != [] && forall k :: 0 <= k < |q| ==> q[k] in orders
    requires p in orders' && orders'[p].val.priority > orders[q[|q| - 1]].val.priority
    requires forall q :: q in orders ==> q in orders' && orders'[q].val == orders[q].val
    ensures Rising(orders', q + [p])
  {
  }

  lemma AppendRing(orders: Heap<Order>, orders': Heap<Order>, info: LevelInfo, q: seq<Ptr>, p: Ptr, o: Order)
    requires QueueOk(orders, info, q) && Queued(orders, orders', p, o, q[0])
    ensures IsRing(orders', q + [p])
  {
    hide IsRing;
    var n: Node<Order> :| n.val == o && LinkedBefore(orders[p := n], orders', q[0], p);
    hide LinkedBefore;
    RingFrame(orders, orders[p := n], q);
    RingInsert(orders[p := n], orders', q, 0, p);
  }

  /** The book after an order more, wherever it is laid. */
  lemma InsertAbs(st: Store, st': Store, sh: Shape, sh': Shape, side: Side, k: nat, p: Ptr, o: Order)
    requires Good(st, sh) && side != INVALID
    requires p !in st.orders && st'.orders.Keys == st.orders.Keys + {p} && st'.orders[p].val == o
    requires forall q :: q in st.orders ==> st'.orders[q].val == st.orders[q].val
    requires k <= |Flat(sh.queues, LevelsOf(sh, side))|
    requires Flat(sh'.queues, LevelsOf(sh', side)) == InsertAt(Flat(sh.queues, LevelsOf(sh, side)), k, p)
    requires Flat(sh'.queues, LevelsOf(sh', Opposite(side))) == Flat(sh.queues, LevelsOf(sh, Opposite(side)))
    ensures |SideOf(Abs(st, sh), side)| >= k
    ensures Abs(st', sh') == WithSide(Abs(st, sh), side, InsertAt(SideOf(Abs(st, sh), side), k, o))
  {
    hide LevelsOk, QueuesOk, OrdersOk, SlotsOk, Flat;
    var f, g := Flat(sh.queues, LevelsOf(sh, side)), Flat(sh.queues, LevelsOf(sh, Opposite(side)));
    FlatLive(st, sh, side);
    FlatLive(st, sh, Opposite(side));
    ValsFrame(st.orders, st'.orders, f);
    ValsFrame(st.orders, st'.orders, g);
    ValsInsert(st'.orders, f, k, p);
  }

  lemma FlatLive(st: Store, sh: Shape, side: Side)
    requires Good(st, sh) && side != INVALID
    ensures forall p :: p in Flat(sh.queues, LevelsOf(sh, side)) ==> p in st.orders
  {
    hide IsRing, LevelsSorted, OrdersOk, SlotsOk, Covers, TableOk;
    forall p | p in Flat(sh.queues, LevelsOf(sh, side)) ensures p in st.orders {
      FlatMember(sh.queues, LevelsOf(sh, side), p);
      var i :| 0 <= i < |LevelsOf(sh, side)| && p in QueueAt(sh.queues, LevelsOf(sh, side)[i]);
      var l := LevelsOf(sh, side)[i];
      assert QueueOk(st.orders, st.levels[l].val, sh.queues[l]);
    }
  }

  // ---------------------------------------------------------------------------------------
  // A level more, with one order
  // ---------------------------------------------------------------------------------------

  lemma NewLevelGood(st: Store, st': Store, sh: Shape, sh': Shape, l: Ptr, p: Ptr, o: Order)
    requires Good(st, sh) && p !in st.orders && p != NULL && l !in st.levels && KeyOf(o) !in st.slots
    requires st'.orders == st.orders[p := Node(o, p, p)] && st'.slots == st.slots[KeyOf(o) := p]
    requires st'.levels.Keys == st.levels.Keys + {l} && st'.levels[l].val == LevelInfo(o.side, o.price, p)
    requires forall l' :: l' in st.levels ==> st'.levels[l'].val == st.levels[l'].val
    requires st.priceTable[IndexOf(o.price)] == NULL && st'.priceTable == st.priceTable[IndexOf(o.price) := l]
    requires LevelsOk(st'.levels, st'.bids, st'.asks, st'.priceTable, sh'.bids, sh'.asks)
    requires sh'.queues == sh.queues[l := [p]]
    ensures Good(st', sh')
  {
    hide LevelsOk, QueuesOk, OrdersOk, SlotsOk;
    assert QueuesOk(st'.orders, st'.levels, sh'.queues) by { NewLevelQueues(st, st', sh.queues, l, p, o); }
    assert OrdersOk(st'.orders, st'.priceTable, sh'.queues) by { NewLevelOrders(st, st', sh, l, p, o); }
    assert SlotsOk(st'.orders, st'.slots) by { SlotsMore(st.orders, st'.orders, st.slots, p, o); }
  }

  lemma NewLevelQueues(st: Store, st': Store, queues: map<Ptr, seq<Ptr>>, l: Ptr, p: Ptr, o: Order)
    requires QueuesOk(st.orders, st.levels, queues) && p !in st.orders && l !in st.levels
    requires st'.orders == st.orders[p := Node(o, p, p)]
    requires st'.levels.Keys == st.levels.Keys + {l} && st'.levels[l].val == LevelInfo(o.side, o.price, p)
    requires forall l' :: l' in st.levels ==> st'.levels[l'].val == st.levels[l'].val
    ensures QueuesOk(st'.orders, st'.levels, queues[l := [p]])
  {
    forall l' | l' in st.levels ensures QueueOk(st'.orders, st'.levels[l'].val, queues[l']) {
      hide IsRing;
      QueueFrame(st.orders, st'.orders, st.levels[l'].val, queues[l']);
    }
    assert QueueOk(st'.orders, st'.levels[l].val, [p]) by { hide QueuesOk; }
  }

  lemma NewLevelOrders(st: Store, st': Store, sh: Shape, l: Ptr, p: Ptr, o: Order)
    requires Good(st, sh) && p !in st.orders && p != NULL && l !in st.levels
    requires st'.orders == st.orders[p := Node(o, p, p)]
    requires st.priceTable[IndexOf(o.price)] == NULL && st'.priceTable == st.priceTable[IndexOf(o.price) := l]
    ensures OrdersOk(st'.orders, st'.priceTable, sh.queues[l := [p]])
  {
    hide SideOk, TableOk, SlotsOk, QueueOk;
    forall q | q in st'.orders ensures q != NULL && q in QueueAt(sh.queues[l := [p]], st'.priceTable[IndexOf(st'.orders[q].val.price)]) {
      if q != p { assert q in QueueAt(sh.queues, st.priceTable[IndexOf(st.orders[q].val.price)]); }
    }
  }

  // ---------------------------------------------------------------------------------------
  // An order less
  // ---------------------------------------------------------------------------------------

  lemma DropOrderGood(st: Store, st': Store, sh: Shape, l: Ptr, j: nat)
    requires Good(st, sh) && l in st.levels && l in sh.queues && j < |sh.queues[l]| && |sh.queues[l]| > 1
    requires sh.queues[l][j] in st.orders
    requires st'.orders.Keys == st.orders.Keys - {sh.queues[l][j]} && Unlinked(st.orders, st'.orders, sh.queues[l][j])
    requires st'.levels == st.levels[l := st.levels[l].(val := st.levels[l].val.(first := if j == 0 then sh.queues[l][1] else sh.queues[l][0]))]
    requires st'.slots == st.slots - {KeyOf(st.orders[sh.queues[l][j]].val)}
    requires st'.bids == st.bids && st'.asks == st.asks && st'.priceTable == st.priceTable
    ensures Good(st', sh.(queues := sh.queues[l := DropAt(sh.queues[l], j)]))
  {
    hide LevelsOk, QueuesOk, OrdersOk, SlotsOk, IsRing, Unlinked;
    var p := sh.queues[l][j];
    LevelsFrame(st.levels, st'.levels, st.bids, st.asks, st.priceTable, sh.bids, sh.asks);
    DropQueues(st, st', sh, l, j);
    assert OrdersOk(st'.orders, st'.priceTable, sh.queues[l := DropAt(sh.queues[l], j)]) by {
      UnlinkedVals(st.orders, st'.orders, p);
      QueueOf(st, sh, l);
      assert Distinct(sh.queues[l]) by { RingDistinct(st.orders, sh.queues[l]); }
      DropOrders(st.orders, st'.orders, st.priceTable, sh.queues, l, j);
    }
    assert SlotsOk(st'.orders, st'.slots) by {
      UnlinkedVals(st.orders, st'.orders, p);
      SlotsFewer(st.orders, st'.orders, st.slots, p);
    }
  }

  lemma RingDistinct(orders: Heap<Order>, q: seq<Ptr>)
    requires IsRing(orders, q)
    ensures Distinct(q)
  {
  }

  lemma UnlinkedVals(orders: Heap<Order>, orders': Heap<Order>, p: Ptr)
    requires p in orders && Unlinked(orders, orders', p)
    ensures forall q :: q in orders && q != p ==> q in orders' && orders'[q].val == orders[q].val
    ensures forall q :: q in orders && q != p && q != orders[p].prev && q != orders[p].next ==> q in orders' && orders'[q] == orders[q]
  {
  }

  lemma SlotsFewer(orders: Heap<Order>, orders': Heap<Order>, slots: map<(ClientId, OrderId), Ptr>, p: Ptr)
    requires SlotsOk(orders, slots) && p in orders && orders'.Keys == orders.Keys - {p}
    requires forall q :: q in orders && q != p ==> q in orders' && orders'[q].val == orders[q].val
    ensures SlotsOk(orders', slots - {KeyOf(orders[p].val)})
  {
    hide KeyOf;
  }

  lemma DropOrders(orders: Heap<Order>, orders': Heap<Order>, table: seq<Ptr>, queues: map<Ptr, seq<Ptr>>, l: Ptr, j: nat)
    requires OrdersOk(orders, table, queues) && l in queues && j < |queues[l]| && Distinct(queues[l])
    requires orders'.Keys == orders.Keys - {queues[l][j]}
    requires forall q :: q in orders && q != queues[l][j] ==> q in orders' && orders'[q].val == orders[q].val
    ensures OrdersOk(orders', table, queues[l := DropAt(queues[l], j)])
  {
    DropDistinct(queues[l], j);
    hide Distinct;
    forall q | q in orders' ensures q != NULL && q in QueueAt(queues[l := DropAt(queues[l], j)], table[IndexOf(orders'[q].val.price)]) {
      assert q in QueueAt(queues, table[IndexOf(orders[q].val.price)]);
    }
  }

  lemma DropQueues(st: Store, st': Store, sh: Shape, l: Ptr, j: nat)
    requires Good(st, sh) && l in st.levels && l in sh.queues && j < |sh.queues[l]| && |sh.queues[l]| > 1
    requires sh.queues[l][j] in st.orders
    requires st'.orders.Keys == st.orders.Keys - {sh.queues[l][j]} && Unlinked(st.orders, st'.orders, sh.queues[l][j])
    requires st'.levels == st.levels[l := st.levels[l].(val := st.levels[l].val.(first := if j == 0 then sh.queues[l][1] else sh.queues[l][0]))]
    ensures QueuesOk(st'.orders, st'.levels, sh.queues[l := DropAt(sh.queues[l], j)])
  {
    hide LevelsOk, OrdersOk, SlotsOk, IsRing, Unlinked;
    var q := sh.queues[l];
    assert QueueOk(st.orders, st.levels[l].val, q);
    assert QueueOk(st'.orders, st'.levels[l].val, DropAt(q, j)) by { DropQueue(st.orders, st'.orders, st.levels[l].val, q, j); }
    forall l' | l' in st.levels && l' != l ensures QueueOk(st'.orders, st.levels[l'].val, sh.queues[l']) {
      DropElsewhere(st, st'.orders, sh, l, l', j);
    }
  }

  lemma DropQueue(orders: Heap<Order>, orders': Heap<Order>, info: LevelInfo, q: seq<Ptr>, j: nat)
    requires QueueOk(orders, info, q) && j < |q| && |q| > 1 && q[j] in orders && Unlinked(orders, orders', q[j])
    ensures QueueOk(orders', info.(first := if j == 0 then q[1] else q[0]), DropAt(q, j))
  {
    hide IsRing, Unlinked, Rising, Distinct;
    RingDrop(orders, orders', q, j);
    UnlinkedVals(orders, orders', q[j]);
    RingDistinct(orders, q);
    DropMoves(q, j);
    RisingSub(orders, orders', q, DropAt(q, j), j);
  }

  lemma DropMoves(q: seq<Ptr>, j: nat)
    requires Distinct(q) && j < |q|
    ensures forall k :: 0 <= k < |q| - 1 ==> DropAt(q, j)[k] == q[OldIndex(j, k)] && DropAt(q, j)[k] != q[j]
  {
  }

  lemma RisingSub(orders: Heap<Order>, orders': Heap<Order>, q: seq<Ptr>, q': seq<Ptr>, j: nat)
    requires Rising(orders, q) && |q'| < |q|
    requires forall k :: 0 <= k < |q'| ==> q'[k] == q[OldIndex(j, k)] && q'[k] in orders && q'[k] in orders' && orders'[q'[k]].val == orders[q'[k]].val
    ensures Rising(orders', q')
  {
  }

  /** Where an element stood before the one at `j` was dropped. */
  function OldIndex(j: nat, k: nat): nat {
    if k < j then k else k + 1
  }

  lemma DropElsewhere(st: Store, orders': Heap<Order>, sh: Shape, l: Ptr, l': Ptr, j: nat)
    requires Good(st, sh) && l in st.levels && l' in st.levels && l != l' && l in sh.queues && l' in sh.queues
    requires j < |sh.queues[l]| && sh.queues[l][j] in st.orders && Unlinked(st.orders, orders', sh.queues[l][j])
    ensures QueueOk(orders', st.levels[l'].val, sh.queues[l'])
  {
    hide IsRing, LevelsOk, OrdersOk, SlotsOk;
    var p := sh.queues[l][j];
    assert QueueOk(st.orders, st.levels[l'].val, sh.queues[l']) && QueueOk(st.orders, st.levels[l].val, sh.queues[l]);
    UnlinkedVals(st.orders, orders', p);
    RingNeighbours(st.orders, sh.queues[l], j);
    forall q | q in sh.queues[l'] ensures q in st.orders && q in orders' && orders'[q] == st.orders[q] {
      if q == p || q == st.orders[p].prev || q == st.orders[p].next {
        QueuesDisjoint(st, sh, l, l', q);
        assert false;
      }
    }
    QueueFrame(st.orders, orders', st.levels[l'].val, sh.queues[l']);
  }

  lemma RingNeighbours(orders: Heap<Order>, q: seq<Ptr>, j: nat)
    requires IsRing(orders, q) && j < |q|
    ensures q[j] in orders && orders[q[j]].prev in q && orders[q[j]].next in q
  {
  }

  lemma DropLevelGood(st: Store, st': Store, sh: Shape, sh': Shape, l: Ptr, p: Ptr)
    requires Good(st, sh) && l in st.levels && l in sh.queues && sh.queues[l] == [p] && p in st.orders
    requires st'.orders == st.orders - {p} && st'.slots == st.slots - {KeyOf(st.orders[p].val)}
    requires st'.levels.Keys == st.levels.Keys - {l}
    requires forall l' :: l' in st'.levels && l' in st.levels ==> st'.levels[l'].val == st.levels[l'].val
    requires st'.priceTable == st.priceTable[IndexOf(st.orders[p].val.price) := NULL]
    requires LevelsOk(st'.levels, st'.bids, st'.asks, st'.priceTable, sh'.bids, sh'.asks)
    requires sh'.queues == sh.queues - {l}
    ensures Good(st', sh')
  {
    hide LevelsOk, QueuesOk, OrdersOk, SlotsOk;
    assert QueuesOk(st'.orders, st'.levels, sh'.queues) by { DropLevelQueues(st, st', sh, l, p); }
    assert OrdersOk(st'.orders, st'.priceTable, sh'.queues) by { DropLevelOrders(st, st', sh, l, p); }
    assert SlotsOk(st'.orders, st'.slots) by { SlotsFewer(st.orders, st'.orders, st.slots, p); }
  }

  lemma DropLevelQueues(st: Store, st': Store, sh: Shape, l: Ptr, p: Ptr)
    requires Good(st, sh) && l in st.levels && l in sh.queues && sh.queues[l] == [p] && p in st.orders
    requires st'.orders == st.orders - {p} && st'.levels.Keys == st.levels.Keys - {l}
    requires forall l' :: l' in st'.levels && l' in st.levels ==> st'.levels[l'].val == st.levels[l'].val
    ensures QueuesOk(st'.orders, st'.levels, sh.queues - {l})
  {
    hide LevelsOk, OrdersOk, SlotsOk, IsRing;
    forall l' | l' in st.levels && l' != l ensures QueueOk(st'.orders, st.levels[l'].val, sh.queues[l']) {
      assert QueueOk(st.orders, st.levels[l'].val, sh.queues[l']);
      forall q | q in sh.queues[l'] ensures q in st.orders && q in st'.orders && st'.orders[q] == st.orders[q] {
        if q == p {
          assert q in sh.queues[l];
          QueuesDisjoint(st, sh, l, l', q);
          assert false;
        }
      }
      QueueFrame(st.orders, st'.orders, st.levels[l'].val, sh.queues[l']);
    }
  }

  lemma DropLevelOrders(st: Store, st': Store, sh: Shape, l: Ptr, p: Ptr)
    requires Good(st, sh) && l in st.levels && l in sh.queues && sh.queues[l] == [p] && p in st.orders
    requires st'.orders == st.orders - {p}
    requires st'.priceTable == st.priceTable[IndexOf(st.orders[p].val.price) := NULL]
    ensures OrdersOk(st'.orders, st'.priceTable, sh.queues - {l})
  {
    hide SideOk, Covers, SlotsOk, QueuesOk;
    QueueOf(st, sh, l);
    forall q | q in st'.orders ensures q != NULL && q in QueueAt(sh.queues - {l}, st'.priceTable[IndexOf(st'.orders[q].val.price)]) {
      var l' := st.priceTable[IndexOf(st.orders[q].val.price)];
      assert q in QueueAt(sh.queues, l');
      assert l' != l;
      if IndexOf(st.orders[q].val.price) == IndexOf(st.orders[p].val.price) {
        SameIndex(st, sh, l, p);
        assert false;
      }
    }
  }

  lemma SameIndex(st: Store, sh: Shape, l: Ptr, p: Ptr)
    requires Good(st, sh) && l in st.levels && l in sh.queues && p in sh.queues[l] && p in st.orders
    ensures st.priceTable[IndexOf(st.orders[p].val.price)] == l && PriceAt(st.levels, l) == st.orders[p].val.price
  {
    hide SideOk, Covers, SlotsOk, OrdersOk, IsRing;
    QueueOf(st, sh, l);
  }

  /** The book after an order less, wherever it was laid. */
  lemma DropAbs(st: Store, st': Store, sh: Shape, sh': Shape, side: Side, k: nat, p: Ptr)
    requires Good(st, sh) && Good(st', sh') && side != INVALID
    requires forall q :: q in st'.orders ==> q in st.orders && st'.orders[q].val == st.orders[q].val
    requires k < |Flat(sh.queues, LevelsOf(sh, side))|
    requires Flat(sh'.queues, LevelsOf(sh', side)) == DropAt(Flat(sh.queues, LevelsOf(sh, side)), k)
    requires Flat(sh'.queues, LevelsOf(sh', Opposite(side))) == Flat(sh.queues, LevelsOf(sh, Opposite(side)))
    ensures k < |SideOf(Abs(st, sh), side)|
    ensures Abs(st', sh') == WithSide(Abs(st, sh), side, DropAt(SideOf(Abs(st, sh), side), k))
  {
    hide LevelsOk, QueuesOk, OrdersOk, SlotsOk, Flat;
    var f, g := Flat(sh.queues, LevelsOf(sh, side)), Flat(sh.queues, LevelsOf(sh, Opposite(side)));
    FlatLive(st', sh', side);
    FlatLive(st', sh', Opposite(side));
    ValsFrame(st.orders, st'.orders, DropAt(f, k));
    ValsFrame(st.orders, st'.orders, g);
    ValsDrop(st.orders, f, k);
  }
}
