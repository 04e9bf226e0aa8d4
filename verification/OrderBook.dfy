/** The matching engine's book as the code keeps it: rings of price levels, rings of orders,
    and two index tables, all changed in place. */
module OrderBook {
  import opened Seqs
  import opened BookSpec
  import opened BookLaws
  import opened Ring
  import opened BookStore
  import opened StoreLaws
  import opened StoreSteps
  import opened LevelRings
  import opened StoreOps
  import opened StoreCounts
  import M = MemPool
  import opened BookPools

  /** No level can be read off the links in a sorted ring, or a table is wrong. */
  ghost predicate Broken(st: Store) {
    forall sh :: !Good(st, sh)
  }

  ghost predicate SlotsInRange(slots: map<(ClientId, OrderId), Ptr>) {
    forall k: (ClientId, OrderId) :: k in slots ==> k.0 < ME_MAX_NUM_CLIENTS && k.1 < ME_MAX_ORDER_IDS
  }

  /** Level `n` has joined the ring of its side at its place; or, where it is a new best ask
      among several, the links are no rings any more. */
  ghost predicate Joined(levels: Heap<LevelInfo>, levels': Heap<LevelInfo>, bids: Ptr, asks: Ptr, table: seq<Ptr>,
                         sb: seq<Ptr>, sa: seq<Ptr>, n: Ptr, info: LevelInfo, i: nat) {
    var s := if info.side == BUY then sb else sa;
    && i <= |s|
    && if info.side == SELL && |s| > 1 && info.price < PriceAt(levels, s[0])
       then forall sb', sa' :: !LevelsOk(levels', bids, asks, table, sb', sa')
       else PlacedAt(levels, s, info.side, info.price, i)
            && LevelsOk(levels', bids, asks, table,
                        if info.side == BUY then InsertAt(s, i, n) else sb, if info.side == BUY then sa else InsertAt(s, i, n))
  }

  lemma JoinedWell(levels: Heap<LevelInfo>, levels': Heap<LevelInfo>, bids: Ptr, asks: Ptr, table: seq<Ptr>,
                   sb: seq<Ptr>, sa: seq<Ptr>, n: Ptr, info: LevelInfo, i: nat)
    requires
      var s := if info.side == BUY then sb else sa;
      && i <= |s| && PlacedAt(levels, s, info.side, info.price, i)
      && !(info.side == SELL && |s| > 1 && info.price < PriceAt(levels, s[0]))
      && LevelsOk(levels', bids, asks, table, if info.side == BUY then InsertAt(sb, i, n) else sb, if info.side == BUY then sa else InsertAt(sa, i, n))
    ensures Joined(levels, levels', bids, asks, table, sb, sa, n, info, i)
  {
    hide PlacedAt, LevelsOk, InsertAt;
  }

  lemma JoinedBadly(levels: Heap<LevelInfo>, levels': Heap<LevelInfo>, bids: Ptr, asks: Ptr, table: seq<Ptr>,
                    sb: seq<Ptr>, sa: seq<Ptr>, n: Ptr, info: LevelInfo, i: nat)
    requires info.side == SELL && |sa| > 1 && info.price < PriceAt(levels, sa[0]) && i <= |sa|
    requires forall sb', sa' :: !LevelsOk(levels', bids, asks, table, sb', sa')
    ensures Joined(levels, levels', bids, asks, table, sb, sa, n, info, i)
  {
    hide LevelsOk;
  }

  /** A new level with block `n` is in the pool and the table; and in the ring of its side, at
      its place, unless it is a new best ask among several: then the links are no rings. */
  ghost predicate Entered(levels: Heap<LevelInfo>, table: seq<Ptr>, sh: Shape,
                          levels': Heap<LevelInfo>, bids: Ptr, asks: Ptr, table': seq<Ptr>, sh': Shape, n: Ptr, info: LevelInfo, i: nat) {
    var s := LevelsOf(sh, info.side);
    && n != NULL && n !in levels && levels'.Keys == levels.Keys + {n} && levels'[n].val == info
    && (forall l :: l in levels ==> levels'[l].val == levels[l].val)
    && |table| == ME_MAX_PRICE_LEVELS && table' == table[IndexOf(info.price) := n] && sh'.queues == sh.queues
    && LevelsOf(sh', Opposite(info.side)) == LevelsOf(sh, Opposite(info.side))
    && if info.side == SELL && |s| > 1 && info.price < PriceAt(levels, s[0])
       then forall sb, sa :: !LevelsOk(levels', bids, asks, table', sb, sa)
       else PlacedAt(levels, s, info.side, info.price, i) && LevelsOf(sh', info.side) == InsertAt(s, i, n)
            && LevelsOk(levels', bids, asks, table', sh'.bids, sh'.asks)
  }

  /** The level of a price has left the pool, the table and the ring of its side. */
  ghost predicate LevelGone(levels: Heap<LevelInfo>, table: seq<Ptr>, sh: Shape,
                            levels': Heap<LevelInfo>, bids: Ptr, asks: Ptr, table': seq<Ptr>, sh': Shape, side: Side, price: Price, i: nat) {
    && |table| == ME_MAX_PRICE_LEVELS && i < |LevelsOf(sh, side)|
    && levels'.Keys == levels.Keys - {table[IndexOf(price)]}
    && (forall l :: l in levels' && l in levels ==> levels'[l].val == levels[l].val)
    && table' == table[IndexOf(price) := NULL] && sh'.queues == sh.queues - {table[IndexOf(price)]}
    && LevelsOf(sh', side) == DropAt(LevelsOf(sh, side), i) && LevelsOf(sh', Opposite(side)) == LevelsOf(sh, Opposite(side))
    && LevelsOk(levels', bids, asks, table', sh'.bids, sh'.asks)
  }

  /** Order `p` is out of its queue, or its level is gone with it; it still has its block. */
  ghost predicate Detached(st: Store, st': Store, sh: Shape, sh': Shape, l: Ptr, p: Ptr, i: nat, j: nat)
    requires p in st.orders && l in st.levels && l in sh.queues && j < |sh.queues[l]|
  {
    && st'.slots == st.slots
    && if st.orders[p].prev == p then
         && st'.orders == st.orders
         && LevelGone(st.levels, st.priceTable, sh, st'.levels, st'.bids, st'.asks, st'.priceTable, sh', st.levels[l].val.side, st.orders[p].val.price, i)
       else
         && st'.orders.Keys == st.orders.Keys && Unlinked(st.orders, st'.orders - {p}, p)
         && st'.levels == st.levels[l := st.levels[l].(val := st.levels[l].val.(first := if st.levels[l].val.first == p then st.orders[p].next else st.levels[l].val.first))]
         && st'.bids == st.bids && st'.asks == st.asks && st'.priceTable == st.priceTable
         && sh' == sh.(queues := sh.queues[l := DropAt(sh.queues[l], j)])
  }

  /** What is left without it, once its block and its slot are given up. */
  lemma OrderGone(st: Store, st1: Store, st': Store, sh: Shape, sh': Shape, side: Side, l: Ptr, i: nat, j: nat, p: Ptr)
    requires Good(st, sh) && side != INVALID && p in st.orders && l in st.levels && l in sh.queues && j < |sh.queues[l]| && sh.queues[l][j] == p
    requires i < |LevelsOf(sh, side)| && LevelsOf(sh, side)[i] == l && l == st.priceTable[IndexOf(st.orders[p].val.price)]
    requires Detached(st, st1, sh, sh', l, p, i, j)
    requires st' == st1.(orders := st1.orders - {p}, slots := st.slots - {KeyOf(st.orders[p].val)})
    ensures
      var k := |Flat(sh.queues, LevelsOf(sh, side)[..i])| + j;
      && Good(st', sh')
      && k < |SideOf(Abs(st, sh), side)| && Abs(st', sh') == WithSide(Abs(st, sh), side, DropAt(SideOf(Abs(st, sh), side), k))
  {
    hide Good, LevelGone, Abs, Flat, WithSide, SideOf, DropAt, Unlinked, KeyOf, IndexOf;
    OrderReached(st, sh, side, i, j);
    if st.orders[p].prev == p {
      LoneOrderGone(st, st', sh, sh', l, i, p);
    } else {
      DropOrderKeeps(st, st', sh, l, i, j);
    }
  }

  /** A lone order gone with its level. */
  lemma LoneOrderGone(st: Store, st': Store, sh: Shape, sh': Shape, l: Ptr, i: nat, p: Ptr)
    requires Good(st, sh) && l in st.levels && l in sh.queues && sh.queues[l] == [p] && p in st.orders
    requires st.levels[l].val.side != INVALID && l == st.priceTable[IndexOf(st.orders[p].val.price)]
    requires i < |LevelsOf(sh, st.levels[l].val.side)| && LevelsOf(sh, st.levels[l].val.side)[i] == l
    requires st'.orders == st.orders - {p} && st'.slots == st.slots - {KeyOf(st.orders[p].val)}
    requires LevelGone(st.levels, st.priceTable, sh, st'.levels, st'.bids, st'.asks, st'.priceTable, sh', st.levels[l].val.side, st.orders[p].val.price, i)
    ensures
      var side, k := st.levels[l].val.side, |Flat(sh.queues, LevelsOf(sh, st.levels[l].val.side)[..i])|;
      && Good(st', sh')
      && k < |SideOf(Abs(st, sh), side)| && Abs(st', sh') == WithSide(Abs(st, sh), side, DropAt(SideOf(Abs(st, sh), side), k))
  {
    hide LevelsOk, QueuesOk, OrdersOk, SlotsOk, Abs, Flat, WithSide, SideOf, DropAt;
    DropLevelKeeps(st, st', sh, sh', l, i, p);
  }

  class MEOrderBook {
    var orders: Heap<Order>
    var levels: Heap<LevelInfo>
    var bidsByPrice: Ptr
    var asksByPrice: Ptr
    var priceOrdersAtPrices: seq<Ptr>
    var cidOidToOrder: map<(ClientId, OrderId), Ptr>
    const nextMarketOrderId: OrderId := 1
    /** The pools; the nodes in their blocks are those of `orders` and `levels`. */
    const orderPool: M.Pool<()>
    const levelPool: M.Pool<()>
    /** What has been sent to the clients and to the market data publisher. */
    var responses: seq<Response>
    var updates: seq<Update>
    ghost var shape: Shape

    ghost function Memory(): Store
      reads this
    {
      Store(orders, levels, bidsByPrice, asksByPrice, priceOrdersAtPrices, cidOidToOrder)
    }

    ghost function Contents(): Book
      reads this
    {
      Abs(Memory(), shape)
    }

    /** The blocks handed out by the pools are those of the live orders and levels. */
    ghost predicate PoolsHold()
      reads this, orderPool, orderPool.isFree, levelPool, levelPool.isFree
    {
      && orderPool != levelPool && orderPool.isFree != levelPool.isFree
      && Holds(orderPool, orders.Keys, ME_MAX_ORDER_IDS) && Holds(levelPool, levels.Keys, ME_MAX_PRICE_LEVELS)
    }

    ghost predicate Valid()
      reads this, orderPool, orderPool.isFree, levelPool, levelPool.isFree
    {
      Good(Memory(), shape) && Open(Contents()) && SlotsInRange(cidOidToOrder) && PoolsHold()
    }

    constructor ()
      ensures Valid() && fresh(orderPool) && fresh(orderPool.objects) && fresh(orderPool.isFree)
      ensures fresh(levelPool) && fresh(levelPool.objects) && fresh(levelPool.isFree)
      ensures Contents() == Book([], []) && responses == [] && updates == []
    {
      hide Good, Abs, Open, Holds;
      levelPool := new M.Pool<()>(ME_MAX_PRICE_LEVELS, ());
      orderPool := new M.Pool<()>(ME_MAX_ORDER_IDS, ());
      orders, levels, bidsByPrice, asksByPrice := map[], map[], NULL, NULL;
      priceOrdersAtPrices := seq(ME_MAX_PRICE_LEVELS, _ => NULL);
      cidOidToOrder := map[];
      responses, updates := [], [];
      shape := Shape([], [], map[]);
      new;
      EmptyStore(Memory());
      NothingHeld(levelPool, ME_MAX_PRICE_LEVELS);
      NothingHeld(orderPool, ME_MAX_ORDER_IDS);
      assert orders.Keys == {} && levels.Keys == {};
    }

    function GenerateNewMarketOrderId(): (id: OrderId)
      ensures id == 1
    {
      nextMarketOrderId
    }

    function GetOrdersAtPrice(price: Price): Ptr
      requires |priceOrdersAtPrices| == ME_MAX_PRICE_LEVELS
      reads this
    {
      priceOrdersAtPrices[IndexOf(price)]
    }

    /** The part of removeOrdersAtPrice that unlinks a level and moves the head of its side on. */
    method UnlinkLevel(side: Side, l: Ptr)
      requires l in levels && levels[l].prev in levels && levels[l].next in levels && (levels[l].next == l <==> levels[l].prev == l)
      modifies this`levels, this`bidsByPrice, this`asksByPrice
      ensures levels.Keys == old(levels).Keys && Unhooked(old(levels), levels - {l}, l)
      ensures forall q :: q in levels ==> levels[q].val == old(levels)[q].val
      ensures
        var head := if side == BUY then old(bidsByPrice) else old(asksByPrice);
        var head' := if old(levels)[l].next == l then NULL else if l == head then old(levels)[l].next else head;
        bidsByPrice == (if side == BUY then head' else old(bidsByPrice)) && asksByPrice == (if side == BUY then old(asksByPrice) else head')
    {
      hide Unhooked;
      ghost var levels0 := levels;
      var bestOrdersByPrice := if side == BUY then bidsByPrice else asksByPrice;
      if levels[l].next == l {
        if side == BUY { bidsByPrice := NULL; } else { asksByPrice := NULL; }
      } else {
        levels := SetNext(levels, levels[l].prev, levels[l].next);
        levels := SetPrev(levels, levels[l].next, levels[l].prev);
        if l == bestOrdersByPrice {
          if side == BUY { bidsByPrice := levels[l].next; } else { asksByPrice := levels[l].next; }
        }
        levels := SetPrev(SetNext(levels, l, NULL), l, NULL);
      }
      UnhookedByWrites(levels0, levels - {l}, l);
    }

    /** removeOrdersAtPrice: unlinks the level of a price and releases it. */
    method RemoveOrdersAtPrice(side: Side, price: Price, ghost i: nat)
      requires LevelsOk(levels, bidsByPrice, asksByPrice, priceOrdersAtPrices, shape.bids, shape.asks)
      requires side != INVALID && priceOrdersAtPrices[IndexOf(price)] in levels
      requires levels[priceOrdersAtPrices[IndexOf(price)]].val.side == side
      requires PriceAt(levels, priceOrdersAtPrices[IndexOf(price)]) == price
      requires i < |LevelsOf(shape, side)| && LevelsOf(shape, side)[i] == priceOrdersAtPrices[IndexOf(price)]
      requires Holds(levelPool, levels.Keys, ME_MAX_PRICE_LEVELS)
      modifies this`levels, this`bidsByPrice, this`asksByPrice, this`priceOrdersAtPrices, this`shape, levelPool.isFree
      ensures Holds(levelPool, levels.Keys, ME_MAX_PRICE_LEVELS)
      ensures LevelGone(old(levels), old(priceOrdersAtPrices), old(shape), levels, bidsByPrice, asksByPrice, priceOrdersAtPrices, shape, side, price, i)
    {
      hide LevelsOk, SideOk, Covers, TableOk, IsRing, Unhooked, Holds;
      ghost var levels0, sb, sa, table0 := levels, shape.bids, shape.asks, priceOrdersAtPrices;
      ghost var bids0, asks0 := bidsByPrice, asksByPrice;
      LevelReached(levels, bidsByPrice, asksByPrice, priceOrdersAtPrices, sb, sa, side, i);
      var l := GetOrdersAtPrice(price);
      UnlinkLevel(side, l);
      priceOrdersAtPrices := priceOrdersAtPrices[IndexOf(price) := NULL];
      ghost var levels1, table1, bids1, asks1, shape1 := levels, priceOrdersAtPrices, bidsByPrice, asksByPrice, shape;
      Release(levelPool, l, levels.Keys, ME_MAX_PRICE_LEVELS);
      assert levels == levels1 && priceOrdersAtPrices == table1 && bidsByPrice == bids1 && asksByPrice == asks1 && shape == shape1;
      assert (levels - {l}).Keys == levels.Keys - {l};
      levels := levels - {l};
      shape := Shape(if side == BUY then DropAt(sb, i) else sb, if side == BUY then sa else DropAt(sa, i), shape.queues - {l});
      LevelRemoved(levels0, levels, bids0, asks0, bidsByPrice, asksByPrice, table0, sb, sa, side, i, l);
    }

    function GetNextPriority(price: Price): Priority
      requires Good(Memory(), shape)
      reads this
    {
      TableReached(Memory(), shape, price);
      var ordersAtPrice := GetOrdersAtPrice(price);
      if ordersAtPrice == NULL then 1 else orders[orders[levels[ordersAtPrice].val.first].prev].val.priority + 1
    }

    /** The part of removeOrder that unlinks an order from others at its price. */
    method UnlinkOrder(order: Ptr, ordersAtPrice: Ptr)
      requires order in orders && ordersAtPrice in levels
      requires orders[order].prev in orders && orders[order].next in orders
      requires orders[order].prev != order && orders[order].next != order
      modifies this`orders, this`levels
      ensures order in orders && orders.Keys == old(orders).Keys && Unlinked(old(orders), orders - {order}, order)
      ensures levels.Keys == old(levels).Keys && forall l :: l in levels && l != ordersAtPrice ==> levels[l] == old(levels)[l]
      ensures
        var level := old(levels)[ordersAtPrice];
        levels[ordersAtPrice] == level.(val := level.val.(first := if level.val.first == order then old(orders)[order].next else level.val.first))
    {
      var orderBefore, orderAfter := orders[order].prev, orders[order].next;
      orders := SetNext(orders, orderBefore, orderAfter);
      orders := SetPrev(orders, orderAfter, orderBefore);
      if levels[ordersAtPrice].val.first == order {
        levels := levels[ordersAtPrice := levels[ordersAtPrice].(val := levels[ordersAtPrice].val.(first := orderAfter))];
      }
      orders := SetPrev(SetNext(orders, order, NULL), order, NULL);
    }

    /** The part of removeOrder that takes an order out of its queue, or its level with it. */
    method DetachOrder(order: Ptr, ordersAtPrice: Ptr, ghost side: Side, ghost i: nat, ghost j: nat)
      requires Good(Memory(), shape) && Holds(levelPool, levels.Keys, ME_MAX_PRICE_LEVELS) && order in orders
      requires side == orders[order].val.side != INVALID && i < |LevelsOf(shape, side)| && LevelsOf(shape, side)[i] == ordersAtPrice
      requires |priceOrdersAtPrices| == ME_MAX_PRICE_LEVELS && ordersAtPrice == priceOrdersAtPrices[IndexOf(orders[order].val.price)]
      requires ordersAtPrice in levels && PriceAt(levels, ordersAtPrice) == orders[order].val.price && levels[ordersAtPrice].val.side == side
      requires ordersAtPrice in shape.queues && j < |shape.queues[ordersAtPrice]| && shape.queues[ordersAtPrice][j] == order
      modifies this`orders, this`levels, this`bidsByPrice, this`asksByPrice, this`priceOrdersAtPrices, this`shape, levelPool.isFree
      ensures Holds(levelPool, levels.Keys, ME_MAX_PRICE_LEVELS) && orders.Keys == old(orders).Keys
      ensures Detached(old(Memory()), Memory(), old(shape), shape, ordersAtPrice, order, i, j)
    {
      hide LevelsOk, QueuesOk, OrdersOk, SlotsOk, Unlinked, DropAt, IndexOf, Holds, LevelGone, PriceAt;
      ghost var st0, sh0 := Memory(), shape;
      var o := orders[order].val;
      OrderReached(st0, sh0, side, i, j);
      if orders[order].prev == order {
        RemoveOrdersAtPrice(o.side, o.price, i);
      } else {
        UnlinkOrder(order, ordersAtPrice);
        shape := shape.(queues := shape.queues[ordersAtPrice := DropAt(shape.queues[ordersAtPrice], j)]);
      }
    }

    /** removeOrder: unlinks an order, and its level with it if it was alone there. */
    method RemoveOrder(order: Ptr) returns (ghost k: nat)
      requires Good(Memory(), shape) && PoolsHold() && order in orders
      modifies this`orders, this`levels, this`bidsByPrice, this`asksByPrice, this`priceOrdersAtPrices, this`cidOidToOrder, this`shape
      modifies orderPool.isFree, levelPool.isFree
      ensures Good(Memory(), shape) && PoolsHold()
      ensures cidOidToOrder == old(cidOidToOrder) - {KeyOf(old(orders)[order].val)}
      ensures
        var o := old(orders)[order].val;
        && o.side != INVALID
        && k < |SideOf(old(Contents()), o.side)| && SideOf(old(Contents()), o.side)[k] == o
        && Contents() == WithSide(old(Contents()), o.side, DropAt(SideOf(old(Contents()), o.side), k))
    {
      hide LevelsOk, QueuesOk, OrdersOk, SlotsOk, Abs, SideOf, WithSide, Unlinked, DropAt, KeyOf, Flat, IndexOf, Holds, LevelGone, Detached, PriceAt;
      ghost var st0, sh0 := Memory(), shape;
      ghost var side, i, j;
      side, i, j, k := OrderPlace(st0, sh0, order);
      var o := orders[order].val;
      OrderReached(st0, sh0, side, i, j);
      var ordersAtPrice := GetOrdersAtPrice(o.price);
      DetachOrder(order, ordersAtPrice, side, i, j);
      ghost var st1 := Memory();
      cidOidToOrder := cidOidToOrder - {KeyOf(o)};
      ghost var store1, shape1 := Memory(), shape;
      Release(orderPool, order, orders.Keys, ME_MAX_ORDER_IDS);
      assert Memory() == store1 && shape == shape1;
      assert (orders - {order}).Keys == orders.Keys - {order};
      orders := orders - {order};
      OrderGone(st0, st1, Memory(), sh0, shape, side, ordersAtPrice, i, j, order);
    }

    /** The slot of an order id; the code checks both indices against the table. */
    function SlotAt(client: ClientId, oid: OrderId): Ptr
      requires client < ME_MAX_NUM_CLIENTS && oid < ME_MAX_ORDER_IDS
      reads this
    {
      if (client, oid) in cidOidToOrder then cidOidToOrder[(client, oid)] else NULL
    }

    /** cancel */
    method Cancel(client: ClientId, oid: OrderId, ticker: TickerId)
      requires Valid() && (client < ME_MAX_NUM_CLIENTS ==> oid < ME_MAX_ORDER_IDS)
      modifies this, orderPool.isFree, levelPool.isFree
      ensures Valid()
      ensures
        var e := CancelSpec(old(Contents()), client, oid, ticker);
        Contents() == e.book && responses == old(responses) + e.responses && updates == old(updates) + e.updates
      ensures !SlotTaken(AllOrders(old(Contents())), client, oid) ==>
        && Contents() == old(Contents()) && updates == old(updates)
        && responses == old(responses)
             + [Response(CANCEL_REJECTED, client, ticker, oid, OrderId_INVALID, INVALID, Price_INVALID, Qty_INVALID, Qty_INVALID)]
      ensures SlotTaken(AllOrders(old(Contents())), client, oid) ==>
        exists o :: o in AllOrders(old(Contents())) && o.client == client && o.oid == oid
          && multiset(AllOrders(old(Contents()))) == multiset(AllOrders(Contents())) + multiset{o} && o !in AllOrders(Contents())
          && responses == old(responses) + [Response(CANCELED, client, ticker, oid, o.mid, o.side, o.price, Qty_INVALID, o.qty)]
          && updates == old(updates) + [Update(CANCEL, o.mid, ticker, o.side, o.price, 0, o.priority)]
    {
      hide Good, Abs, Open, WellFormed, CancelSpec, SideOf, WithSide, DropAt, KeysDistinct, AllOrders, Holds;
      ghost var b := Contents();
      SlotGuard(Memory(), shape, client, oid);
      GoodBook(Memory(), shape);
      CancelKeeps(b, client, oid, ticker);
      OpenIfWellFormed(CancelSpec(b, client, oid, ticker).book);
      var isCancelable := client < ME_MAX_NUM_CLIENTS;
      var exchangeOrder := NULL;
      if isCancelable {
        exchangeOrder := SlotAt(client, oid);
        isCancelable := exchangeOrder != NULL;
      }
      if !isCancelable {
        assert (client, oid) !in cidOidToOrder by { if (client, oid) in cidOidToOrder { LiveSlot(Memory(), shape, client, oid); } }
        CancelNothing(b, client, oid, ticker);
        responses := responses + [Response(CANCEL_REJECTED, client, ticker, oid, OrderId_INVALID, INVALID, Price_INVALID, Qty_INVALID, Qty_INVALID)];
      } else {
        LiveSlot(Memory(), shape, client, oid);
        var o := orders[exchangeOrder].val;
        KeysApart(Memory(), shape);
        ghost var k := RemoveOrder(exchangeOrder);
        CancelFound(b, o.side, k, ticker);
        GoneFromBook(b, o.side, k);
        updates := updates + [Update(CANCEL, o.mid, ticker, o.side, o.price, 0, o.priority)];
        responses := responses + [Response(CANCELED, client, ticker, oid, o.mid, o.side, o.price, Qty_INVALID, o.qty)];
      }
    }

    /** match: one round of trading with a resting order. */
    method MatchOrder(inc: Incoming, itr: Ptr, leavesQty: Qty) returns (left: Qty)
      requires Good(Memory(), shape) && inc.side != INVALID && itr in orders
      requires SideOf(Contents(), Opposite(inc.side)) != [] && SideOf(Contents(), Opposite(inc.side))[0] == orders[itr].val
      requires PoolsHold()
      modifies this, orderPool.isFree, levelPool.isFree
      ensures Good(Memory(), shape) && PoolsHold() && cidOidToOrder.Keys <= old(cidOidToOrder.Keys)
      ensures
        var side := Opposite(inc.side);
        var s := SideOf(old(Contents()), side);
        var fill := Min(leavesQty, s[0].qty);
        && left == leavesQty - fill
        && Contents() == WithSide(old(Contents()), side, if fill == s[0].qty then s[1..] else [s[0].(qty := s[0].qty - fill)] + s[1..])
        && responses == old(responses) + FillResponses(inc, s[0], fill, left)
        && updates == old(updates) + FillUpdates(inc, s[0], fill)
    {
      hide Good, Abs, WellFormed, SideOf, WithSide, Holds;
      ghost var side := Opposite(inc.side);
      ghost var b0 := Contents();
      ghost var s := SideOf(b0, side);
      var order := itr;
      var o := orders[order].val;
      SideAt(Memory(), shape, side, 0);
      var orderQty := orders[order].val.qty;
      var fillQty := Min(leavesQty, orderQty);
      left := leavesQty - fillQty;
      FillGood(Memory(), shape, order, orderQty - fillQty);
      FillAbs(Memory(), shape, order, orderQty - fillQty, side, 0);
      assert Refilled(orders, order, orderQty - fillQty).Keys == orders.Keys;
      orders := Refilled(orders, order, orderQty - fillQty);
      SideReplaced(b0, side, s[0 := o.(qty := orderQty - fillQty)]);
      assert Contents() == WithSide(b0, side, s[0 := o.(qty := orderQty - fillQty)]);

      responses := responses + [Response(FILLED, inc.client, inc.ticker, inc.oid, inc.mid, inc.side, orders[itr].val.price, fillQty, left)];
      responses := responses + [Response(FILLED, orders[order].val.client, inc.ticker, orders[order].val.oid, orders[order].val.mid,
                                         orders[order].val.side, orders[itr].val.price, fillQty, orders[order].val.qty)];
      updates := updates + [Update(TRADE, OrderId_INVALID, inc.ticker, inc.side, orders[itr].val.price, fillQty, Priority_INVALID)];
      if orders[order].val.qty == 0 {
        updates := updates + [Update(CANCEL, orders[order].val.mid, inc.ticker, orders[order].val.side, orders[order].val.price, orderQty, Priority_INVALID)];
        FillAway(Memory(), shape, order, side, 0);
        ghost var k := RemoveOrder(order);
        assert DropAt(s[0 := o.(qty := 0)], 0) == s[1..];
      } else {
        assert s[0 := o.(qty := orderQty - fillQty)] == [o.(qty := orderQty - fillQty)] + s[1..];
        updates := updates + [Update(MODIFY, orders[order].val.mid, inc.ticker, orders[order].val.side, orders[order].val.price,
                                     orders[order].val.qty, orders[order].val.priority)];
      }
    }

    /** checkForMatch */
    method CheckForMatch(inc: Incoming, qty: Qty) returns (leavesQty: Qty)
      requires Good(Memory(), shape) && PoolsHold() && inc.side != INVALID
      modifies this, orderPool.isFree, levelPool.isFree
      ensures Good(Memory(), shape) && PoolsHold() && cidOidToOrder.Keys <= old(cidOidToOrder.Keys)
      ensures
        var m := Match(SideOf(old(Contents()), Opposite(inc.side)), inc, qty);
        && Contents() == WithSide(old(Contents()), Opposite(inc.side), m.rest) && leavesQty == m.leaves
        && responses == old(responses) + m.responses && updates == old(updates) + m.updates
      ensures |old(responses)| <= |responses| && |old(updates)| <= |updates|
      ensures forall i :: |old(responses)| <= i < |responses| ==>
        responses[i].kind == FILLED && if inc.side == BUY then responses[i].price <= inc.price else responses[i].price >= inc.price
      ensures forall i :: |old(updates)| <= i < |updates| && updates[i].kind == TRADE ==>
        if inc.side == BUY then updates[i].price <= inc.price else updates[i].price >= inc.price
      ensures leavesQty > 0 && inc.side == BUY && Contents().asks != [] ==> inc.price < Contents().asks[0].price
      ensures leavesQty > 0 && inc.side == SELL && Contents().bids != [] ==> inc.price > Contents().bids[0].price
    {
      hide Good, Abs, WellFormed, SideOf, WithSide, Match, Underway, Holds;
      ghost var b0, r0, u0 := Contents(), responses, updates;
      leavesQty := qty;
      UnderwayAtFirst(b0, inc, qty, r0, u0);
      if inc.side == BUY {
        while leavesQty != 0 && asksByPrice != NULL
          invariant Good(Memory(), shape) && PoolsHold() && cidOidToOrder.Keys <= old(cidOidToOrder.Keys)
          invariant Underway(b0, r0, u0, inc, qty, Contents(), responses, updates, leavesQty)
          decreases |SideOf(Contents(), SELL)|, leavesQty
        {
          BestFirst(Memory(), shape, SELL);
          var askItr := levels[asksByPrice].val.first;
          if inc.price < orders[askItr].val.price {
            break;
          }
          UnderwayOneMore(b0, r0, u0, inc, qty, Contents(), responses, updates, leavesQty);
          leavesQty := MatchOrder(inc, askItr, leavesQty);
        }
        BestFirst(Memory(), shape, SELL);
      }
      if inc.side == SELL {
        while leavesQty != 0 && bidsByPrice != NULL
          invariant Good(Memory(), shape) && PoolsHold() && cidOidToOrder.Keys <= old(cidOidToOrder.Keys)
          invariant Underway(b0, r0, u0, inc, qty, Contents(), responses, updates, leavesQty)
          decreases |SideOf(Contents(), BUY)|, leavesQty
        {
          BestFirst(Memory(), shape, BUY);
          var bidItr := levels[bidsByPrice].val.first;
          if inc.price > orders[bidItr].val.price {
            break;
          }
          UnderwayOneMore(b0, r0, u0, inc, qty, Contents(), responses, updates, leavesQty);
          leavesQty := MatchOrder(inc, bidItr, leavesQty);
        }
        BestFirst(Memory(), shape, BUY);
      }
      UnderwayAtLast(b0, r0, u0, inc, qty, Contents(), responses, updates, leavesQty);
      LimitKept(b0, Contents(), inc, qty);
    }

    /** `new` level is worse than a target: the test the walk repeats. */
    static predicate Worse(side: Side, price: Price, targetPrice: Price) {
      (side == SELL && price > targetPrice) || (side == BUY && price < targetPrice)
    }

    static predicate Foremost(side: Side, price: Price, bestPrice: Price) {
      (side == BUY && price > bestPrice) || (side == SELL && price < bestPrice)
    }

    /** The walk of addOrdersAtPrice over the levels, from the best: which level to link
        beside, and on which side of it.  Its first test lacks the condition that the side is
        BUY, so a new best ask among several starts at the second level. */
    method WalkLevels(n: Ptr, best: Ptr, ghost s: seq<Ptr>) returns (target: Ptr, addAfter: bool, ghost t: nat)
      requires n in levels && levels[n].val.side != INVALID && s != [] && SideOk(levels, best, s, levels[n].val.side)
      requires forall k :: 0 <= k < |s| ==> PriceAt(levels, s[k]) != PriceAt(levels, n)
      ensures t <= |s| && target == (if t == |s| then s[0] else s[t])
      ensures
        var side, price := levels[n].val.side, levels[n].val.price;
        if Better(side, price, PriceAt(levels, s[0])) then !addAfter && t == (if side == SELL && |s| > 1 then 1 else 0)
        else 1 <= t && addAfter == (t == |s|) && PlacedAt(levels, s, side, price, t)
    {
      var side, price := levels[n].val.side, levels[n].val.price;
      hide IsRing, LevelsSorted, PlacedAt, Better, PriceAt, Worse, BetterUpTo;
      target, t := best, 0;
      NextLevel(levels, s, 0);
      ghost var better := Better(side, price, PriceAt(levels, s[0]));
      Tested(levels, s[0], side, price);
      addAfter := (side == SELL && price > levels[target].val.price) || price < levels[target].val.price;
      if addAfter {
        target, t := levels[target].next, if better && |s| == 1 then 0 else 1;
        Tested(levels, target, side, price);
        if better { BestsAreWorse(levels, s, side, price); } else { OneMoreBetter(levels, s, side, price, 0); }
        addAfter := Worse(side, price, levels[target].val.price);
      }
      while addAfter && target != best
        invariant t <= |s| && target == (if t == |s| then s[0] else s[t])
        invariant better ==> !addAfter && t == if side == SELL && |s| > 1 then 1 else 0
        invariant !better ==> 1 <= t && (t == |s| ==> addAfter) && BetterUpTo(levels, s, side, price, t)
        invariant !better && !addAfter ==> t < |s| && Better(side, price, PriceAt(levels, s[t]))
        decreases |s| - t, addAfter
      {
        NextLevel(levels, s, t);
        Tested(levels, target, side, price);
        addAfter := Worse(side, price, levels[target].val.price);
        if addAfter {
          OneMoreBetter(levels, s, side, price, t);
          target, t := levels[target].next, t + 1;
        }
      }
      if !better {
        if addAfter && t < |s| { NextLevel(levels, s, t); assert false; }
        PlacedBySorted(levels, s, side, price, t);
      }
    }

    /** Links a level in behind another. */
    method LinkAfter(target: Ptr, n: Ptr)
      requires n in levels && target in levels && levels[target].next in levels && n != target && n != levels[target].next
      requires levels[levels[target].next].prev == target
      modifies this`levels
      ensures LinkedBefore(old(levels), levels, old(levels)[target].next, n)
    {
      levels := SetPrev(levels, n, target);
      levels := SetPrev(levels, levels[target].next, n);
      levels := SetNext(levels, n, levels[target].next);
      levels := SetNext(levels, target, n);
    }

    /** Links a level in before another. */
    method LinkBefore(target: Ptr, n: Ptr)
      requires n in levels && target in levels && levels[target].prev in levels && n != target && n != levels[target].prev
      modifies this`levels
      ensures LinkedBefore(old(levels), levels, target, n)
    {
      levels := SetPrev(levels, n, levels[target].prev);
      levels := SetNext(levels, n, target);
      levels := SetNext(levels, levels[target].prev, n);
      levels := SetPrev(levels, target, n);
    }

    /** The part of addOrdersAtPrice for a side that has levels. */
    method LinkLevel(n: Ptr, best: Ptr, ghost table: seq<Ptr>) returns (ghost i: nat)
      requires n in levels && n != NULL && levels[n].val.side != INVALID
      requires LevelsOk(levels - {n}, bidsByPrice, asksByPrice, table, shape.bids, shape.asks)
      requires table[IndexOf(PriceAt(levels, n))] == NULL && priceOrdersAtPrices == table[IndexOf(PriceAt(levels, n)) := n]
      requires LevelsOf(shape, levels[n].val.side) != [] && best == LevelsOf(shape, levels[n].val.side)[0]
      modifies this`levels, this`bidsByPrice, this`asksByPrice
      ensures levels.Keys == old(levels).Keys && forall l :: l in levels ==> levels[l].val == old(levels)[l].val
      ensures Joined(old(levels), levels, bidsByPrice, asksByPrice, priceOrdersAtPrices, shape.bids, shape.asks, n, levels[n].val, i)
    {
      hide LevelsOk, SideOk, IsRing, LevelsSorted, PlacedAt, LinkedBefore, InsertAt, Better, Foremost, IndexOf, Joined;
      ghost var info := levels[n].val;
      var side, price := levels[n].val.side, levels[n].val.price;
      ghost var levels0, bids0, asks0, sb, sa := levels, bidsByPrice, asksByPrice, shape.bids, shape.asks;
      ghost var s := LevelsOf(shape, side);
      assert price == PriceAt(levels, n);
      hide PriceAt;
      LevelsReached(levels, bidsByPrice, asksByPrice, table, sb, sa, side, n);
      var target, addAfter;
      ghost var t;
      target, addAfter, t := WalkLevels(n, best, s);
      ForemostIsBetter(levels, best, side, price);
      RingPlace(levels, s, if t == |s| then 0 else t);
      RingPlace(levels, s, 0);
      i := t;
      if addAfter {
        if target == best {
          target := levels[best].prev;
        }
        LinkAfter(target, n);
        LinkedVals(levels0, levels, s[0], n);
        LevelLinked(levels0, levels, bids0, asks0, bidsByPrice, asksByPrice, table, sb, sa, side, i, n);
        JoinedWell(levels0, levels, bidsByPrice, asksByPrice, priceOrdersAtPrices, sb, sa, n, info, i);
      } else {
        LinkBefore(target, n);
        LinkedVals(levels0, levels, target, n);
        if Foremost(side, price, levels[best].val.price) {
          ghost var linked := levels;
          AtBest(levels0, linked, s, t, n);
          levels := SetNext(levels, target, if levels[target].next == best then n else levels[target].next);
          if side == BUY { bidsByPrice := n; } else { asksByPrice := n; }
          if t == 0 {
            assert levels == linked;
            PlacedFirst(levels0, best, s, side, price);
            LevelLinked(levels0, levels, bids0, asks0, bidsByPrice, asksByPrice, table, sb, sa, side, i, n);
            JoinedWell(levels0, levels, bidsByPrice, asksByPrice, priceOrdersAtPrices, sb, sa, n, info, i);
          } else {
            AsksMislinked(levels0, levels, best, s, n, bidsByPrice, priceOrdersAtPrices);
            JoinedBadly(levels0, levels, bidsByPrice, asksByPrice, priceOrdersAtPrices, sb, sa, n, info, i);
          }
        } else {
          LevelLinked(levels0, levels, bids0, asks0, bidsByPrice, asksByPrice, table, sb, sa, side, i, n);
          JoinedWell(levels0, levels, bidsByPrice, asksByPrice, priceOrdersAtPrices, sb, sa, n, info, i);
        }
      }
    }

    /** addOrdersAtPrice: a new level enters the price table and the ring of its side.  Where
        it is a new best ask among several the ring it leaves is no ring of the asks. */
    method AddOrdersAtPrice(n: Ptr) returns (ghost i: nat)
      requires n in levels && n != NULL && levels[n].val.side != INVALID
      requires LevelsOk(levels - {n}, bidsByPrice, asksByPrice, priceOrdersAtPrices, shape.bids, shape.asks)
      requires priceOrdersAtPrices[IndexOf(PriceAt(levels, n))] == NULL
      modifies this`levels, this`bidsByPrice, this`asksByPrice, this`priceOrdersAtPrices, this`shape
      ensures levels.Keys == old(levels).Keys && forall l :: l in levels ==> levels[l].val == old(levels)[l].val
      ensures priceOrdersAtPrices == old(priceOrdersAtPrices)[IndexOf(PriceAt(levels, n)) := n] && shape.queues == old(shape).queues
      ensures
        var side, price := levels[n].val.side, levels[n].val.price;
        var s := LevelsOf(old(shape), side);
        && LevelsOf(shape, Opposite(side)) == LevelsOf(old(shape), Opposite(side))
        && if side == SELL && |s| > 1 && price < PriceAt(old(levels), s[0])
           then forall sb, sa :: !LevelsOk(levels, bidsByPrice, asksByPrice, priceOrdersAtPrices, sb, sa)
           else PlacedAt(old(levels), s, side, price, i) && LevelsOf(shape, side) == InsertAt(s, i, n)
                && LevelsOk(levels, bidsByPrice, asksByPrice, priceOrdersAtPrices, shape.bids, shape.asks)
    {
      hide LevelsOk, SideOk, IsRing, LevelsSorted, PlacedAt, InsertAt, Better;
      var side, price := levels[n].val.side, levels[n].val.price;
      ghost var levels0, table0, bids0, asks0, sb, sa := levels, priceOrdersAtPrices, bidsByPrice, asksByPrice, shape.bids, shape.asks;
      LevelsReached(levels, bidsByPrice, asksByPrice, priceOrdersAtPrices, sb, sa, side, n);
      priceOrdersAtPrices := priceOrdersAtPrices[IndexOf(price) := n];
      var best := if side == BUY then bidsByPrice else asksByPrice;
      if best == NULL {
        if side == BUY { bidsByPrice := n; } else { asksByPrice := n; }
        levels := SetPrev(SetNext(levels, n, n), n, n);
        i := 0;
        LevelAlone(levels0, levels, bids0, asks0, bidsByPrice, asksByPrice, table0, sb, sa, side, n);
        PlacedNowhere(levels0, LevelsOf(shape, side), side, price);
      } else {
        i := LinkLevel(n, best, table0);
      }
      shape := Shape(if side == BUY then InsertAt(sb, i, n) else sb, if side == BUY then sa else InsertAt(sa, i, n), shape.queues);
    }

    /** The part of addOrder for a price that has a level: behind the last order of its queue. */
    method LinkOrder(order: Ptr, firstOrder: Ptr)
      requires order in orders && firstOrder in orders && orders[firstOrder].prev in orders
      requires order != firstOrder && order != orders[firstOrder].prev
      modifies this`orders
      ensures LinkedBefore(old(orders), orders, firstOrder, order) && orders.Keys == old(orders).Keys
    {
      orders := SetNext(orders, orders[firstOrder].prev, order);
      orders := SetPrev(orders, order, orders[firstOrder].prev);
      orders := SetNext(orders, order, firstOrder);
      orders := SetPrev(orders, firstOrder, order);
    }

    /** A new level with this order alone, put into a block of the pool. */
    method EnterLevel(n: Ptr, order: Ptr) returns (ghost i: nat)
      requires order in orders && orders[order].val.side != INVALID && n != NULL && n !in levels
      requires LevelsOk(levels, bidsByPrice, asksByPrice, priceOrdersAtPrices, shape.bids, shape.asks)
      requires priceOrdersAtPrices[IndexOf(orders[order].val.price)] == NULL
      modifies this`levels, this`bidsByPrice, this`asksByPrice, this`priceOrdersAtPrices, this`shape
      ensures Entered(old(levels), old(priceOrdersAtPrices), old(shape), levels, bidsByPrice, asksByPrice, priceOrdersAtPrices, shape,
                      n, LevelInfo(orders[order].val.side, orders[order].val.price, order), i)
    {
      hide LevelsOk, InsertAt, Better, IndexOf;
      ghost var levels0, s := levels, LevelsOf(shape, orders[order].val.side);
      levels := levels[n := Node(LevelInfo(orders[order].val.side, orders[order].val.price, order), NULL, NULL)];
      assert levels - {n} == levels0;
      ghost var levels1 := levels;
      SidePrices(levels0, levels1, bidsByPrice, asksByPrice, priceOrdersAtPrices, shape.bids, shape.asks, orders[order].val.side);
      TableSize(levels0, bidsByPrice, asksByPrice, priceOrdersAtPrices, shape.bids, shape.asks);
      i := AddOrdersAtPrice(n);
      PlacedFrame(levels0, levels1, s, orders[order].val.side, orders[order].val.price, i);
    }

    /** The part of addOrder for a price without a level: a new level with this order alone.
        The process stops exactly if it would take the last block of the level pool. */
    method AddLevelFor(order: Ptr) returns (r: M.Outcome<Ptr>, ghost i: nat)
      requires order in orders && orders[order].val.side != INVALID
      requires LevelsOk(levels, bidsByPrice, asksByPrice, priceOrdersAtPrices, shape.bids, shape.asks)
      requires priceOrdersAtPrices[IndexOf(orders[order].val.price)] == NULL && Holds(levelPool, levels.Keys, ME_MAX_PRICE_LEVELS)
      modifies this`orders, this`levels, this`bidsByPrice, this`asksByPrice, this`priceOrdersAtPrices, this`shape
      modifies levelPool, levelPool.objects, levelPool.isFree
      ensures r.Running? <==> |old(levels)| < ME_MAX_PRICE_LEVELS - 1
      ensures orders == old(orders)[order := Node(old(orders)[order].val, order, order)]
      ensures r.Running? ==> r.value !in old(levels) && Holds(levelPool, levels.Keys, ME_MAX_PRICE_LEVELS)
      ensures r.Running? ==>
        Entered(old(levels), old(priceOrdersAtPrices), old(shape), levels, bidsByPrice, asksByPrice, priceOrdersAtPrices, shape,
                r.value, LevelInfo(orders[order].val.side, orders[order].val.price, order), i)
    {
      hide LevelsOk, Better, IndexOf, Holds, Entered;
      orders := SetPrev(SetNext(orders, order, order), order, order);
      ghost var orders1, levels0, table0, shape0 := orders, levels, priceOrdersAtPrices, shape;
      assert |levels| == |levels.Keys|;
      i := 0;
      r := Obtain(levelPool, levels.Keys, ME_MAX_PRICE_LEVELS);
      assert orders == orders1 && levels == levels0 && priceOrdersAtPrices == table0 && shape == shape0;
      if r.Running? {
        i := EnterLevel(r.value, order);
        EnteredKeys(levels0, table0, shape0, levels, bidsByPrice, asksByPrice, priceOrdersAtPrices, shape,
                    r.value, LevelInfo(orders[order].val.side, orders[order].val.price, order), i);
      }
    }

    /** The memory without an order that has its block but no place yet. */
    ghost function Without(order: Ptr): Store
      reads this
    {
      Memory().(orders := orders - {order})
    }

    /** An order about to be placed, made from a request. */
    ghost predicate Arriving(order: Ptr, inc: Incoming)
      reads this
    {
      && order in orders && order != NULL && inc.side != INVALID && Good(Without(order), shape)
      && var o, b := orders[order].val, Abs(Without(order), shape);
         && o.client == inc.client && o.oid == inc.oid && o.side == inc.side && o.price == inc.price
         && (CanRest(b, inc) ==> o.priority == NextPriority(SideOf(b, o.side), o.side, o.price))
    }

    /** What placing it makes of book `b`, where it can rest; and otherwise. */
    ghost predicate Placed(b: Book, o: Order, inc: Incoming)
      reads this
    {
      if CanRest(b, inc) then Good(Memory(), shape) && Contents() == WithSide(b, o.side, Insert(SideOf(b, o.side), o))
      else Broken(Memory())
    }

    /** The part of addOrder for a price that has no level in its slot of the table. */
    method AddOrderAlone(order: Ptr, ghost inc: Incoming) returns (r: M.Outcome<()>)
      requires Arriving(order, inc) && Holds(levelPool, levels.Keys, ME_MAX_PRICE_LEVELS)
      requires |priceOrdersAtPrices| == ME_MAX_PRICE_LEVELS && priceOrdersAtPrices[IndexOf(inc.price)] == NULL
      modifies this`orders, this`levels, this`bidsByPrice, this`asksByPrice, this`priceOrdersAtPrices, this`cidOidToOrder, this`shape
      modifies levelPool, levelPool.objects, levelPool.isFree
      ensures r.Running? <==> |old(levels)| < ME_MAX_PRICE_LEVELS - 1
      ensures r.Running? ==> Holds(levelPool, levels.Keys, ME_MAX_PRICE_LEVELS) && orders.Keys == old(orders).Keys
      ensures r.Running? ==> cidOidToOrder == old(cidOidToOrder)[(inc.client, inc.oid) := order]
      ensures r.Running? ==> Placed(old(Abs(Without(order), shape)), old(orders)[order].val, inc)
    {
      hide Good, LevelsOk, Abs, CanRest, WithSide, SideOf, Insert, IndexOf, Broken, NextPriority, Holds, Entered;
      ghost var st0, sh0, slots0 := Without(order), shape, cidOidToOrder;
      var o := orders[order].val;
      GoodParts(st0, sh0);
      var level;
      ghost var i;
      level, i := AddLevelFor(order);
      if level.Stopped? { return M.Stopped; }
      r := M.Running(());
      assert cidOidToOrder == slots0;
      cidOidToOrder := cidOidToOrder[(o.client, o.oid) := order];
      ghost var sh1 := shape;
      shape := shape.(queues := shape.queues[level.value := [order]]);
      AloneKeeps(st0, Memory(), sh0, sh1, level.value, order, o, i, inc);
    }

    /** The part of addOrder for a price whose slot of the table has a level. */
    method AddOrderBehind(order: Ptr, ordersAtPrice: Ptr, ghost inc: Incoming)
      requires Arriving(order, inc)
      requires |priceOrdersAtPrices| == ME_MAX_PRICE_LEVELS && ordersAtPrice == priceOrdersAtPrices[IndexOf(inc.price)] != NULL
      modifies this`orders, this`cidOidToOrder, this`shape
      ensures orders.Keys == old(orders).Keys && cidOidToOrder == old(cidOidToOrder)[(inc.client, inc.oid) := order]
      ensures Placed(old(Abs(Without(order), shape)), old(orders)[order].val, inc)
    {
      hide LevelsOk, QueuesOk, OrdersOk, SlotsOk, Abs, SlotTaken, IndexTaken, HasPrice, Mislinked, AllOrders, WithSide, SideOf, Insert,
           IndexOf, PriceAt, Broken, NextPriority, LinkedBefore, Queued;
      ghost var st0, sh0 := Without(order), shape;
      var o := orders[order].val;
      SlotGuard(st0, sh0, o.client, o.oid);
      TableGuard(st0, sh0, o.side, o.price);
      TableReached(st0, sh0, o.price);
      var firstOrder := levels[ordersAtPrice].val.first;
      LinkOrder(order, firstOrder);
      QueuedByWrites(st0.orders, old(orders), orders, order, firstOrder);
      QueuedVals(st0.orders, orders, order, o, firstOrder);
      cidOidToOrder := cidOidToOrder[(o.client, o.oid) := order];
      if CanRest(Abs(st0, sh0), inc) {
        AppendKeeps(st0, sh0, orders, ordersAtPrice, order, o);
        shape := shape.(queues := shape.queues[ordersAtPrice := shape.queues[ordersAtPrice] + [order]]);
      } else if (o.client, o.oid) in st0.slots {
        SlotLost(st0, sh0, Memory(), order, o);
      } else {
        PriceLost(Memory(), order, ordersAtPrice);
      }
    }

    /** addOrder: the process stops exactly if the order needs a level and the pool has only
        its last block left.  If it goes on, then where the order can rest it takes its place
        in the book; otherwise the links and tables no longer hold together. */
    method AddOrder(order: Ptr, ghost inc: Incoming) returns (r: M.Outcome<()>)
      requires Arriving(order, inc) && Holds(levelPool, levels.Keys, ME_MAX_PRICE_LEVELS)
      modifies this`orders, this`levels, this`bidsByPrice, this`asksByPrice, this`priceOrdersAtPrices, this`cidOidToOrder, this`shape
      modifies levelPool, levelPool.objects, levelPool.isFree
      ensures r.Running? <==> RoomForLevel(old(Abs(Without(order), shape)), inc.price)
      ensures r.Running? ==> Holds(levelPool, levels.Keys, ME_MAX_PRICE_LEVELS) && orders.Keys == old(orders).Keys
      ensures r.Running? ==> cidOidToOrder == old(cidOidToOrder)[(inc.client, inc.oid) := order]
      ensures r.Running? ==> Placed(old(Abs(Without(order), shape)), old(orders)[order].val, inc)
    {
      hide Good, Abs, IndexTaken, AllOrders, IndexOf, NextPriority, CanRest, Holds, Prices, Placed, SideOf;
      TableReached(Without(order), shape, inc.price);
      TableGuard(Without(order), shape, inc.side, inc.price);
      LevelCount(Without(order), shape);
      var ordersAtPrice := GetOrdersAtPrice(orders[order].val.price);
      if ordersAtPrice == NULL {
        r := AddOrderAlone(order, inc);
      } else {
        r := M.Running(());
        AddOrderBehind(order, ordersAtPrice, inc);
      }
    }

    /** The block of an order that comes to rest, or the process stops. */
    method NewOrder(inc: Incoming, leavesQty: Qty, priority: Priority) returns (r: M.Outcome<Ptr>)
      requires Good(Memory(), shape) && PoolsHold()
      modifies this`orders, orderPool, orderPool.objects, orderPool.isFree
      ensures r.Running? <==> |AllOrders(old(Contents()))| < ME_MAX_ORDER_IDS - 1
      ensures r.Running? ==> PoolsHold() && r.value !in old(orders) && r.value != NULL
      ensures r.Running? ==>
        orders == old(orders)[r.value := Node(Order(inc.client, inc.oid, inc.mid, inc.side, inc.price, leavesQty, priority), NULL, NULL)]
    {
      hide Good, Abs, Holds, AllOrders;
      ghost var orders0 := orders;
      OrderCount(Memory(), shape);
      assert |orders| == |orders.Keys|;
      r := Obtain(orderPool, orders.Keys, ME_MAX_ORDER_IDS);
      assert orders == orders0;
      if r.Running? {
        orders := orders[r.value := Node(Order(inc.client, inc.oid, inc.mid, inc.side, inc.price, leavesQty, priority), NULL, NULL)];
        assert orders.Keys == orders0.Keys + {r.value};
      }
    }

    /** The part of add after the matching: what is left comes to rest, or the process stops. */
    method RestOrder(inc: Incoming, leavesQty: Qty) returns (r: M.Outcome<()>, priority: Priority)
      requires Good(Memory(), shape) && PoolsHold() && inc.side != INVALID
      modifies this`orders, this`levels, this`bidsByPrice, this`asksByPrice, this`priceOrdersAtPrices, this`cidOidToOrder, this`shape
      modifies orderPool, orderPool.objects, orderPool.isFree, levelPool, levelPool.objects, levelPool.isFree
      ensures r.Running? <==> RoomToRest(old(Contents()), inc.price)
      ensures r.Running? ==> PoolsHold() && cidOidToOrder.Keys == old(cidOidToOrder.Keys) + {(inc.client, inc.oid)}
      ensures CanRest(old(Contents()), inc) ==> priority == NextPriority(SideOf(old(Contents()), inc.side), inc.side, inc.price)
      ensures r.Running? ==>
        Placed(old(Contents()), Order(inc.client, inc.oid, inc.mid, inc.side, inc.price, leavesQty, priority), inc)
    {
      hide Good, Abs, CanRest, NextPriority, Broken, Holds, AllOrders, RoomForLevel, Placed, SideOf;
      ghost var b, store0, slots0 := Contents(), Memory(), cidOidToOrder;
      priority := GetNextPriority(inc.price);
      if CanRest(b, inc) { PriorityAt(Memory(), shape, inc); }
      var block := NewOrder(inc, leavesQty, priority);
      if block.Stopped? { return M.Stopped, priority; }
      assert orders - {block.value} == store0.orders;
      assert cidOidToOrder == slots0 && Without(block.value) == store0;
      r := AddOrder(block.value, inc);
      assert r.Running? ==> cidOidToOrder == slots0[(inc.client, inc.oid) := block.value];
    }

    /** add: the process stops exactly on requests for which the pools have no room, after all
        responses and the updates of the matching are sent.  On every other request for which
        the guard holds, the book, the responses and the updates are those of price-time
        matching and the memory holds together; on the rest it does not. */
    method Add(client: ClientId, oid: OrderId, ticker: TickerId, side: Side, price: Price, qty: Qty) returns (r: M.Outcome<()>)
      requires Valid() && side != INVALID && client < ME_MAX_NUM_CLIENTS && oid < ME_MAX_ORDER_IDS
      modifies this, orderPool, orderPool.objects, orderPool.isFree, levelPool, levelPool.objects, levelPool.isFree
      ensures
        var inc := Incoming(client, oid, nextMarketOrderId, ticker, side, price);
        var b := old(Contents());
        var e := AddSpec(b, inc, qty);
        && responses == old(responses) + e.responses
        && responses[|old(responses)|] == Response(ACCEPTED, client, ticker, oid, nextMarketOrderId, side, price, 0, qty)
        && (r.Running? <==> HasRoom(b, New(inc, qty)))
        && if r.Stopped? then updates == old(updates) + Match(SideOf(b, Opposite(side)), inc, qty).updates
           else if Safe(b, New(inc, qty)) then Valid() && Contents() == e.book && updates == old(updates) + e.updates
           else Broken(Memory())
      ensures
        var inc := Incoming(client, oid, nextMarketOrderId, ticker, side, price);
        var m := Match(SideOf(old(Contents()), Opposite(side)), inc, qty);
        r.Running? && Safe(old(Contents()), New(inc, qty)) && m.leaves > 0 ==>
          exists o :: o in SideOf(Contents(), side) && o == Order(client, oid, nextMarketOrderId, side, price, m.leaves, o.priority)
            && updates == old(updates) + m.updates + [Update(ADD, nextMarketOrderId, ticker, side, price, m.leaves, o.priority)]
    {
      hide Good, Abs, Open, WellFormed, Match, CanRest, NextPriority, Insert, WithSide, SideOf, Broken, Holds, AllOrders, RoomForLevel;
      ghost var b := Contents();
      GoodBook(Memory(), shape);
      var newMarketOrderId := GenerateNewMarketOrderId();
      var inc := Incoming(client, oid, newMarketOrderId, ticker, side, price);
      responses := responses + [Response(ACCEPTED, client, ticker, oid, newMarketOrderId, side, price, 0, qty)];
      var leavesQty := CheckForMatch(inc, qty);
      ghost var b1 := Contents();
      OwnSide(b, inc, qty);
      if leavesQty > 0 { RestsAsAsked(b, inc, qty); }
      if Safe(b, New(inc, qty)) {
        AddKeeps(b, inc, qty);
        OpenIfWellFormed(AddSpec(b, inc, qty).book);
      }
      r := M.Running(());
      if leavesQty != 0 {
        var priority;
        r, priority := RestOrder(inc, leavesQty);
        if r.Running? {
          updates := updates + [Update(ADD, newMarketOrderId, ticker, side, price, leavesQty, priority)];
        }
      }
    }
  }

  /** A book whose memory holds together is well formed, and leaves a block of each pool free. */
  lemma ValidBook(book: MEOrderBook)
    requires book.Valid()
    ensures WellFormed(book.Contents())
    ensures |AllOrders(book.Contents())| < ME_MAX_ORDER_IDS && |Prices(AllOrders(book.Contents()))| < ME_MAX_PRICE_LEVELS
  {
    hide Good, Abs, Open, WellFormed, Holds, AllOrders;
    GoodBook(book.Memory(), book.shape);
    OrderCount(book.Memory(), book.shape);
    LevelCount(book.Memory(), book.shape);
    HoldsBelow(book.orderPool, book.orders.Keys, ME_MAX_ORDER_IDS);
    HoldsBelow(book.levelPool, book.levels.Keys, ME_MAX_PRICE_LEVELS);
    assert |book.orders| == |book.orders.Keys| && |book.levels| == |book.levels.Keys|;
  }

  lemma OpenIfWellFormed(b: Book)
    ensures WellFormed(b) ==> Open(b)
  {
    hide Sorted, AllLive, KeysDistinct, PricesApart;
  }

  lemma EnteredKeys(levels: Heap<LevelInfo>, table: seq<Ptr>, sh: Shape,
                    levels': Heap<LevelInfo>, bids: Ptr, asks: Ptr, table': seq<Ptr>, sh': Shape, n: Ptr, info: LevelInfo, i: nat)
    requires Entered(levels, table, sh, levels', bids, asks, table', sh', n, info, i)
    ensures levels'.Keys == levels.Keys + {n}
  {
    hide PlacedAt, LevelsOk, InsertAt, IndexOf;
  }

  lemma TableSize(levels: Heap<LevelInfo>, bids: Ptr, asks: Ptr, table: seq<Ptr>, sb: seq<Ptr>, sa: seq<Ptr>)
    requires LevelsOk(levels, bids, asks, table, sb, sa)
    ensures |table| == ME_MAX_PRICE_LEVELS
  {
    hide SideOk, Covers;
  }

  lemma GoodParts(st: Store, sh: Shape)
    requires Good(st, sh)
    ensures LevelsOk(st.levels, st.bids, st.asks, st.priceTable, sh.bids, sh.asks) && |st.priceTable| == ME_MAX_PRICE_LEVELS
  {
    hide SideOk, Covers, QueuesOk, OrdersOk, SlotsOk;
  }

  /** An order alone on a new level, where it can rest; and otherwise. */
  lemma AloneKeeps(st0: Store, st: Store, sh0: Shape, sh1: Shape, n: Ptr, p: Ptr, o: Order, i: nat, inc: Incoming)
    requires Good(st0, sh0) && p !in st0.orders && p != NULL && inc.side != INVALID
    requires o.client == inc.client && o.oid == inc.oid && o.side == inc.side && o.price == inc.price
    requires st.orders == st0.orders[p := Node(o, p, p)] && st.slots == st0.slots[(o.client, o.oid) := p]
    requires Entered(st0.levels, st0.priceTable, sh0, st.levels, st.bids, st.asks, st.priceTable, sh1, n, LevelInfo(o.side, o.price, p), i)
    requires st0.priceTable[IndexOf(o.price)] == NULL
    ensures
      var b := Abs(st0, sh0);
      var sh := sh1.(queues := sh1.queues[n := [p]]);
      if CanRest(b, inc) then Good(st, sh) && Abs(st, sh) == WithSide(b, o.side, Insert(SideOf(b, o.side), o)) else Broken(st)
  {
    hide LevelsOk, QueuesOk, OrdersOk, SlotsOk, Abs, SlotTaken, IndexTaken, HasPrice, Mislinked, AllOrders, WithSide, SideOf, Insert,
         IndexOf, PriceAt, PlacedAt, InsertAt, Broken, NextPriority;
    SlotGuard(st0, sh0, o.client, o.oid);
    TableGuard(st0, sh0, o.side, o.price);
    MislinkGuard(st0, sh0, o.side, o.price);
    if CanRest(Abs(st0, sh0), inc) {
      NewLevelKeeps(st0, st, sh0, sh1.(queues := sh1.queues[n := [p]]), n, p, o, i);
    } else if (o.client, o.oid) in st0.slots {
      SlotLost(st0, sh0, st, p, o);
    } else {
      RingLost(st);
    }
  }

  lemma EmptyStore(st: Store)
    requires st.orders == map[] && st.levels == map[] && st.bids == st.asks == NULL && st.slots == map[]
    requires st.priceTable == seq(ME_MAX_PRICE_LEVELS, _ => NULL)
    ensures Good(st, Shape([], [], map[])) && Abs(st, Shape([], [], map[])) == Book([], []) && Open(Book([], []))
  {
    var queues: map<Ptr, seq<Ptr>> := map[];
    assert LevelsOk(st.levels, NULL, NULL, st.priceTable, [], []) by { hide IndexOf, Better; }
    assert QueuesOk(st.orders, st.levels, queues) && OrdersOk(st.orders, st.priceTable, queues) && SlotsOk(st.orders, st.slots);
    hide LevelsOk, QueuesOk, OrdersOk, SlotsOk;
  }

  /** An order taken out is in the book no more, for no other has its key; the rest stays. */
  lemma GoneFromBook(b: Book, side: Side, k: nat)
    requires KeysDistinct(AllOrders(b)) && side != INVALID && k < |SideOf(b, side)|
    ensures
      var o, b' := SideOf(b, side)[k], WithSide(b, side, DropAt(SideOf(b, side), k));
      && o in AllOrders(b) && SlotTaken(AllOrders(b), o.client, o.oid) && o !in AllOrders(b')
      && multiset(AllOrders(b)) == multiset(AllOrders(b')) + multiset{o}
  {
    hide SlotTaken;
    var s, o := AllOrders(b), SideOf(b, side)[k];
    var x := if side == BUY then k else |b.bids| + k;
    assert s[x] == o;
    assert AllOrders(WithSide(b, side, DropAt(SideOf(b, side), k))) == DropAt(s, x);
    DropOne(s, x);
    TakenAt(s, x);
  }

  lemma TakenAt(s: seq<Order>, x: nat)
    requires x < |s|
    ensures SlotTaken(s, s[x].client, s[x].oid)
  {
  }

  lemma DropOne(s: seq<Order>, x: nat)
    requires KeysDistinct(s) && x < |s|
    ensures multiset(s) == multiset(DropAt(s, x)) + multiset{s[x]} && s[x] !in DropAt(s, x)
  {
    var s' := DropAt(s, x);
    assert s == s[..x] + [s[x]] + s[x + 1..];
    forall y | 0 <= y < |s'| ensures s'[y] != s[x] { assert s'[y] == s[if y < x then y else y + 1]; }
  }

  /** What rests is what is left, under the caller's own ids, price and side; and the ADD sent
      for it says the same. */
  lemma RestsAsAsked(b: Book, inc: Incoming, qty: Qty)
    requires inc.side != INVALID && Match(SideOf(b, Opposite(inc.side)), inc, qty).leaves > 0
    ensures
      var m, e := Match(SideOf(b, Opposite(inc.side)), inc, qty), AddSpec(b, inc, qty);
      exists o :: o in SideOf(e.book, inc.side) && o == Order(inc.client, inc.oid, inc.mid, inc.side, inc.price, m.leaves, o.priority)
        && e.updates == m.updates + [Update(ADD, inc.mid, inc.ticker, inc.side, inc.price, m.leaves, o.priority)]
  {
    hide Match;
    var m := Match(SideOf(b, Opposite(inc.side)), inc, qty);
    var s := SideOf(b, inc.side);
    var o := RestingOrder(s, inc, m.leaves);
    assert Insert(s, o)[Place(s, o.side, o.price)] == o;
    assert SideOf(AddSpec(b, inc, qty).book, inc.side) == Insert(s, o);
  }

  lemma SideReplaced(b: Book, side: Side, s: seq<Order>)
    requires side != INVALID
    ensures SideOf(WithSide(b, side, s), side) == s
    ensures forall s': seq<Order> :: WithSide(WithSide(b, side, s), side, s') == WithSide(b, side, s')
  {
  }

  /** Matching leaves the newcomer's own side alone. */
  lemma OwnSide(b: Book, inc: Incoming, qty: Qty)
    requires inc.side != INVALID
    ensures SideOf(AfterMatch(b, inc, qty), inc.side) == SideOf(b, inc.side)
  {
  }

  /** Where an order can rest, getNextPriority gives the priority of its place. */
  lemma PriorityAt(st: Store, sh: Shape, inc: Incoming)
    requires Good(st, sh) && inc.side != INVALID && CanRest(Abs(st, sh), inc)
    ensures |st.priceTable| == ME_MAX_PRICE_LEVELS
    ensures
      var l := st.priceTable[IndexOf(inc.price)];
      && (l != NULL ==> l in st.levels && st.levels[l].val.first in st.orders && st.orders[st.levels[l].val.first].prev in st.orders)
      && NextPriority(SideOf(Abs(st, sh), inc.side), inc.side, inc.price)
           == if l == NULL then 1 else st.orders[st.orders[st.levels[l].val.first].prev].val.priority + 1
  {
    hide LevelsOk, QueuesOk, OrdersOk, SlotsOk, Abs, SlotTaken, IndexTaken, Mislinked, AllOrders, Place, IsRing, SideOf;
    TableReached(st, sh, inc.price);
    TableGuard(st, sh, inc.side, inc.price);
    var l := st.priceTable[IndexOf(inc.price)];
    if l != NULL {
      QueueOf(st, sh, l);
      var side, i := LevelPlace(st, sh, l);
      PlaceInLevel(st, sh, l, i);
      RingEnds(st.orders, sh.queues[l]);
    }
  }

  /** The prices of a side's levels are unchanged when the pool grows. */
  lemma SidePrices(levels: Heap<LevelInfo>, levels': Heap<LevelInfo>, bids: Ptr, asks: Ptr, table: seq<Ptr>, sb: seq<Ptr>, sa: seq<Ptr>, side: Side)
    requires LevelsOk(levels, bids, asks, table, sb, sa)
    requires forall l :: l in levels ==> l in levels' && levels'[l] == levels[l]
    ensures
      var s := if side == BUY then sb else sa;
      forall k :: 0 <= k < |s| ==> PriceAt(levels', s[k]) == PriceAt(levels, s[k])
  {
    hide IsRing, LevelsSorted, TableOk;
  }

  lemma PlacedFrame(levels: Heap<LevelInfo>, levels': Heap<LevelInfo>, s: seq<Ptr>, side: Side, price: Price, i: nat)
    requires forall k :: 0 <= k < |s| ==> PriceAt(levels', s[k]) == PriceAt(levels, s[k])
    ensures PlacedAt(levels', s, side, price, i) <==> PlacedAt(levels, s, side, price, i)
  {
    hide Better, PriceAt;
  }

  /** What addOrder dereferences is there. */
  lemma TableReached(st: Store, sh: Shape, price: Price)
    requires Good(st, sh)
    ensures |st.priceTable| == ME_MAX_PRICE_LEVELS && IndexOf(price) < ME_MAX_PRICE_LEVELS
    ensures
      var l := st.priceTable[IndexOf(price)];
      l != NULL ==> && l in st.levels && st.levels[l].val.side != INVALID && IndexOf(PriceAt(st.levels, l)) == IndexOf(price)
                    && st.levels[l].val.first in st.orders && st.orders[st.levels[l].val.first].prev in st.orders
  {
    hide IsRing, SideOk, OrdersOk, SlotsOk;
    TableLength(st.levels, st.priceTable);
    var l := st.priceTable[IndexOf(price)];
    if l != NULL {
      QueueOf(st, sh, l);
      hide Good;
      RingEnds(st.orders, sh.queues[l]);
      var side, i := LevelPlace(st, sh, l);
    }
  }

  lemma QueuedByWrites(orders0: Heap<Order>, orders1: Heap<Order>, orders2: Heap<Order>, p: Ptr, t: Ptr)
    requires p in orders1 && orders0 == orders1 - {p} && t in orders0 && p != NULL && LinkedBefore(orders1, orders2, t, p)
    ensures Queued(orders0, orders2, p, orders1[p].val, t)
  {
    hide LinkedBefore;
    assert orders0[p := orders1[p]] == orders1;
  }

  /** Two live orders with one slot between them. */
  lemma SlotLost(st0: Store, sh0: Shape, st: Store, p: Ptr, o: Order)
    requires Good(st0, sh0) && KeyOf(o) in st0.slots && p !in st0.orders
    requires p in st.orders && st.orders[p].val == o && forall q :: q in st0.orders ==> q in st.orders && st.orders[q].val == st0.orders[q].val
    ensures Broken(st)
  {
    var q := st0.slots[KeyOf(o)];
    assert q in st0.orders && KeyOf(st0.orders[q].val) == KeyOf(o) by { hide LevelsOk, QueuesOk, OrdersOk; }
    forall sh ensures !Good(st, sh) {
      hide LevelsOk, QueuesOk, OrdersOk, KeyOf;
      if Good(st, sh) { assert false; }
    }
  }

  lemma RingLost(st: Store)
    requires forall sb, sa :: !LevelsOk(st.levels, st.bids, st.asks, st.priceTable, sb, sa)
    ensures Broken(st)
  {
    hide LevelsOk;
  }

  /** A live order behind a level of another price or side. */
  lemma PriceLost(st: Store, p: Ptr, l: Ptr)
    requires p in st.orders && l in st.levels && |st.priceTable| == ME_MAX_PRICE_LEVELS && st.priceTable[IndexOf(st.orders[p].val.price)] == l
    requires st.orders[p].val.price != PriceAt(st.levels, l) || st.orders[p].val.side != st.levels[l].val.side
    ensures Broken(st)
  {
    forall sh ensures !Good(st, sh) {
      hide LevelsOk, SlotsOk, IsRing, Rising;
      if Good(st, sh) { assert false; }
    }
  }

  lemma LiveSlot(st: Store, sh: Shape, client: ClientId, oid: OrderId)
    requires Good(st, sh) && (client, oid) in st.slots
    ensures st.slots[(client, oid)] != NULL && st.slots[(client, oid)] in st.orders
    ensures st.orders[st.slots[(client, oid)]].val.client == client && st.orders[st.slots[(client, oid)]].val.oid == oid
  {
    hide LevelsOk, QueuesOk;
  }

  lemma CancelNothing(b: Book, client: ClientId, oid: OrderId, ticker: TickerId)
    requires !SlotTaken(AllOrders(b), client, oid)
    ensures
      CancelSpec(b, client, oid, ticker)
        == Effect(b, [Response(CANCEL_REJECTED, client, ticker, oid, OrderId_INVALID, INVALID, Price_INVALID, Qty_INVALID, Qty_INVALID)], [])
  {
    hide SlotTaken, AllOrders;
    FindNothing(b, client, oid);
  }

  lemma CancelFound(b: Book, side: Side, k: nat, ticker: TickerId)
    requires KeysDistinct(AllOrders(b)) && side != INVALID && k < |SideOf(b, side)|
    ensures CancelSpec(b, SideOf(b, side)[k].client, SideOf(b, side)[k].oid, ticker) == CancelAt(b, side, k, ticker)
  {
    hide KeysDistinct, AllOrders;
    FindUnique(b, side, k);
  }

  /** The rounds so far and the rounds that pure matching has left make up the whole. */
  ghost predicate Underway(b0: Book, r0: seq<Response>, u0: seq<Update>, inc: Incoming, qty: Qty,
                           b: Book, r: seq<Response>, u: seq<Update>, leaves: Qty) {
    var side := Opposite(inc.side);
    var m0, m := Match(SideOf(b0, side), inc, qty), Match(SideOf(b, side), inc, leaves);
    && b == WithSide(b0, side, SideOf(b, side)) && m0.rest == m.rest && m0.leaves == m.leaves
    && r0 + m0.responses == r + m.responses && u0 + m0.updates == u + m.updates
  }

  lemma UnderwayAtFirst(b0: Book, inc: Incoming, qty: Qty, r0: seq<Response>, u0: seq<Update>)
    ensures Underway(b0, r0, u0, inc, qty, b0, r0, u0, qty)
  {
  }

  lemma UnderwayOneMore(b0: Book, r0: seq<Response>, u0: seq<Update>, inc: Incoming, qty: Qty,
                        b: Book, r: seq<Response>, u: seq<Update>, leaves: Qty)
    requires inc.side != INVALID && Underway(b0, r0, u0, inc, qty, b, r, u, leaves)
    requires !Stops(SideOf(b, Opposite(inc.side)), inc, leaves)
    ensures
      var side := Opposite(inc.side);
      var s := SideOf(b, side);
      var fill := Min(leaves, s[0].qty);
      var s' := if fill == s[0].qty then s[1..] else [s[0].(qty := s[0].qty - fill)] + s[1..];
      && Underway(b0, r0, u0, inc, qty, WithSide(b, side, s'), r + FillResponses(inc, s[0], fill, leaves - fill), u + FillUpdates(inc, s[0], fill), leaves - fill)
      && SideOf(WithSide(b, side, s'), side) == s'
  {
    hide Match, Stops, FillResponses, FillUpdates;
    var side := Opposite(inc.side);
    var s := SideOf(b, side);
    MatchOneRound(s, inc, leaves);
    var fill := Min(leaves, s[0].qty);
    var n := Match(if fill == s[0].qty then s[1..] else [s[0].(qty := s[0].qty - fill)] + s[1..], inc, leaves - fill);
    assert r + (FillResponses(inc, s[0], fill, leaves - fill) + n.responses) == (r + FillResponses(inc, s[0], fill, leaves - fill)) + n.responses;
    assert u + (FillUpdates(inc, s[0], fill) + n.updates) == (u + FillUpdates(inc, s[0], fill)) + n.updates;
  }

  /** Pure matching is one fill, and then matching with what that leaves. */
  lemma MatchOneRound(s: seq<Order>, inc: Incoming, leaves: Qty)
    requires !Stops(s, inc, leaves)
    ensures s != [] && leaves > 0
    ensures
      var fill := Min(leaves, s[0].qty);
      var m := Match(s, inc, leaves);
      var n := Match(if fill == s[0].qty then s[1..] else [s[0].(qty := s[0].qty - fill)] + s[1..], inc, leaves - fill);
      && m.rest == n.rest && m.leaves == n.leaves
      && m.responses == FillResponses(inc, s[0], fill, leaves - fill) + n.responses
      && m.updates == FillUpdates(inc, s[0], fill) + n.updates
  {
    hide Crosses, FillResponses, FillUpdates;
  }

  lemma UnderwayAtLast(b0: Book, r0: seq<Response>, u0: seq<Update>, inc: Incoming, qty: Qty,
                       b: Book, r: seq<Response>, u: seq<Update>, leaves: Qty)
    requires Underway(b0, r0, u0, inc, qty, b, r, u, leaves) && Stops(SideOf(b, Opposite(inc.side)), inc, leaves)
    ensures
      var m := Match(SideOf(b0, Opposite(inc.side)), inc, qty);
      b == WithSide(b0, Opposite(inc.side), m.rest) && leaves == m.leaves && r == r0 + m.responses && u == u0 + m.updates
  {
  }

  lemma LimitKept(b0: Book, b: Book, inc: Incoming, qty: Qty)
    requires inc.side != INVALID
    requires b == WithSide(b0, Opposite(inc.side), Match(SideOf(b0, Opposite(inc.side)), inc, qty).rest)
    ensures
      var m := Match(SideOf(b0, Opposite(inc.side)), inc, qty);
      && (forall i :: 0 <= i < |m.responses| ==>
            m.responses[i].kind == FILLED && if inc.side == BUY then m.responses[i].price <= inc.price else m.responses[i].price >= inc.price)
      && (forall i :: 0 <= i < |m.updates| && m.updates[i].kind == TRADE ==>
            if inc.side == BUY then m.updates[i].price <= inc.price else m.updates[i].price >= inc.price)
      && (m.leaves > 0 && inc.side == BUY && b.asks != [] ==> inc.price < b.asks[0].price)
      && (m.leaves > 0 && inc.side == SELL && b.bids != [] ==> inc.price > b.bids[0].price)
  {
    hide Match;
    TradesWithinLimit(SideOf(b0, Opposite(inc.side)), inc, qty);
  }

  /** What removeOrder dereferences is there. */
  lemma OrderReached(st: Store, sh: Shape, side: Side, i: nat, j: nat)
    requires Good(st, sh) && side != INVALID && i < |LevelsOf(sh, side)| && j < |QueueAt(sh.queues, LevelsOf(sh, side)[i])|
    ensures |st.priceTable| == ME_MAX_PRICE_LEVELS
    ensures
      var l := LevelsOf(sh, side)[i];
      var q := QueueAt(sh.queues, l);
      && l in st.levels && l in sh.queues && st.levels[l].val.side == side
      && q[j] in st.orders && st.orders[q[j]].prev in st.orders && st.orders[q[j]].next in st.orders
      && (st.orders[q[j]].prev == q[j] <==> |q| == 1) && (st.orders[q[j]].next == q[j] <==> |q| == 1)
      && (|q| == 1 ==> q == [q[j]])
      && st.levels[l].val.first == q[0] && (q[j] == q[0] <==> j == 0) && (j == 0 && |q| > 1 ==> st.orders[q[j]].next == q[1])
  {
    hide Covers, LevelsSorted, IsRing, OrdersOk, SlotsOk;
    TableLength(st.levels, st.priceTable);
    hide TableOk;
    var l := LevelsOf(sh, side)[i];
    assert QueueOk(st.orders, st.levels[l].val, sh.queues[l]);
    RingPlace(st.orders, sh.queues[l], j);
  }

  lemma NextLevel(levels: Heap<LevelInfo>, s: seq<Ptr>, t: nat)
    requires IsRing(levels, s) && t < |s|
    ensures s[t] in levels && levels[s[t]].next == (if t + 1 == |s| then s[0] else s[t + 1])
    ensures t > 0 ==> s[t] != s[0]
    ensures t + 1 < |s| ==> s[t + 1] in levels
  {
  }

  /** The tests of the walk say which of the two prices is better. */
  lemma Tested(levels: Heap<LevelInfo>, l: Ptr, side: Side, price: Price)
    requires l in levels && side != INVALID && price != PriceAt(levels, l)
    ensures MEOrderBook.Worse(side, price, levels[l].val.price) <==> Better(side, PriceAt(levels, l), price)
    ensures MEOrderBook.Worse(side, price, levels[l].val.price) <==> !Better(side, price, PriceAt(levels, l))
    ensures
      var p := levels[l].val.price;
      (side == SELL && price > p) || price < p <==> MEOrderBook.Worse(side, price, p) || side == SELL
  {
  }

  lemma ForemostIsBetter(levels: Heap<LevelInfo>, l: Ptr, side: Side, price: Price)
    requires l in levels && side != INVALID
    ensures MEOrderBook.Foremost(side, price, levels[l].val.price) == Better(side, price, PriceAt(levels, l))
    ensures MEOrderBook.Foremost(side, price, levels[l].val.price) && side == SELL <==> price < PriceAt(levels, l) && side == SELL
  {
  }

  lemma NotBoth(side: Side, p: Price, q: Price)
    requires Better(side, p, q)
    ensures !Better(side, q, p)
  {
  }

  /** A price better than the best is better than the second best, too. */
  lemma BestsAreWorse(levels: Heap<LevelInfo>, s: seq<Ptr>, side: Side, price: Price)
    requires LevelsSorted(levels, s, side) && s != [] && Better(side, price, PriceAt(levels, s[0]))
    ensures forall k :: 0 <= k < |s| ==> !Better(side, PriceAt(levels, s[k]), price)
  {
    forall k | 0 <= k < |s| ensures !Better(side, PriceAt(levels, s[k]), price) {
      BetterThanRest(levels, s, side, price, 0, k);
      NotBoth(side, price, PriceAt(levels, s[k]));
    }
  }

  /** The walk has passed only better prices. */
  ghost predicate BetterUpTo(levels: Heap<LevelInfo>, s: seq<Ptr>, side: Side, price: Price, t: nat) {
    t <= |s| && forall k :: 0 <= k < t ==> Better(side, PriceAt(levels, s[k]), price)
  }

  lemma OneMoreBetter(levels: Heap<LevelInfo>, s: seq<Ptr>, side: Side, price: Price, t: nat)
    requires t == 0 || BetterUpTo(levels, s, side, price, t)
    requires t < |s| && Better(side, PriceAt(levels, s[t]), price)
    ensures BetterUpTo(levels, s, side, price, t + 1)
  {
    hide Better, PriceAt;
  }

  lemma PlacedBySorted(levels: Heap<LevelInfo>, s: seq<Ptr>, side: Side, price: Price, t: nat)
    requires LevelsSorted(levels, s, side) && t <= |s| && BetterUpTo(levels, s, side, price, t)
    requires t < |s| ==> Better(side, price, PriceAt(levels, s[t]))
    ensures PlacedAt(levels, s, side, price, t)
  {
    hide PriceAt;
    forall k | t <= k < |s| ensures Better(side, price, PriceAt(levels, s[k])) {
      if t < k { assert Better(side, PriceAt(levels, s[t]), PriceAt(levels, s[k])); }
    }
  }

  lemma PlacedNowhere(levels: Heap<LevelInfo>, s: seq<Ptr>, side: Side, price: Price)
    requires s == []
    ensures PlacedAt(levels, s, side, price, 0)
  {
  }

  /** What addOrdersAtPrice dereferences is there. */
  lemma LevelsReached(levels: Heap<LevelInfo>, bids: Ptr, asks: Ptr, table: seq<Ptr>, sb: seq<Ptr>, sa: seq<Ptr>, side: Side, n: Ptr)
    requires n in levels && n != NULL && side != INVALID && LevelsOk(levels - {n}, bids, asks, table, sb, sa)
    requires table[IndexOf(PriceAt(levels, n))] == NULL
    ensures |table| == ME_MAX_PRICE_LEVELS
    ensures
      var s, head := if side == BUY then sb else sa, if side == BUY then bids else asks;
      && SideOk(levels, head, s, side) && IsRing(levels, s) && n !in s && head == (if s == [] then NULL else s[0])
      && forall k :: 0 <= k < |s| ==> s[k] in levels && s[k] != NULL && PriceAt(levels, s[k]) != PriceAt(levels, n)
  {
    hide IsRing, LevelsSorted;
    var s := if side == BUY then sb else sa;
    SideAmongMore(levels, bids, sb, BUY, n);
    SideAmongMore(levels, asks, sa, SELL, n);
    forall k | 0 <= k < |s| ensures s[k] in levels && s[k] != NULL && PriceAt(levels, s[k]) != PriceAt(levels, n) {
      assert s[k] in s;
      assert s[k] in levels - {n} && PriceAt(levels - {n}, s[k]) == PriceAt(levels, s[k]);
    }
  }

  /** After the four writes the target does not point back at the best level, unless it is
      the last one. */
  lemma AtBest(levels: Heap<LevelInfo>, levels': Heap<LevelInfo>, s: seq<Ptr>, t: nat, n: Ptr)
    requires IsRing(levels, s) && t < |s| && t <= 1 && n in levels && n !in s && s[t] in levels && LinkedBefore(levels, levels', s[t], n)
    ensures n in levels' && s[t] in levels' && levels'[n].next == s[t] && levels'.Keys == levels.Keys
    ensures forall l :: l in levels ==> levels'[l].val == levels[l].val
    ensures t == 0 ==> levels'[s[t]].next != s[0]
    ensures t == 1 ==> s[0] in levels && s[0] != s[1]
  {
    NextLevel(levels, s, t);
    RingPlace(levels, s, t);
  }

  lemma AsksMislinked(levels: Heap<LevelInfo>, levels': Heap<LevelInfo>, head: Ptr, s: seq<Ptr>, n: Ptr, bids: Ptr, table: seq<Ptr>)
    requires SideOk(levels, head, s, SELL) && |s| > 1 && n in levels && n !in s && n != NULL
    requires levels'.Keys == levels.Keys && levels'[n].next == s[1] && forall l :: l in levels ==> levels'[l].val == levels[l].val
    ensures forall sb, sa :: !LevelsOk(levels', bids, n, table, sb, sa)
  {
    assert Better(SELL, PriceAt(levels, s[0]), PriceAt(levels, s[1]));
    assert s[0] != s[1] && s[0] in s && s[1] in s;
    hide SideOk, LevelsOk, IsRing, LevelsSorted;
    forall sb, sa ensures !LevelsOk(levels', bids, n, table, sb, sa) {
      AsksBroken(levels', bids, n, table, s[1], s[0], sb, sa);
    }
  }

  lemma PlacedFirst(levels: Heap<LevelInfo>, head: Ptr, s: seq<Ptr>, side: Side, price: Price)
    requires SideOk(levels, head, s, side) && s != [] && Better(side, price, PriceAt(levels, s[0]))
    ensures PlacedAt(levels, s, side, price, 0)
  {
    hide IsRing;
    PlacedBySorted(levels, s, side, price, 0);
  }

  /** The writes of removeOrdersAtPrice to the links, and the release of the level. */
  ghost predicate Unhooked(levels: Heap<LevelInfo>, levels': Heap<LevelInfo>, l: Ptr)
    requires l in levels && levels[l].prev in levels && levels[l].next in levels
  {
    levels' == (if levels[l].next == l then levels
                else SetPrev(SetNext(levels, levels[l].prev, levels[l].next), levels[l].next, levels[l].prev)) - {l}
  }

  lemma UnhookedByWrites(levels: Heap<LevelInfo>, levels': Heap<LevelInfo>, l: Ptr)
    requires l in levels && levels[l].prev in levels && levels[l].next in levels
    requires levels[l].next == l <==> levels[l].prev == l
    requires levels'.Keys == levels.Keys - {l}
    requires levels[l].next == l ==> forall q :: q in levels' ==> levels'[q] == levels[q]
    requires levels[l].next != l ==>
      var h := SetPrev(SetNext(levels, levels[l].prev, levels[l].next), levels[l].next, levels[l].prev);
      forall q :: q in levels' ==> levels'[q] == h[q]
    ensures Unhooked(levels, levels', l)
  {
  }

  /** What removeOrdersAtPrice dereferences is there. */
  lemma LevelReached(levels: Heap<LevelInfo>, bids: Ptr, asks: Ptr, table: seq<Ptr>, sb: seq<Ptr>, sa: seq<Ptr>, side: Side, i: nat)
    requires LevelsOk(levels, bids, asks, table, sb, sa) && side != INVALID
    requires i < |(if side == BUY then sb else sa)|
    ensures |table| == ME_MAX_PRICE_LEVELS
    ensures
      var s, head := if side == BUY then sb else sa, if side == BUY then bids else asks;
      && s[i] in levels && levels[s[i]].prev in levels && levels[s[i]].next in levels
      && (levels[s[i]].next == s[i] <==> |s| == 1) && (levels[s[i]].prev == s[i] <==> |s| == 1)
      && (s[i] == head <==> i == 0) && (i == 0 && |s| > 1 ==> levels[s[i]].next == s[1])
  {
    hide Covers, LevelsSorted, IsRing;
    TableLength(levels, table);
    hide TableOk;
    RingPlace(levels, if side == BUY then sb else sa, i);
  }

  lemma LevelRemoved(levels: Heap<LevelInfo>, levels': Heap<LevelInfo>, bids: Ptr, asks: Ptr, bids': Ptr, asks': Ptr,
                     table: seq<Ptr>, sb: seq<Ptr>, sa: seq<Ptr>, side: Side, i: nat, l: Ptr)
    requires LevelsOk(levels, bids, asks, table, sb, sa) && l in levels && side != INVALID
    requires levels[l].prev in levels && levels[l].next in levels && Unhooked(levels, levels', l)
    requires |table| == ME_MAX_PRICE_LEVELS
    requires side == BUY ==> i < |sb| && sb[i] == l && asks' == asks && bids' == (if |sb| == 1 then NULL else if i == 0 then sb[1] else bids)
    requires side == SELL ==> i < |sa| && sa[i] == l && bids' == bids && asks' == (if |sa| == 1 then NULL else if i == 0 then sa[1] else asks)
    ensures levels'.Keys == levels.Keys - {l} && forall q :: q in levels' && q in levels ==> levels'[q].val == levels[q].val
    ensures
      LevelsOk(levels', bids', asks', table[IndexOf(PriceAt(levels, l)) := NULL],
               if side == BUY then DropAt(sb, i) else sb, if side == BUY then sa else DropAt(sa, i))
  {
    var s := if side == BUY then sb else sa;
    hide LevelsSorted, Covers, TableOk, IsRing;
    RingPlace(levels, s, i);
    if |s| == 1 {
      EmptySide(levels', side);
      assert DropAt(s, i) == [];
    } else {
      assert Unlinked(levels, levels', l);
      SideRemove(levels, levels', s, side, i);
    }
    OtherUntouched(levels, levels', bids, asks, sb, sa, side, l);
    hide SideOk, Unhooked, DropAt, IndexOf;
    LevelsFewer(levels, levels', bids, asks, bids', asks', table, sb, sa, side, i, l);
  }

  lemma TableLength(levels: Heap<LevelInfo>, table: seq<Ptr>)
    requires TableOk(levels, table)
    ensures |table| == ME_MAX_PRICE_LEVELS
  {
  }

  lemma RingPlace<T>(levels: Heap<T>, s: seq<Ptr>, i: nat)
    requires IsRing(levels, s) && i < |s|
    ensures s[i] in levels && levels[s[i]].prev in s && levels[s[i]].next in s
    ensures levels[s[i]].prev in levels && levels[s[i]].next in levels
    ensures |s| == 1 <==> levels[s[i]].next == s[i]
    ensures |s| == 1 <==> levels[s[i]].prev == s[i]
    ensures levels[levels[s[i]].prev].next == s[i] && levels[levels[s[i]].next].prev == s[i]
    ensures |s| > 1 && i == 0 ==> levels[s[i]].next == s[1]
    ensures i > 0 ==> s[i] != s[0]
  {
    hide IsRing;
    RingSingle(levels, s, i);
    var j := PredIndex(|s|, i);
    var k := if i + 1 == |s| then 0 else i + 1;
    LinksAt(levels, s, i);
    LinksAt(levels, s, j);
    LinksAt(levels, s, k);
  }

  lemma LinksAt<T>(levels: Heap<T>, s: seq<Ptr>, i: nat)
    requires IsRing(levels, s) && i < |s|
    ensures s[i] in levels && levels[s[i]].next == Following(s, i) && levels[s[i]].prev == Preceding(s, i)
    ensures i > 0 ==> s[i] != s[0]
  {
  }

  lemma EmptySide(levels: Heap<LevelInfo>, side: Side)
    ensures SideOk(levels, NULL, [], side)
  {
  }

  /** Unlinking a level of one side leaves the other side's levels alone. */
  lemma OtherUntouched(levels: Heap<LevelInfo>, levels': Heap<LevelInfo>, bids: Ptr, asks: Ptr, sb: seq<Ptr>, sa: seq<Ptr>, side: Side, l: Ptr)
    requires SideOk(levels, bids, sb, BUY) && SideOk(levels, asks, sa, SELL) && side != INVALID
    requires l in (if side == BUY then sb else sa) && l in levels
    requires levels'.Keys == levels.Keys - {l}
    requires forall q :: q in levels && q != l && q != levels[l].prev && q != levels[l].next ==> q in levels' && levels'[q] == levels[q]
    requires levels[l].prev in (if side == BUY then sb else sa) && levels[l].next in (if side == BUY then sb else sa)
    ensures forall q :: q in (if side == BUY then sa else sb) ==> q in levels' && q in levels && levels'[q] == levels[q]
  {
    hide IsRing, LevelsSorted;
  }

  // ---------------------------------------------------------------------------------------
  // Two books on which a further order breaks the memory
  // ---------------------------------------------------------------------------------------

  lemma AsksWellFormed(s: seq<Order>)
    requires Sorted(SELL, s) && AllLive(SELL, s) && KeysDistinct(s) && PricesApart(s)
    ensures WellFormed(Book([], s)) && AllOrders(Book([], s)) == s
  {
    hide KeysDistinct, PricesApart;
    assert AllOrders(Book([], s)) == s;
  }

  /** A new best ask among two levels of asks is not safe. */
  lemma NewBestAskIsNotSafe()
    ensures
      var a, a' := Order(1, 0, 1, SELL, 105, 10, 1), Order(1, 1, 1, SELL, 106, 10, 1);
      WellFormed(Book([], [a, a'])) && !Safe(Book([], [a, a']), New(Incoming(2, 0, 1, 0, SELL, 104), 10))
  {
    var a, a' := Order(1, 0, 1, SELL, 105, 10, 1), Order(1, 1, 1, SELL, 106, 10, 1);
    var inc := Incoming(2, 0, 1, 0, SELL, 104);
    hide WellFormed, Sorted, AllLive, KeysDistinct, PricesApart, AllOrders, SlotTaken, IndexTaken, HasPrice, Mislinked, Match, AfterMatch, CanRest;
    TwoAsks(a, a');
    AsksWellFormed([a, a']);
    NothingToMatch(inc, [a, a']);
    AmongTwoAsks(a, a', inc);
    hide Safe, SideOf;
    NothingTraded(Book([], [a, a']), inc);
  }

  /** Beside a single level it is. */
  lemma NewBestAskBesideOneIsSafe()
    ensures
      var a := Order(1, 0, 1, SELL, 105, 10, 1);
      WellFormed(Book([], [a])) && Safe(Book([], [a]), New(Incoming(2, 0, 1, 0, SELL, 104), 10))
  {
    var a := Order(1, 0, 1, SELL, 105, 10, 1);
    var inc := Incoming(2, 0, 1, 0, SELL, 104);
    hide WellFormed, Sorted, AllLive, KeysDistinct, PricesApart, AllOrders, SlotTaken, IndexTaken, HasPrice, Mislinked, Match, AfterMatch, CanRest;
    OneAsk(a);
    AsksWellFormed([a]);
    NothingToMatch(inc, [a]);
    AboveOneAsk(a, inc);
    hide Safe, SideOf;
    NothingTraded(Book([], [a]), inc);
  }

  lemma NothingToMatch(inc: Incoming, s: seq<Order>)
    requires inc.side == SELL
    ensures Match([], inc, 10) == Matched([], 10, [], []) && AfterMatch(Book([], s), inc, 10) == Book([], s)
  {
  }

  /** A request that trades with nobody is safe exactly if it can rest at once. */
  lemma NothingTraded(b: Book, inc: Incoming)
    requires inc.side == SELL && b.bids == []
    ensures Safe(b, New(inc, 10)) <==> CanRest(b, inc)
  {
    hide CanRest;
    NothingToMatch(inc, b.asks);
    assert b == Book([], b.asks);
  }

  lemma OneAsk(a: Order)
    requires a == Order(1, 0, 1, SELL, 105, 10, 1)
    ensures Sorted(SELL, [a]) && AllLive(SELL, [a]) && KeysDistinct([a]) && PricesApart([a])
  {
  }

  lemma TwoAsks(a: Order, a': Order)
    requires a == Order(1, 0, 1, SELL, 105, 10, 1) && a' == Order(1, 1, 1, SELL, 106, 10, 1)
    ensures Sorted(SELL, [a, a']) && AllLive(SELL, [a, a']) && KeysDistinct([a, a']) && PricesApart([a, a'])
  {
    var s := [a, a'];
    assert s[0] == a && s[1] == a' && |s| == 2;
    assert IndexOf(a.price) == 105 && IndexOf(a'.price) == 106;
    hide IndexOf;
  }

  lemma AmongTwoAsks(a: Order, a': Order, inc: Incoming)
    requires a == Order(1, 0, 1, SELL, 105, 10, 1) && a' == Order(1, 1, 1, SELL, 106, 10, 1) && inc == Incoming(2, 0, 1, 0, SELL, 104)
    ensures !CanRest(Book([], [a, a']), inc)
  {
  }

  lemma AboveOneAsk(a: Order, inc: Incoming)
    requires a == Order(1, 0, 1, SELL, 105, 10, 1) && inc == Incoming(2, 0, 1, 0, SELL, 104)
    ensures CanRest(Book([], [a]), inc)
  {
    assert AllOrders(Book([], [a])) == [a];
  }

  /** A bid whose price shares its slot of the price table with another bid. */
  lemma PricesThatShareASlotAreNotSafe()
    ensures
      var o := Order(1, 0, 1, BUY, 100, 10, 1);
      WellFormed(Book([o], [])) && !Safe(Book([o], []), New(Incoming(2, 0, 1, 0, BUY, 356), 10))
  {
    var o := Order(1, 0, 1, BUY, 100, 10, 1);
    var inc := Incoming(2, 0, 1, 0, BUY, 356);
    assert Match([], inc, 10) == Matched([], 10, [], []);
    assert AllOrders(Book([o], [])) == [o];
    assert AfterMatch(Book([o], []), inc, 10) == Book([o], []);
    assert IndexOf([o][0].price) == IndexOf(356);
  }
}
