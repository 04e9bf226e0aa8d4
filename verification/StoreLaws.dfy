/** What a store that holds together says of the book it represents: the book is sorted, its
    keys and prices do not clash, and the tables answer what a search of the book would. */
module StoreLaws {
  import opened Seqs
  import opened BookSpec
  import opened Ring
  import opened BookStore

  // ---------------------------------------------------------------------------------------
  // Positions
  // ---------------------------------------------------------------------------------------

  lemma ValsFrame(orders: Heap<Order>, orders': Heap<Order>, s: seq<Ptr>)
    requires forall p :: p in s ==> ValAt(orders', p) == ValAt(orders, p)
    ensures Vals(orders', s) == Vals(orders, s)
  {
    forall i | 0 <= i < |s| ensures Vals(orders', s)[i] == Vals(orders, s)[i] { assert s[i] in s; }
  }

  lemma ValsInsert(orders: Heap<Order>, s: seq<Ptr>, k: nat, p: Ptr)
    requires k <= |s|
    ensures Vals(orders, InsertAt(s, k, p)) == InsertAt(Vals(orders, s), k, ValAt(orders, p))
  {
  }

  lemma ValsDrop(orders: Heap<Order>, s: seq<Ptr>, k: nat)
    requires k < |s|
    ensures Vals(orders, DropAt(s, k)) == DropAt(Vals(orders, s), k)
  {
  }

  /** The order at an index of a side stands in the queue of a level with its price. */
  lemma OrderAt(st: Store, sh: Shape, side: Side, k: nat) returns (i: nat, j: nat, l: Ptr)
    requires side != INVALID
    requires QueuesOk(st.orders, st.levels, sh.queues) && SideOk(st.levels, HeadOf(st, side), LevelsOf(sh, side), side)
    requires k < |SideOf(Abs(st, sh), side)|
    ensures i < |LevelsOf(sh, side)| && LevelsOf(sh, side)[i] == l && l in st.levels && l in sh.queues && j < |sh.queues[l]|
    ensures k == |Flat(sh.queues, LevelsOf(sh, side)[..i])| + j
    ensures sh.queues[l][j] in st.orders
    ensures SideOf(Abs(st, sh), side)[k] == st.orders[sh.queues[l][j]].val
    ensures SideOf(Abs(st, sh), side)[k].price == PriceAt(st.levels, l) && SideOf(Abs(st, sh), side)[k].side == side
    ensures Flat(sh.queues, LevelsOf(sh, side))[k] == sh.queues[l][j]
  {
    hide LevelsSorted, IsRing;
    var s := LevelsOf(sh, side);
    i, j := FlatIndex(sh.queues, s, k);
    l := s[i];
    assert QueueOk(st.orders, st.levels[l].val, sh.queues[l]);
  }

  /** And the order at a place of a queue stands at an index of its side. */
  lemma IndexFor(st: Store, sh: Shape, side: Side, i: nat, j: nat) returns (k: nat)
    requires side != INVALID && i < |LevelsOf(sh, side)|
    requires j < |QueueAt(sh.queues, LevelsOf(sh, side)[i])|
    ensures k == |Flat(sh.queues, LevelsOf(sh, side)[..i])| + j
    ensures k < |SideOf(Abs(st, sh), side)| && SideOf(Abs(st, sh), side)[k] == ValAt(st.orders, QueueAt(sh.queues, LevelsOf(sh, side)[i])[j])
  {
    var s := LevelsOf(sh, side);
    k := |Flat(sh.queues, s[..i])| + j;
    hide Flat, QueueAt, ValAt;
    FlatAround(sh.queues, s, i);
    assert k < |Flat(sh.queues, s)| && Flat(sh.queues, s)[k] == QueueAt(sh.queues, s[i])[j] by { hide Abs, SideOf, Vals; }
  }

  // ---------------------------------------------------------------------------------------
  // The book is well formed
  // ---------------------------------------------------------------------------------------

  lemma SideSorted(st: Store, sh: Shape, side: Side)
    requires side != INVALID
    requires QueuesOk(st.orders, st.levels, sh.queues) && SideOk(st.levels, HeadOf(st, side), LevelsOf(sh, side), side)
    ensures Sorted(side, SideOf(Abs(st, sh), side))
  {
    hide Better, IsRing, Abs;
    var b := SideOf(Abs(st, sh), side);
    var s := LevelsOf(sh, side);
    forall x, y | 0 <= x < y < |b|
      ensures Better(side, b[x].price, b[y].price) || (b[x].price == b[y].price && b[x].priority < b[y].priority)
    {
      var i, j, l := OrderAt(st, sh, side, x);
      var i', j', l' := OrderAt(st, sh, side, y);
      if i == i' {
        assert QueueOk(st.orders, st.levels[l].val, sh.queues[l]);
      } else if i < i' {
        assert LevelsSorted(st.levels, s, side);
      } else {
        FlatBefore(sh.queues, s, i', i);
        assert false;
      }
    }
  }

  /** An order of the book is found again through the price table and through the slots. */
  lemma OrderFound(st: Store, sh: Shape, k: nat) returns (p: Ptr, l: Ptr)
    requires Good(st, sh) && k < |AllOrders(Abs(st, sh))|
    ensures p in st.orders && l in st.levels
    ensures
      var o := AllOrders(Abs(st, sh))[k];
      && st.orders[p].val == o && o.price == PriceAt(st.levels, l) && o.side == st.levels[l].val.side
      && st.priceTable[IndexOf(o.price)] == l
      && KeyOf(o) in st.slots && st.slots[KeyOf(o)] == p
      && l in sh.queues && p in sh.queues[l]
  {
    hide IsRing, LevelsSorted, Abs;
    var b := Abs(st, sh);
    var side := if k < |b.bids| then BUY else SELL;
    var x := if k < |b.bids| then k else k - |b.bids|;
    assert AllOrders(b)[k] == SideOf(b, side)[x];
    var i, j, l' := OrderAt(st, sh, side, x);
    l := l';
    p := sh.queues[l][j];
  }

  lemma KeysApart(st: Store, sh: Shape)
    requires Good(st, sh)
    ensures KeysDistinct(AllOrders(Abs(st, sh)))
  {
    hide Better, Abs, LevelsOk, QueuesOk, OrdersOk, SlotsOk;
    var b := Abs(st, sh);
    var s := AllOrders(b);
    forall x, y | 0 <= x < y < |s| ensures !(s[x].client == s[y].client && s[x].oid == s[y].oid) {
      var p, l := OrderFound(st, sh, x);
      var p', l' := OrderFound(st, sh, y);
      assert s[x] != s[y] by { Different(st, sh, x, y); }
    }
  }

  lemma Different(st: Store, sh: Shape, x: nat, y: nat)
    requires Good(st, sh) && x < y < |AllOrders(Abs(st, sh))|
    ensures AllOrders(Abs(st, sh))[x] != AllOrders(Abs(st, sh))[y]
  {
    hide IsRing, Abs, LevelsSorted, TableOk, Covers, OrdersOk, SlotsOk, QueuesOk, Better;
    var b := Abs(st, sh);
    var n := |b.bids|;
    SideSorted(st, sh, BUY);
    SideSorted(st, sh, SELL);
    var side, side' := if x < n then BUY else SELL, if y < n then BUY else SELL;
    var x', y' := if x < n then x else x - n, if y < n then y else y - n;
    assert AllOrders(b)[x] == SideOf(b, side)[x'] && AllOrders(b)[y] == SideOf(b, side')[y'];
    var i, j, l := OrderAt(st, sh, side, x');
    var i', j', l' := OrderAt(st, sh, side', y');
    if side == side' { NotBetterThanSelf(side, SideOf(b, side)[x'].price); }
  }

  lemma NotBetterThanSelf(side: Side, p: Price)
    ensures !Better(side, p, p)
  {
  }

  lemma PricesKeptApart(st: Store, sh: Shape)
    requires Good(st, sh)
    ensures PricesApart(AllOrders(Abs(st, sh)))
  {
    hide Abs, LevelsOk, QueuesOk, OrdersOk, SlotsOk, AllOrders;
    var s := AllOrders(Abs(st, sh));
    forall x, y | 0 <= x < |s| && 0 <= y < |s| && IndexOf(s[x].price) == IndexOf(s[y].price)
      ensures s[x].price == s[y].price && s[x].side == s[y].side
    {
      var p, l := OrderFound(st, sh, x);
      var p', l' := OrderFound(st, sh, y);
    }
  }

  /** A store that holds together holds a well-formed book, as far as its quantities are
      positive and its two sides apart. */
  lemma GoodBook(st: Store, sh: Shape)
    requires Good(st, sh)
    requires Open(Abs(st, sh))
    ensures WellFormed(Abs(st, sh))
  {
    hide Abs, QueuesOk, OrdersOk, SlotsOk, AllOrders, SideOk, Sorted, AllLive, Uncrossed, KeysDistinct, PricesApart;
    SideSorted(st, sh, BUY);
    SideSorted(st, sh, SELL);
    KeysApart(st, sh);
    PricesKeptApart(st, sh);
  }

  // ---------------------------------------------------------------------------------------
  // The tables answer what a search of the book would
  // ---------------------------------------------------------------------------------------

  /** Where a live level stands. */
  lemma LevelPlace(st: Store, sh: Shape, l: Ptr) returns (side: Side, i: nat)
    requires Good(st, sh) && l in st.levels
    ensures side != INVALID && side == st.levels[l].val.side
    ensures i < |LevelsOf(sh, side)| && LevelsOf(sh, side)[i] == l
    ensures l in sh.queues && sh.queues[l] != []
  {
    hide IsRing, LevelsSorted, TableOk, OrdersOk, SlotsOk;
    assert QueueOk(st.orders, st.levels[l].val, sh.queues[l]);
    if l in sh.bids {
      side := BUY;
      i :| 0 <= i < |sh.bids| && sh.bids[i] == l;
    } else {
      side := SELL;
      i :| 0 <= i < |sh.asks| && sh.asks[i] == l;
    }
  }

  /** Where a live order stands: at a place of its queue, and at an index of its side. */
  lemma OrderPlace(st: Store, sh: Shape, p: Ptr) returns (side: Side, i: nat, j: nat, k: nat)
    requires Good(st, sh) && p in st.orders
    ensures side != INVALID && side == st.orders[p].val.side
    ensures i < |LevelsOf(sh, side)| && LevelsOf(sh, side)[i] == st.priceTable[IndexOf(st.orders[p].val.price)]
    ensures LevelsOf(sh, side)[i] in st.levels && PriceAt(st.levels, LevelsOf(sh, side)[i]) == st.orders[p].val.price
    ensures j < |QueueAt(sh.queues, LevelsOf(sh, side)[i])| && QueueAt(sh.queues, LevelsOf(sh, side)[i])[j] == p
    ensures k == |Flat(sh.queues, LevelsOf(sh, side)[..i])| + j
    ensures k < |SideOf(Abs(st, sh), side)| && SideOf(Abs(st, sh), side)[k] == st.orders[p].val
  {
    hide IsRing, LevelsOk, SlotsOk, Abs;
    var l := st.priceTable[IndexOf(st.orders[p].val.price)];
    assert l in sh.queues;
    side, i := LevelPlace(st, sh, l);
    assert QueueOk(st.orders, st.levels[l].val, sh.queues[l]);
    j :| 0 <= j < |sh.queues[l]| && sh.queues[l][j] == p;
    k := IndexFor(st, sh, side, i, j);
  }

  lemma SlotGuard(st: Store, sh: Shape, client: ClientId, oid: OrderId)
    requires Good(st, sh)
    ensures SlotTaken(AllOrders(Abs(st, sh)), client, oid) <==> (client, oid) in st.slots
  {
    hide Abs, LevelsOk, QueuesOk, OrdersOk;
    var s := AllOrders(Abs(st, sh));
    if SlotTaken(s, client, oid) {
      var x :| 0 <= x < |s| && s[x].client == client && s[x].oid == oid;
      var p, l := OrderFound(st, sh, x);
    }
    if (client, oid) in st.slots {
      var side, i, j, k := OrderPlace(st, sh, st.slots[(client, oid)]);
      AtAll(Abs(st, sh), side, k);
    }
  }

  lemma AtAll(b: Book, side: Side, k: nat)
    requires side != INVALID && k < |SideOf(b, side)|
    ensures
      var x := if side == BUY then k else |b.bids| + k;
      x < |AllOrders(b)| && AllOrders(b)[x] == SideOf(b, side)[k]
  {
  }

  lemma TableGuard(st: Store, sh: Shape, side: Side, price: Price)
    requires Good(st, sh) && side != INVALID
    ensures IndexTaken(AllOrders(Abs(st, sh)), price) <==> st.priceTable[IndexOf(price)] != NULL
    ensures
      var l := st.priceTable[IndexOf(price)];
      HasPrice(SideOf(Abs(st, sh), side), price) <==> l != NULL && PriceAt(st.levels, l) == price && st.levels[l].val.side == side
  {
    hide Abs, QueuesOk, OrdersOk, SlotsOk, SideOk, Covers;
    var b := Abs(st, sh);
    var s := AllOrders(b);
    var l := st.priceTable[IndexOf(price)];
    if IndexTaken(s, price) {
      var x :| 0 <= x < |s| && IndexOf(s[x].price) == IndexOf(price);
      var p, l' := OrderFound(st, sh, x);
      assert l' != NULL by { CoversNoNull(st, sh, l'); }
    }
    if HasPrice(SideOf(b, side), price) {
      var x :| 0 <= x < |SideOf(b, side)| && SideOf(b, side)[x].price == price;
      AtAll(b, side, x);
      assert IndexTaken(s, price);
      SideAt(st, sh, side, x);
    }
    if l != NULL {
      var k := BestOfLevel(st, sh, l);
    }
  }

  lemma CoversNoNull(st: Store, sh: Shape, l: Ptr)
    requires Good(st, sh) && l in st.levels
    ensures l != NULL
  {
  }

  /** An order of a side and the level the table gives for its price. */
  lemma SideAt(st: Store, sh: Shape, side: Side, x: nat)
    requires Good(st, sh) && side != INVALID && x < |SideOf(Abs(st, sh), side)|
    ensures
      var o := SideOf(Abs(st, sh), side)[x];
      var l := st.priceTable[IndexOf(o.price)];
      o.side == side && l in st.levels && PriceAt(st.levels, l) == o.price && st.levels[l].val.side == side
  {
    hide Abs, OrdersOk, SlotsOk, Covers, IsRing, LevelsSorted;
    var i, j, l := OrderAt(st, sh, side, x);
  }

  /** Every level holds an order of its own price. */
  lemma BestOfLevel(st: Store, sh: Shape, l: Ptr) returns (k: nat)
    requires Good(st, sh) && l in st.levels
    ensures
      var side := st.levels[l].val.side;
      && side != INVALID && k < |SideOf(Abs(st, sh), side)| && SideOf(Abs(st, sh), side)[k].price == PriceAt(st.levels, l)
      && HasPrice(SideOf(Abs(st, sh), side), PriceAt(st.levels, l))
      && IndexTaken(AllOrders(Abs(st, sh)), PriceAt(st.levels, l))
  {
    hide Abs, OrdersOk, SlotsOk, Covers, IsRing, LevelsSorted, TableOk, AllOrders;
    var side, i := LevelPlace(st, sh, l);
    assert QueueOk(st.orders, st.levels[l].val, sh.queues[l]);
    k := IndexFor(st, sh, side, i, 0);
    AtAll(Abs(st, sh), side, k);
  }

  /** The first order of the first level is the best of its side. */
  lemma BestFirst(st: Store, sh: Shape, side: Side)
    requires Good(st, sh) && side != INVALID
    ensures HeadOf(st, side) == NULL <==> SideOf(Abs(st, sh), side) == []
    ensures HeadOf(st, side) != NULL ==>
      var l := HeadOf(st, side);
      && l in st.levels && LevelsOf(sh, side) != [] && LevelsOf(sh, side)[0] == l
      && st.levels[l].val.first in st.orders && l in sh.queues && st.levels[l].val.first == sh.queues[l][0]
      && SideOf(Abs(st, sh), side)[0] == st.orders[st.levels[l].val.first].val
  {
    hide OrdersOk, SlotsOk, IsRing, LevelsSorted, TableOk;
    var s := LevelsOf(sh, side);
    if s != [] {
      var l := s[0];
      assert QueueOk(st.orders, st.levels[l].val, sh.queues[l]);
      assert s[..0] == [];
      var k := IndexFor(st, sh, side, 0, 0);
    }
  }

  /** The first level has the price of the first order of its side. */
  lemma BestPrice(st: Store, sh: Shape, side: Side)
    requires Good(st, sh) && side != INVALID && LevelsOf(sh, side) != []
    ensures SideOf(Abs(st, sh), side) != [] && SideOf(Abs(st, sh), side)[0].price == PriceAt(st.levels, LevelsOf(sh, side)[0])
  {
    hide OrdersOk, SlotsOk, IsRing, LevelsSorted, TableOk, Abs;
    BestFirst(st, sh, side);
    var l := LevelsOf(sh, side)[0];
    assert QueueOk(st.orders, st.levels[l].val, sh.queues[l]);
  }

  /** The last level has the price of the last order of its side. */
  lemma WorstPrice(st: Store, sh: Shape, side: Side)
    requires Good(st, sh) && side != INVALID && LevelsOf(sh, side) != []
    ensures
      var s := LevelsOf(sh, side);
      var b := SideOf(Abs(st, sh), side);
      b != [] && b[|b| - 1].price == PriceAt(st.levels, s[|s| - 1])
  {
    hide OrdersOk, SlotsOk, SideOk, TableOk, Covers, Abs, Flat, QueuesOk, SideOf;
    var s := LevelsOf(sh, side);
    var k := IndexForLast(st, sh, side);
    var i, j, l := OrderAt(st, sh, side, |SideOf(Abs(st, sh), side)| - 1);
    if i < |s| - 1 {
      FlatBefore(sh.queues, s, i, |s| - 1);
      assert false;
    }
  }

  lemma IndexForLast(st: Store, sh: Shape, side: Side) returns (k: nat)
    requires Good(st, sh) && side != INVALID && LevelsOf(sh, side) != []
    ensures k == |Flat(sh.queues, LevelsOf(sh, side)[..|LevelsOf(sh, side)| - 1])| && k < |SideOf(Abs(st, sh), side)|
  {
    hide OrdersOk, SlotsOk, IsRing, LevelsSorted, TableOk, Abs;
    var s := LevelsOf(sh, side);
    var l := s[|s| - 1];
    assert QueueOk(st.orders, st.levels[l].val, sh.queues[l]);
    k := IndexFor(st, sh, side, |s| - 1, 0);
  }

  lemma MislinkGuard(st: Store, sh: Shape, side: Side, price: Price)
    requires Good(st, sh) && side != INVALID
    ensures Mislinked(Abs(st, sh), side, price) <==>
      side == SELL && |sh.asks| > 1 && price < PriceAt(st.levels, sh.asks[0])
  {
    hide Abs, OrdersOk, SlotsOk, QueuesOk, IsRing, TableOk, Covers;
    BestFirst(st, sh, SELL);
    if sh.asks != [] {
      BestPrice(st, sh, SELL);
      WorstPrice(st, sh, SELL);
      assert LevelsSorted(st.levels, sh.asks, SELL);
    }
  }

  /** There is one place for a newcomer. */
  lemma PlaceUnique(s: seq<Order>, side: Side, price: Price, k: nat)
    requires k <= |s|
    requires forall i :: 0 <= i < k ==> !Better(side, price, s[i].price)
    requires k < |s| ==> Better(side, price, s[k].price)
    ensures Place(s, side, price) == k
  {
    hide Better;
  }

  /** And one place where a key is found. */
  lemma FindUnique(b: Book, side: Side, k: nat)
    requires KeysDistinct(AllOrders(b)) && side != INVALID && k < |SideOf(b, side)|
    ensures
      var o := SideOf(b, side)[k];
      Find(SideOf(b, side), o.client, o.oid) == k
      && (side == SELL ==> Find(b.bids, o.client, o.oid) == |b.bids|)
  {
    var o := SideOf(b, side)[k];
    AtAll(b, side, k);
    var f := Find(SideOf(b, side), o.client, o.oid);
    AtAll(b, side, f);
    if side == SELL && Find(b.bids, o.client, o.oid) < |b.bids| {
      AtAll(b, BUY, Find(b.bids, o.client, o.oid));
      assert false;
    }
  }

  lemma FindNothing(b: Book, client: ClientId, oid: OrderId)
    requires !SlotTaken(AllOrders(b), client, oid)
    ensures Find(b.bids, client, oid) == |b.bids| && Find(b.asks, client, oid) == |b.asks|
  {
    if Find(b.bids, client, oid) < |b.bids| { AtAll(b, BUY, Find(b.bids, client, oid)); assert false; }
    if Find(b.asks, client, oid) < |b.asks| { AtAll(b, SELL, Find(b.asks, client, oid)); assert false; }
  }
}
