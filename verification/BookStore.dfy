/** The memory of the pointer book: the live blocks of its two pools, the two list heads and
    the two index tables; and what it means for that memory to represent a book. */
module BookStore {
  import opened Seqs
  import opened BookSpec
  import opened Ring

  /** MEOrdersAtPrice */
  datatype LevelInfo = LevelInfo(side: Side, price: Price, first: Ptr)

  /** `slots` holds the non-null entries of cid_oid_to_order_. */
  datatype Store = Store(
    orders: Heap<Order>,
    levels: Heap<LevelInfo>,
    bids: Ptr,
    asks: Ptr,
    priceTable: seq<Ptr>,
    slots: map<(ClientId, OrderId), Ptr>)

  /** The rings of the store: the levels of each side from the best, and the queue of each level. */
  datatype Shape = Shape(bids: seq<Ptr>, asks: seq<Ptr>, queues: map<Ptr, seq<Ptr>>)

  // ---------------------------------------------------------------------------------------
  // Queues laid end to end
  // ---------------------------------------------------------------------------------------

  function QueueAt(queues: map<Ptr, seq<Ptr>>, l: Ptr): seq<Ptr> {
    if l in queues then queues[l] else []
  }

  function Flat(queues: map<Ptr, seq<Ptr>>, s: seq<Ptr>): seq<Ptr> {
    if s == [] then [] else QueueAt(queues, s[0]) + Flat(queues, s[1..])
  }

  lemma {:induction false} FlatSplit(queues: map<Ptr, seq<Ptr>>, a: seq<Ptr>, b: seq<Ptr>)
    ensures Flat(queues, a + b) == Flat(queues, a) + Flat(queues, b)
  {
    if a == [] {
      assert a + b == b;
    } else {
      FlatSplit(queues, a[1..], b);
      assert (a + b)[1..] == a[1..] + b;
    }
  }

  lemma {:induction false} FlatFrame(queues: map<Ptr, seq<Ptr>>, queues': map<Ptr, seq<Ptr>>, s: seq<Ptr>)
    requires forall l :: l in s ==> QueueAt(queues', l) == QueueAt(queues, l)
    ensures Flat(queues', s) == Flat(queues, s)
  {
    if s != [] {
      assert s[0] in s;
      forall l | l in s[1..] ensures l in s { }
      FlatFrame(queues, queues', s[1..]);
    }
  }

  lemma {:induction false} FlatMember(queues: map<Ptr, seq<Ptr>>, s: seq<Ptr>, p: Ptr)
    ensures p in Flat(queues, s) <==> exists i :: 0 <= i < |s| && p in QueueAt(queues, s[i])
  {
    if s != [] {
      FlatMember(queues, s[1..], p);
      if p in Flat(queues, s[1..]) {
        var i :| 0 <= i < |s[1..]| && p in QueueAt(queues, s[1..][i]);
        assert s[i + 1] == s[1..][i];
      }
      if i :| 0 < i < |s| && p in QueueAt(queues, s[i]) { assert s[1..][i - 1] == s[i]; }
    }
  }

  lemma FlatAround(queues: map<Ptr, seq<Ptr>>, s: seq<Ptr>, i: nat)
    requires i < |s|
    ensures Flat(queues, s) == Flat(queues, s[..i]) + QueueAt(queues, s[i]) + Flat(queues, s[i + 1..])
  {
    hide Flat, QueueAt;
    assert s == s[..i] + ([s[i]] + s[i + 1..]);
    FlatSplit(queues, s[..i], [s[i]] + s[i + 1..]);
    FlatSplit(queues, [s[i]], s[i + 1..]);
    FlatSingle(queues, s[i]);
  }

  lemma FlatSingle(queues: map<Ptr, seq<Ptr>>, l: Ptr)
    ensures Flat(queues, [l]) == QueueAt(queues, l)
  {
    assert [l][1..] == [];
    assert Flat(queues, [l]) == QueueAt(queues, l) + Flat(queues, []);
  }

  /** Changing the queue of one level changes that stretch alone. */
  lemma FlatUpdate(queues: map<Ptr, seq<Ptr>>, s: seq<Ptr>, i: nat, q: seq<Ptr>)
    requires i < |s| && Distinct(s)
    ensures Flat(queues[s[i] := q], s) == Flat(queues, s[..i]) + q + Flat(queues, s[i + 1..])
  {
    FlatAround(queues[s[i] := q], s, i);
    FlatFrame(queues, queues[s[i] := q], s[..i]);
    FlatFrame(queues, queues[s[i] := q], s[i + 1..]);
  }

  lemma FlatDrop(queues: map<Ptr, seq<Ptr>>, s: seq<Ptr>, i: nat, j: nat)
    requires i < |s| && Distinct(s) && j < |QueueAt(queues, s[i])|
    ensures
      var k := |Flat(queues, s[..i])| + j;
      && k < |Flat(queues, s)| && Flat(queues, s)[k] == QueueAt(queues, s[i])[j]
      && Flat(queues[s[i] := DropAt(QueueAt(queues, s[i]), j)], s) == DropAt(Flat(queues, s), k)
  {
    hide Flat, QueueAt, Distinct;
    var q := QueueAt(queues, s[i]);
    FlatAround(queues, s, i);
    FlatUpdate(queues, s, i, DropAt(q, j));
    DropWithin(Flat(queues, s[..i]), q, Flat(queues, s[i + 1..]), j);
  }

  lemma DropWithin(a: seq<Ptr>, q: seq<Ptr>, b: seq<Ptr>, j: nat)
    requires j < |q|
    ensures (a + q + b)[|a| + j] == q[j] && DropAt(a + q + b, |a| + j) == a + DropAt(q, j) + b
  {
  }

  lemma FlatDropLevel(queues: map<Ptr, seq<Ptr>>, s: seq<Ptr>, i: nat)
    requires i < |s| && Distinct(s) && |QueueAt(queues, s[i])| == 1
    ensures
      var k := |Flat(queues, s[..i])|;
      && k < |Flat(queues, s)| && Flat(queues, s)[k] == QueueAt(queues, s[i])[0]
      && Flat(queues - {s[i]}, DropAt(s, i)) == DropAt(Flat(queues, s), k)
  {
    FlatAround(queues, s, i);
    assert s[i] !in DropAt(s, i) by { DropDistinct(s, i); }
    FlatFrame(queues, queues - {s[i]}, DropAt(s, i));
    FlatSplit(queues, s[..i], s[i + 1..]);
    hide Flat, Distinct;
  }

  lemma FlatAppend(queues: map<Ptr, seq<Ptr>>, s: seq<Ptr>, i: nat, p: Ptr)
    requires i < |s| && Distinct(s)
    ensures
      var k := |Flat(queues, s[..i + 1])|;
      && k <= |Flat(queues, s)|
      && Flat(queues[s[i] := QueueAt(queues, s[i]) + [p]], s) == InsertAt(Flat(queues, s), k, p)
  {
    var q := QueueAt(queues, s[i]);
    FlatUpto(queues, s, i);
    hide Flat, QueueAt, Distinct;
    FlatAround(queues, s, i);
    FlatUpdate(queues, s, i, q + [p]);
    AppendWithin(Flat(queues, s[..i]), q, Flat(queues, s[i + 1..]), p);
  }

  lemma FlatUpto(queues: map<Ptr, seq<Ptr>>, s: seq<Ptr>, i: nat)
    requires i < |s|
    ensures Flat(queues, s[..i + 1]) == Flat(queues, s[..i]) + QueueAt(queues, s[i])
  {
    hide Flat, QueueAt;
    assert s[..i + 1] == s[..i] + [s[i]];
    FlatSplit(queues, s[..i], [s[i]]);
    FlatSingle(queues, s[i]);
  }

  lemma AppendWithin(a: seq<Ptr>, q: seq<Ptr>, b: seq<Ptr>, p: Ptr)
    ensures InsertAt(a + q + b, |a + q|, p) == a + (q + [p]) + b
  {
  }

  lemma FlatInsertLevel(queues: map<Ptr, seq<Ptr>>, s: seq<Ptr>, i: nat, l: Ptr, p: Ptr)
    requires i <= |s| && l !in s
    ensures
      var k := |Flat(queues, s[..i])|;
      && k <= |Flat(queues, s)|
      && Flat(queues[l := [p]], InsertAt(s, i, l)) == InsertAt(Flat(queues, s), k, p)
  {
    var queues' := queues[l := [p]];
    assert s == s[..i] + s[i..];
    FlatSplit(queues, s[..i], s[i..]);
    FlatAround(queues', InsertAt(s, i, l), i);
    assert InsertAt(s, i, l)[..i] == s[..i] && InsertAt(s, i, l)[i + 1..] == s[i..];
    FlatFrame(queues, queues', s[..i]);
    FlatFrame(queues, queues', s[i..]);
  }

  /** Where in the layout a stretch of levels begins and ends. */
  lemma FlatIndex(queues: map<Ptr, seq<Ptr>>, s: seq<Ptr>, k: nat) returns (i: nat, j: nat)
    requires k < |Flat(queues, s)|
    ensures i < |s| && j < |QueueAt(queues, s[i])| && Flat(queues, s)[k] == QueueAt(queues, s[i])[j]
    ensures k == |Flat(queues, s[..i])| + j
    decreases |s|
  {
    var q := QueueAt(queues, s[0]);
    if k < |q| {
      i, j := 0, k;
      assert s[..0] == [];
    } else {
      var i', j' := FlatIndex(queues, s[1..], k - |q|);
      i, j := i' + 1, j';
      assert s[..i][1..] == s[1..][..i'];
    }
  }

  /** Earlier levels come earlier. */
  lemma FlatBefore(queues: map<Ptr, seq<Ptr>>, s: seq<Ptr>, i: nat, n: nat)
    requires i < n <= |s|
    ensures |Flat(queues, s[..i])| + |QueueAt(queues, s[i])| <= |Flat(queues, s[..n])|
  {
    FlatAround(queues, s[..n], i);
    assert s[..n][..i] == s[..i];
  }

  // ---------------------------------------------------------------------------------------
  // Stores that hold together
  // ---------------------------------------------------------------------------------------

  function HeadOf(st: Store, side: Side): Ptr {
    if side == BUY then st.bids else st.asks
  }

  function LevelsOf(sh: Shape, side: Side): seq<Ptr> {
    if side == BUY then sh.bids else sh.asks
  }

  function PriceAt(levels: Heap<LevelInfo>, l: Ptr): Price {
    if l in levels then levels[l].val.price else 0
  }

  /** The levels of one side: a closed ring from the best price to the worst. */
  ghost predicate SideOk(levels: Heap<LevelInfo>, head: Ptr, s: seq<Ptr>, side: Side) {
    && head == (if s == [] then NULL else s[0])
    && IsRing(levels, s)
    && (forall i :: 0 <= i < |s| ==> s[i] in levels && levels[s[i]].val.side == side)
    && LevelsSorted(levels, s, side)
  }

  ghost predicate LevelsSorted(levels: Heap<LevelInfo>, s: seq<Ptr>, side: Side) {
    forall i, j :: 0 <= i < j < |s| ==> Better(side, PriceAt(levels, s[i]), PriceAt(levels, s[j]))
  }

  /** The price table points at exactly the live levels. */
  predicate TableOk(levels: Heap<LevelInfo>, table: seq<Ptr>) {
    && |table| == ME_MAX_PRICE_LEVELS
    && (forall l :: l in levels ==> table[IndexOf(PriceAt(levels, l))] == l)
    && (forall i :: 0 <= i < |table| && table[i] != NULL ==> table[i] in levels && IndexOf(PriceAt(levels, table[i])) == i)
  }

  ghost predicate Covers(levels: Heap<LevelInfo>, bids: seq<Ptr>, asks: seq<Ptr>) {
    forall l :: l in levels ==> l != NULL && (l in bids || l in asks)
  }

  /** The queue of one level: a closed ring from its first order, in order of arrival. */
  ghost predicate QueueOk(orders: Heap<Order>, info: LevelInfo, q: seq<Ptr>) {
    && q != [] && info.first == q[0]
    && IsRing(orders, q)
    && (forall k :: 0 <= k < |q| ==> q[k] in orders && orders[q[k]].val.side == info.side && orders[q[k]].val.price == info.price)
    && Rising(orders, q)
  }

  /** Strictly increasing priorities. */
  ghost predicate Rising(orders: Heap<Order>, q: seq<Ptr>) {
    forall j, k :: 0 <= j < k < |q| && q[j] in orders && q[k] in orders ==> orders[q[j]].val.priority < orders[q[k]].val.priority
  }

  ghost predicate QueuesOk(orders: Heap<Order>, levels: Heap<LevelInfo>, queues: map<Ptr, seq<Ptr>>) {
    && queues.Keys == levels.Keys
    && (forall l :: l in levels ==> QueueOk(orders, levels[l].val, queues[l]))
  }

  /** Every live order stands in the queue its price selects. */
  ghost predicate OrdersOk(orders: Heap<Order>, table: seq<Ptr>, queues: map<Ptr, seq<Ptr>>) {
    && |table| == ME_MAX_PRICE_LEVELS
    && (forall p :: p in orders ==> p != NULL && p in QueueAt(queues, table[IndexOf(orders[p].val.price)]))
  }

  function KeyOf(o: Order): (ClientId, OrderId) {
    (o.client, o.oid)
  }

  /** The client table points at exactly the live orders. */
  predicate SlotsOk(orders: Heap<Order>, slots: map<(ClientId, OrderId), Ptr>) {
    && (forall p :: p in orders ==> KeyOf(orders[p].val) in slots && slots[KeyOf(orders[p].val)] == p)
    && (forall k: (ClientId, OrderId) :: k in slots ==> slots[k] in orders && KeyOf(orders[slots[k]].val) == k)
  }

  ghost predicate LevelsOk(levels: Heap<LevelInfo>, bids: Ptr, asks: Ptr, table: seq<Ptr>, sb: seq<Ptr>, sa: seq<Ptr>) {
    && SideOk(levels, bids, sb, BUY) && SideOk(levels, asks, sa, SELL)
    && Covers(levels, sb, sa) && TableOk(levels, table)
  }

  /** Rings closed and sorted, and both tables in agreement with them. */
  ghost predicate Good(st: Store, sh: Shape) {
    && LevelsOk(st.levels, st.bids, st.asks, st.priceTable, sh.bids, sh.asks)
    && QueuesOk(st.orders, st.levels, sh.queues)
    && OrdersOk(st.orders, st.priceTable, sh.queues)
    && SlotsOk(st.orders, st.slots)
  }

  // ---------------------------------------------------------------------------------------
  // The book a store represents
  // ---------------------------------------------------------------------------------------

  function ValAt(orders: Heap<Order>, p: Ptr): Order {
    if p in orders then orders[p].val else Order(0, 0, 0, INVALID, 0, 0, 0)
  }

  function Vals(orders: Heap<Order>, s: seq<Ptr>): (r: seq<Order>)
    ensures |r| == |s|
  {
    seq(|s|, i requires 0 <= i < |s| => ValAt(orders, s[i]))
  }

  function Abs(st: Store, sh: Shape): Book {
    Book(Vals(st.orders, Flat(sh.queues, sh.bids)), Vals(st.orders, Flat(sh.queues, sh.asks)))
  }
}
