/** How many blocks a book that holds together has in use: one for each live order, and one
    for each price that has orders. */
module StoreCounts {
  import opened Sets
  import opened BookSpec
  import opened Ring
  import opened BookStore
  import opened StoreLaws

  /** As many levels are live as there are prices with orders. */
  lemma LevelCount(st: Store, sh: Shape)
    requires Good(st, sh)
    ensures |st.levels| == |Prices(AllOrders(Abs(st, sh)))|
  {
    hide Abs, LevelsOk, QueuesOk, OrdersOk, SlotsOk, AllOrders;
    var s := AllOrders(Abs(st, sh));
    var m := map l | l in st.levels :: PriceAt(st.levels, l);
    forall l | l in st.levels ensures m[l] in Prices(s) {
      var k := BestOfLevel(st, sh, l);
      AtAll(Abs(st, sh), st.levels[l].val.side, k);
    }
    forall l, l' | l in st.levels && l' in st.levels && m[l] == m[l'] ensures l == l' { LevelAt(st, sh, l); LevelAt(st, sh, l'); }
    forall y | y in Prices(s) ensures exists l :: l in st.levels && m[l] == y {
      var k: nat :| k < |s| && s[k].price == y;
      var p, l := OrderFound(st, sh, k);
    }
    SameSize(st.levels.Keys, m, Prices(s));
  }

  lemma LevelAt(st: Store, sh: Shape, l: Ptr)
    requires Good(st, sh) && l in st.levels
    ensures IndexOf(PriceAt(st.levels, l)) < |st.priceTable| && st.priceTable[IndexOf(PriceAt(st.levels, l))] == l
  {
    hide QueuesOk, OrdersOk, SlotsOk, SideOk, Covers;
  }

  /** As many order blocks are live as there are orders in the book. */
  lemma OrderCount(st: Store, sh: Shape)
    requires Good(st, sh)
    ensures |st.orders| == |AllOrders(Abs(st, sh))|
  {
    hide Abs, LevelsOk, QueuesOk, OrdersOk, SlotsOk, AllOrders, KeyOf, KeysDistinct;
    var s := AllOrders(Abs(st, sh));
    var m := map p | p in st.orders :: KeyOf(st.orders[p].val);
    var keys := KeysOf(s);
    forall p | p in st.orders ensures m[p] in keys && KeyOf(st.orders[p].val) in st.slots && st.slots[KeyOf(st.orders[p].val)] == p {
      OrderSlot(st, sh, p);
      var side, i, j, k := OrderPlace(st, sh, p);
      AtAll(Abs(st, sh), side, k);
    }
    forall y | y in keys ensures exists p :: p in st.orders && m[p] == y {
      var k :| 0 <= k < |s| && KeyOf(s[k]) == y;
      var p, l := OrderFound(st, sh, k);
    }
    SameSize(st.orders.Keys, m, keys);
    KeysApart(st, sh);
    DistinctKeys(s);
  }

  lemma OrderSlot(st: Store, sh: Shape, p: Ptr)
    requires Good(st, sh) && p in st.orders
    ensures KeyOf(st.orders[p].val) in st.slots && st.slots[KeyOf(st.orders[p].val)] == p
  {
    hide LevelsOk, QueuesOk, OrdersOk;
  }

  function KeysOf(s: seq<Order>): (r: set<(ClientId, OrderId)>)
    ensures forall y :: y in r <==> exists k :: 0 <= k < |s| && KeyOf(s[k]) == y
  {
    if s == [] then {}
    else
      var n := |s| - 1;
      assert forall k :: 0 <= k < n ==> s[..n][k] == s[k];
      KeysOf(s[..n]) + {KeyOf(s[n])}
  }

  lemma {:induction false} DistinctKeys(s: seq<Order>)
    requires KeysDistinct(s)
    ensures |KeysOf(s)| == |s|
  {
    if s != [] {
      var n := |s| - 1;
      DistinctKeys(s[..n]);
      assert forall k :: 0 <= k < n ==> s[..n][k] == s[k];
    }
  }
}
