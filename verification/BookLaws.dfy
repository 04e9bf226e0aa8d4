/** Laws of the order book: every safe request keeps it well formed and uncrossed, matching
    follows price-time priority, and no quantity is lost. */
module BookLaws {
  import opened Seqs
  import opened BookSpec

  // ---------------------------------------------------------------------------------------
  // Matching
  // ---------------------------------------------------------------------------------------

  /** A price the incoming order may trade at: a buyer pays no more than the limit, a seller
      gets no less. */
  predicate WithinLimit(inc: Incoming, price: Price) {
    if inc.side == BUY then price <= inc.price else inc.price <= price
  }

  lemma LimitCrosses(inc: Incoming)
    ensures forall price: Price :: Crosses(inc.side, inc.price, price) <==> WithinLimit(inc, price)
  {
  }

  predicate Stops(s: seq<Order>, inc: Incoming, leaves: Qty) {
    leaves == 0 || s == [] || !Crosses(inc.side, inc.price, s[0].price)
  }

  /** What is left of the resting side: a tail of it, its first order perhaps reduced. */
  ghost predicate Eaten(s: seq<Order>, rest: seq<Order>) {
    && |rest| <= |s|
    && var k := |s| - |rest|;
       rest == s[k..] || (rest != [] && 0 < rest[0].qty < s[k].qty && rest == [s[k].(qty := rest[0].qty)] + s[k + 1..])
  }

  /** One round of the matching loop: stop, or eat part of the first order, or all of it. */
  lemma MatchRound(s: seq<Order>, inc: Incoming, leaves: Qty)
    ensures
      var m := Match(s, inc, leaves);
      if Stops(s, inc, leaves) then m.rest == s && m.leaves == leaves
      else if leaves < s[0].qty then m.leaves == 0 && m.rest == [s[0].(qty := s[0].qty - leaves)] + s[1..]
      else m.rest == Match(s[1..], inc, leaves - s[0].qty).rest && m.leaves == Match(s[1..], inc, leaves - s[0].qty).leaves
  {
  }

  /** Matching eats whole orders from the front, then part of the next, then nothing. */
  lemma {:induction false} MatchShape(s: seq<Order>, inc: Incoming, leaves: Qty)
    ensures
      var m := Match(s, inc, leaves);
      && Eaten(s, m.rest) && m.leaves <= leaves
      && (forall i :: 0 <= i < |s| - |m.rest| ==> WithinLimit(inc, s[i].price))
      && (m.leaves > 0 ==> m.rest == s[|s| - |m.rest|..] && (m.rest == [] || !WithinLimit(inc, m.rest[0].price)))
    decreases |s|, leaves
  {
    LimitCrosses(inc);
    hide Crosses, WithinLimit, Match;
    MatchRound(s, inc, leaves);
    if !Stops(s, inc, leaves) && leaves >= s[0].qty {
      var t := s[1..];
      MatchShape(t, inc, leaves - s[0].qty);
      var m := Match(t, inc, leaves - s[0].qty);
      EatenTail(s, m.rest);
      forall i | 0 <= i < |s| - |m.rest| ensures WithinLimit(inc, s[i].price) {
        if i > 0 { assert s[i] == t[i - 1]; }
      }
      assert t[|t| - |m.rest|..] == s[|s| - |m.rest|..];
    }
  }

  /** Every trade is within the limit, at the same price for both parties and for the market;
      and what is left over would not trade with the best order that stays. */
  lemma {:induction false} TradesWithinLimit(s: seq<Order>, inc: Incoming, leaves: Qty)
    ensures
      var m := Match(s, inc, leaves);
      && (forall i :: 0 <= i < |m.responses| ==> m.responses[i].kind == FILLED && WithinLimit(inc, m.responses[i].price))
      && (forall i :: 0 <= i < |m.updates| && m.updates[i].kind == TRADE ==> WithinLimit(inc, m.updates[i].price))
      && (m.leaves > 0 && m.rest != [] ==> !WithinLimit(inc, m.rest[0].price))
    decreases |s|, leaves
  {
    LimitCrosses(inc);
    MatchShape(s, inc, leaves);
    hide Crosses, WithinLimit;
    if !Stops(s, inc, leaves) && leaves >= s[0].qty {
      TradesWithinLimit(s[1..], inc, leaves - s[0].qty);
    }
  }

  lemma EatenTail(s: seq<Order>, rest: seq<Order>)
    requires s != [] && Eaten(s[1..], rest)
    ensures Eaten(s, rest)
  {
    var k := |s| - |rest|;
    assert s[1..][k - 1..] == s[k..];
    if rest != [] { assert s[1..][k..] == s[k + 1..]; }
  }

  /** Quantity of the first `n` orders. */
  function Total(s: seq<Order>, n: nat): nat
    requires n <= |s|
  {
    if n == 0 then 0 else Total(s, n - 1) + s[n - 1].qty
  }

  lemma {:induction false} TotalTail(s: seq<Order>, n: nat)
    requires 0 < n <= |s|
    ensures Total(s, n) == s[0].qty + Total(s[1..], n - 1)
  {
    if n > 1 {
      TotalTail(s, n - 1);
      assert s[1..][n - 2] == s[n - 1];
    }
  }

  /** How many orders an incoming quantity reaches: those within its limit, from the first on,
      as far as it is not used up. */
  ghost predicate Reaches(s: seq<Order>, inc: Incoming, qty: Qty, n: nat) {
    && n <= |s|
    && (forall i :: 0 <= i < n ==> WithinLimit(inc, s[i].price) && Total(s, i) < qty)
    && (n == |s| || !WithinLimit(inc, s[n].price) || Total(s, n) >= qty)
  }

  /** The part of the incoming quantity that reaches the order at index `i`. */
  function FillAt(s: seq<Order>, qty: Qty, i: nat): nat
    requires i < |s|
  {
    if Total(s, i) >= qty then 0 else Min(qty - Total(s, i), s[i].qty)
  }

  /** What is left of the incoming quantity once the first `n` orders have had their fill. */
  function LeftOver(s: seq<Order>, qty: Qty, n: nat): nat
    requires n <= |s|
  {
    if Total(s, n) >= qty then 0 else qty - Total(s, n)
  }

  /** What stays of the resting orders, the first `n` of which are reached. */
  function Kept(s: seq<Order>, qty: Qty, n: nat): seq<Order>
    requires n <= |s|
  {
    if n > 0 && Total(s, n) > qty then [s[n - 1].(qty := Total(s, n) - qty)] + s[n..] else s[n..]
  }

  /** The `i`-th round trades with the `i`-th resting order, at its price and for its fill:
      a TRADE, then CANCEL or MODIFY of that order; and two FILLED responses that agree on
      price and fill, each with what its party has left. */
  predicate TradedAt(m: Matched, s: seq<Order>, inc: Incoming, qty: Qty, i: nat)
    requires i < |s| && 2 * i + 1 < |m.updates| && 2 * i + 1 < |m.responses|
  {
    var o, fill := s[i], FillAt(s, qty, i);
    && m.updates[2 * i] == Update(TRADE, OrderId_INVALID, inc.ticker, inc.side, o.price, fill, Priority_INVALID)
    && m.updates[2 * i + 1]
         == (if fill == o.qty then Update(CANCEL, o.mid, inc.ticker, o.side, o.price, o.qty, Priority_INVALID)
             else Update(MODIFY, o.mid, inc.ticker, o.side, o.price, o.qty - fill, o.priority))
    && m.responses[2 * i]
         == Response(FILLED, inc.client, inc.ticker, inc.oid, inc.mid, inc.side, o.price, fill, LeftOver(s, qty, i + 1))
    && m.responses[2 * i + 1]
         == Response(FILLED, o.client, inc.ticker, o.oid, o.mid, o.side, o.price, fill, o.qty - fill)
  }

  /** The matcher against an independent account of price-time priority: it trades with
      exactly the orders the quantity reaches, in order, each at its own price and for what
      is left over by those before it, and keeps what they do not cover. */
  lemma {:induction false} PriceTimePriority(s: seq<Order>, inc: Incoming, qty: Qty) returns (n: nat)
    requires forall i :: 0 <= i < |s| ==> s[i].qty > 0
    ensures n <= |s| && Reaches(s, inc, qty, n)
    ensures
      var m := Match(s, inc, qty);
      && |m.updates| == 2 * n == |m.responses|
      && (forall i :: 0 <= i < n ==> TradedAt(m, s, inc, qty, i))
      && m.leaves == LeftOver(s, qty, n) && m.rest == Kept(s, qty, n)
    decreases |s|, qty
  {
    hide Crosses, TradedAt, Reaches, Kept, LeftOver;
    if Stops(s, inc, qty) {
      n := 0;
      NothingReached(s, inc, qty);
      return;
    }
    var t := s[1..];
    if qty < s[0].qty {
      n := 1;
      FirstTrade(s, inc, qty, Matched([], 0, [], []));
      ReachesMore(s, inc, qty, 0);
      PartlyFilled(s, qty);
    } else {
      var k := PriceTimePriority(t, inc, qty - s[0].qty);
      n := k + 1;
      var r := Match(t, inc, qty - s[0].qty);
      FirstTrade(s, inc, qty, r);
      var m := Match(s, inc, qty);
      KeptTail(s, qty, k);
      ReachesMore(s, inc, qty, k);
      forall i | 0 <= i < n ensures TradedAt(m, s, inc, qty, i) {
        if i > 0 { LaterTrade(s, inc, qty, i, r, m); }
      }
    }
  }

  lemma NothingReached(s: seq<Order>, inc: Incoming, qty: Qty)
    requires Stops(s, inc, qty)
    ensures Reaches(s, inc, qty, 0) && LeftOver(s, qty, 0) == qty && Kept(s, qty, 0) == s
  {
  }

  lemma PartlyFilled(s: seq<Order>, qty: Qty)
    requires s != [] && qty < s[0].qty
    ensures LeftOver(s, qty, 1) == 0 && Kept(s, qty, 1) == [s[0].(qty := s[0].qty - qty)] + s[1..]
  {
    assert Total(s, 1) == s[0].qty;
  }

  lemma KeptTail(s: seq<Order>, qty: Qty, k: nat)
    requires s != [] && s[0].qty <= qty && k < |s|
    ensures LeftOver(s, qty, k + 1) == LeftOver(s[1..], qty - s[0].qty, k)
    ensures Kept(s, qty, k + 1) == Kept(s[1..], qty - s[0].qty, k)
  {
    TotalTail(s, k + 1);
    assert s[1..][k..] == s[k + 1..];
    if k > 0 { assert s[1..][k - 1] == s[k]; }
  }

  lemma ReachesMore(s: seq<Order>, inc: Incoming, qty: Qty, k: nat)
    requires !Stops(s, inc, qty)
    requires if qty < s[0].qty then k == 0 else Reaches(s[1..], inc, qty - s[0].qty, k)
    ensures Reaches(s, inc, qty, k + 1)
  {
    LimitCrosses(inc);
    hide Crosses, WithinLimit;
    assert Total(s, 1) == s[0].qty;
    forall i | 0 <= i < k + 1 ensures WithinLimit(inc, s[i].price) && Total(s, i) < qty {
      if i > 0 { assert s[i] == s[1..][i - 1]; TotalTail(s, i); }
    }
    TotalTail(s, k + 1);
    if k + 1 < |s| { assert s[k + 1] == s[1..][k]; }
  }

  lemma FirstTrade(s: seq<Order>, inc: Incoming, qty: Qty, r: Matched)
    requires !Stops(s, inc, qty) && s[0].qty > 0
    requires qty < s[0].qty || r == Match(s[1..], inc, qty - s[0].qty)
    ensures
      var m := Match(s, inc, qty);
      && |m.updates| >= 2 && |m.responses| >= 2 && TradedAt(m, s, inc, qty, 0)
      && (if qty < s[0].qty then |m.updates| == 2 == |m.responses| && m.leaves == 0
          else m.updates[2..] == r.updates && m.responses[2..] == r.responses && m.leaves == r.leaves)
      && m.rest == (if qty < s[0].qty then [s[0].(qty := s[0].qty - qty)] + s[1..] else r.rest)
  {
    hide Crosses;
    var m := Match(s, inc, qty);
    if qty >= s[0].qty {
      assert m.updates == FillUpdates(inc, s[0], s[0].qty) + r.updates;
      assert m.responses == FillResponses(inc, s[0], s[0].qty, qty - s[0].qty) + r.responses;
    }
  }

  lemma LaterTrade(s: seq<Order>, inc: Incoming, qty: Qty, i: nat, r: Matched, m: Matched)
    requires 0 < i < |s| && s[0].qty <= qty
    requires 2 * i + 1 < |m.updates| && 2 * i + 1 < |m.responses| && m.updates[2..] == r.updates && m.responses[2..] == r.responses
    requires TradedAt(r, s[1..], inc, qty - s[0].qty, i - 1)
    ensures TradedAt(m, s, inc, qty, i)
  {
    TotalTail(s, i);
    assert s[i] == s[1..][i - 1];
    KeptTail(s, qty, i);
    hide LeftOver;
    assert m.updates[2 * i] == r.updates[2 * (i - 1)] && m.updates[2 * i + 1] == r.updates[2 * (i - 1) + 1];
    assert m.responses[2 * i] == r.responses[2 * (i - 1)] && m.responses[2 * i + 1] == r.responses[2 * (i - 1) + 1];
  }

  // ---------------------------------------------------------------------------------------
  // Well-formedness over requests and runs
  // ---------------------------------------------------------------------------------------

  lemma AfterMatchKeeps(b: Book, inc: Incoming, qty: Qty)
    requires WellFormed(b) && inc.side != INVALID
    ensures WellFormed(AfterMatch(b, inc, qty))
  {
    hide Match, KeysDistinct, PricesApart, Sorted, AllLive, Eaten, Crosses, AllOrders;
    var side := Opposite(inc.side);
    var s := SideOf(b, side);
    MatchShape(s, inc, qty);
    var rest := Match(s, inc, qty).rest;
    EatenKeeps(side, s, rest);
    var k := |s| - |rest|;
    AllOrdersSub(b, AfterMatch(b, inc, qty), if inc.side == BUY then 0 else k, if inc.side == BUY then k else 0);
  }

  lemma EatenKeeps(side: Side, s: seq<Order>, rest: seq<Order>)
    requires Sorted(side, s) && AllLive(side, s) && Eaten(s, rest)
    ensures |rest| <= |s| && Sorted(side, rest) && AllLive(side, rest)
    ensures forall i :: 0 <= i < |rest| ==> rest[i] == s[|s| - |rest| + i].(qty := rest[i].qty)
    ensures rest != [] ==> s[0].price == rest[0].price || Better(side, s[0].price, rest[0].price)
  {
    var k := |s| - |rest|;
    forall i | 0 <= i < |rest| ensures rest[i] == s[k + i].(qty := rest[i].qty) && rest[i].qty > 0 {
    }
  }

  /** A book whose sides are tails of another's, up to quantities, has its keys and prices. */
  lemma AllOrdersSub(b: Book, b': Book, k: nat, l: nat)
    requires |b'.bids| + k == |b.bids| && |b'.asks| + l == |b.asks|
    requires forall i :: 0 <= i < |b'.bids| ==> b'.bids[i] == b.bids[k + i].(qty := b'.bids[i].qty)
    requires forall i :: 0 <= i < |b'.asks| ==> b'.asks[i] == b.asks[l + i].(qty := b'.asks[i].qty)
    requires KeysDistinct(AllOrders(b)) && PricesApart(AllOrders(b))
    ensures KeysDistinct(AllOrders(b')) && PricesApart(AllOrders(b'))
  {
    var s, s' := AllOrders(b), AllOrders(b');
    var n := |b'.bids|;
    forall i | 0 <= i < |s'| ensures s'[i] == s[if i < n then k + i else k + l + i].(qty := s'[i].qty) {
    }
  }

  lemma InsertAll(s: seq<Order>, i: nat, o: Order)
    requires i <= |s| && KeysDistinct(s) && PricesApart(s)
    requires !SlotTaken(s, o.client, o.oid)
    requires (exists k :: 0 <= k < |s| && s[k].price == o.price && s[k].side == o.side) || !IndexTaken(s, o.price)
    ensures KeysDistinct(InsertAt(s, i, o)) && PricesApart(InsertAt(s, i, o))
  {
    var s' := InsertAt(s, i, o);
    forall k | 0 <= k < |s'| ensures s'[k] == if k < i then s[k] else if k == i then o else s[k - 1] { }
    forall j, k | 0 <= j < k < |s'| ensures !(s'[j].client == s'[k].client && s'[j].oid == s'[k].oid) {
      hide PricesApart, IndexTaken;
    }
    assert PricesApart(s') by { hide KeysDistinct, SlotTaken; }
  }

  lemma RemoveAll(s: seq<Order>, i: nat)
    requires i < |s| && KeysDistinct(s) && PricesApart(s)
    ensures KeysDistinct(DropAt(s, i)) && PricesApart(DropAt(s, i))
  {
    var s' := DropAt(s, i);
    forall k | 0 <= k < |s'| ensures s'[k] == if k < i then s[k] else s[k + 1] { }
  }

  /** A newcomer's priority is 1 if it is alone at its price, and otherwise one more than the
      greatest priority there. */
  lemma PriorityIsNext(side: Side, s: seq<Order>, price: Price)
    requires Sorted(side, s)
    ensures !HasPrice(s, price) ==> NextPriority(s, side, price) == 1
    ensures HasPrice(s, price) ==>
      && (exists k :: 0 <= k < |s| && s[k].price == price && NextPriority(s, side, price) == s[k].priority + 1)
      && (forall k :: 0 <= k < |s| && s[k].price == price ==> s[k].priority < NextPriority(s, side, price))
  {
    var i := Place(s, side, price);
    if i > 0 && s[i - 1].price == price { assert HasPrice(s, price); }
    forall k | 0 <= k < |s| && s[k].price == price
      ensures i > 0 && s[i - 1].price == price && s[k].priority < NextPriority(s, side, price)
    {
      assert k < i;
    }
  }

  /** Resting at its place keeps a side sorted, behind every order at its price. */
  lemma InsertSorted(side: Side, s: seq<Order>, o: Order)
    requires Sorted(side, s) && AllLive(side, s) && o.side == side && o.qty > 0
    requires o.priority == NextPriority(s, side, o.price)
    ensures Sorted(side, Insert(s, o)) && AllLive(side, Insert(s, o))
  {
    hide Sorted, Better;
    var i := Place(s, side, o.price);
    var s' := Insert(s, o);
    forall j, k | 0 <= j < k < |s'| ensures Precedes(side, s'[j], s'[k]) {
      if k < i {
        InOrder(side, s, j, k);
      } else if k == i {
        BehindEqual(side, s, o, j);
      } else if j == i {
        AheadOfRest(side, s, o, k - 1);
      } else {
        InOrder(side, s, if j < i then j else j - 1, k - 1);
      }
    }
    assert Sorted(side, s') by { SortedByPairs(side, s'); }
  }

  predicate Precedes(side: Side, o: Order, o': Order) {
    Better(side, o.price, o'.price) || (o.price == o'.price && o.priority < o'.priority)
  }

  lemma InOrder(side: Side, s: seq<Order>, j: nat, k: nat)
    requires Sorted(side, s) && j < k < |s|
    ensures Precedes(side, s[j], s[k])
  {
  }

  lemma SortedByPairs(side: Side, s: seq<Order>)
    requires forall j, k :: 0 <= j < k < |s| ==> Precedes(side, s[j], s[k])
    ensures Sorted(side, s)
  {
  }

  lemma BehindEqual(side: Side, s: seq<Order>, o: Order, j: nat)
    requires Sorted(side, s) && j < Place(s, side, o.price) && o.priority == NextPriority(s, side, o.price)
    ensures Precedes(side, s[j], o)
  {
    hide Sorted;
    var i := Place(s, side, o.price);
    assert !Better(side, o.price, s[j].price) && !Better(side, o.price, s[i - 1].price);
    if j < i - 1 { InOrder(side, s, j, i - 1); }
  }

  lemma AheadOfRest(side: Side, s: seq<Order>, o: Order, k: nat)
    requires Sorted(side, s) && Place(s, side, o.price) <= k < |s|
    ensures Precedes(side, o, s[k])
  {
    hide Sorted;
    var i := Place(s, side, o.price);
    if i < k { InOrder(side, s, i, k); }
  }

  lemma AddKeeps(b: Book, inc: Incoming, qty: Qty)
    requires WellFormed(b) && Safe(b, New(inc, qty))
    ensures WellFormed(AddSpec(b, inc, qty).book)
  {
    hide KeysDistinct, PricesApart, Match, Sorted, AllLive, AllOrders, Eaten, Crosses, SlotTaken, IndexTaken, Mislinked, HasPrice;
    AfterMatchKeeps(b, inc, qty);
    var b1 := AfterMatch(b, inc, qty);
    var m := Match(SideOf(b, Opposite(inc.side)), inc, qty);
    MatchShape(SideOf(b, Opposite(inc.side)), inc, qty);
    if m.leaves > 0 {
      var s := SideOf(b, inc.side);
      var o := RestingOrder(s, inc, m.leaves);
      InsertSorted(inc.side, s, o);
      RestKeys(b1, o);
      RestUncrossed(b1, o);
    }
  }

  /** Where a resting order lands in the list of all orders. */
  lemma AllInsert(b: Book, o: Order) returns (i: nat)
    requires o.side != INVALID
    ensures i <= |AllOrders(b)|
    ensures
      var s := AllOrders(b);
      AllOrders(WithSide(b, o.side, Insert(SideOf(b, o.side), o))) == InsertAt(s, i, o)
  {
    i := if o.side == BUY then Place(b.bids, BUY, o.price) else |b.bids| + Place(b.asks, SELL, o.price);
  }

  /** A price of a side shows in the list of all orders, with that side. */
  lemma AllHasPrice(b: Book, side: Side, price: Price) returns (k: nat)
    requires AllLive(BUY, b.bids) && AllLive(SELL, b.asks) && side != INVALID && HasPrice(SideOf(b, side), price)
    ensures k < |AllOrders(b)| && AllOrders(b)[k].price == price && AllOrders(b)[k].side == side
  {
    var l :| 0 <= l < |SideOf(b, side)| && SideOf(b, side)[l].price == price;
    k := if side == BUY then l else |b.bids| + l;
  }

  lemma RestKeys(b: Book, o: Order)
    requires WellFormed(b) && o.side != INVALID
    requires !SlotTaken(AllOrders(b), o.client, o.oid)
    requires HasPrice(SideOf(b, o.side), o.price) || !IndexTaken(AllOrders(b), o.price)
    ensures
      var b' := WithSide(b, o.side, Insert(SideOf(b, o.side), o));
      KeysDistinct(AllOrders(b')) && PricesApart(AllOrders(b'))
  {
    hide KeysDistinct, PricesApart, SlotTaken, IndexTaken, Sorted, Uncrossed, AllLive, HasPrice;
    var i := AllInsert(b, o);
    if HasPrice(SideOf(b, o.side), o.price) {
      var k := AllHasPrice(b, o.side, o.price);
    }
    InsertAll(AllOrders(b), i, o);
  }

  lemma RestUncrossed(b: Book, o: Order)
    requires Uncrossed(b) && o.side != INVALID
    requires o.side == BUY && b.asks != [] ==> o.price < b.asks[0].price
    requires o.side == SELL && b.bids != [] ==> o.price > b.bids[0].price
    ensures Uncrossed(WithSide(b, o.side, Insert(SideOf(b, o.side), o)))
  {
  }

  lemma CancelKeeps(b: Book, client: ClientId, oid: OrderId, ticker: TickerId)
    requires WellFormed(b)
    ensures WellFormed(CancelSpec(b, client, oid, ticker).book)
  {
    hide WellFormed;
    var i, j := Find(b.bids, client, oid), Find(b.asks, client, oid);
    if i < |b.bids| { CancelAtKeeps(b, BUY, i, ticker); } else if j < |b.asks| { CancelAtKeeps(b, SELL, j, ticker); }
  }

  lemma CancelAtKeeps(b: Book, side: Side, i: nat, ticker: TickerId)
    requires WellFormed(b) && side != INVALID && i < |SideOf(b, side)|
    ensures WellFormed(CancelAt(b, side, i, ticker).book)
  {
    hide KeysDistinct, PricesApart, Sorted, AllLive, DropAt, AllOrders;
    var s, k := SideOf(b, side), if side == BUY then i else |b.bids| + i;
    AllRemoved(b, side, i);
    RemoveAll(AllOrders(b), k);
    RemoveSorted(side, s, i);
    UncrossedRemoved(b, side, i);
  }

  lemma AllRemoved(b: Book, side: Side, i: nat)
    requires side != INVALID && i < |SideOf(b, side)|
    ensures
      var k := if side == BUY then i else |b.bids| + i;
      k < |AllOrders(b)| && AllOrders(WithSide(b, side, DropAt(SideOf(b, side), i))) == DropAt(AllOrders(b), k)
  {
  }

  lemma UncrossedRemoved(b: Book, side: Side, i: nat)
    requires side != INVALID && i < |SideOf(b, side)| && Uncrossed(b) && Sorted(BUY, b.bids) && Sorted(SELL, b.asks)
    ensures Uncrossed(WithSide(b, side, DropAt(SideOf(b, side), i)))
  {
    var s := SideOf(b, side);
    if |s| > 1 {
      assert DropAt(s, i)[0] == s[if i == 0 then 1 else 0];
      assert Better(side, s[0].price, s[1].price) || s[0].price == s[1].price;
    }
  }

  lemma RemoveSorted(side: Side, s: seq<Order>, i: nat)
    requires i < |s| && Sorted(side, s) && AllLive(side, s)
    ensures Sorted(side, DropAt(s, i)) && AllLive(side, DropAt(s, i))
    ensures i > 0 ==> DropAt(s, i)[0] == s[0]
    ensures i == 0 && |s| > 1 ==> DropAt(s, i)[0] == s[1]
  {
    var s' := DropAt(s, i);
    forall k | 0 <= k < |s'| ensures s'[k] == if k < i then s[k] else s[k + 1] { }
  }

  /** Every safe request keeps the book well formed; in particular uncrossed. */
  lemma ApplyKeeps(b: Book, r: Request)
    requires WellFormed(b) && Safe(b, r)
    ensures WellFormed(Apply(b, r).book)
  {
    hide WellFormed, Match, Safe;
    match r
    case New(inc, qty) => AddKeeps(b, inc, qty);
    case Cancel(client, oid, ticker) => CancelKeeps(b, client, oid, ticker);
  }

  // ---------------------------------------------------------------------------------------
  // Runs
  // ---------------------------------------------------------------------------------------

  const EMPTY: Book := Book([], [])

  /** The book after the first `n` requests. */
  function After(rs: seq<Request>, n: nat): Book
    requires n <= |rs|
  {
    if n == 0 then EMPTY else Apply(After(rs, n - 1), rs[n - 1]).book
  }

  predicate SafeRun(rs: seq<Request>, n: nat)
    requires n <= |rs|
  {
    forall i :: 0 <= i < n ==> Safe(After(rs, i), rs[i])
  }

  lemma {:induction false} RunKeeps(rs: seq<Request>, n: nat)
    requires n <= |rs| && SafeRun(rs, n)
    ensures WellFormed(After(rs, n))
  {
    hide Safe, Apply, WellFormed;
    if n == 0 {
      EmptyBook();
    } else {
      RunKeeps(rs, n - 1);
      ApplyKeeps(After(rs, n - 1), rs[n - 1]);
    }
  }

  lemma EmptyBook()
    ensures WellFormed(Book([], []))
  {
    hide Better, IndexOf;
    assert Sorted(BUY, []) && Sorted(SELL, []) && AllLive(BUY, []) && AllLive(SELL, []);
    assert AllOrders(Book([], [])) == [] && KeysDistinct([]) && PricesApart([]);
    hide Sorted, AllLive, KeysDistinct, PricesApart, AllOrders;
  }

  /** In every reachable state the best bid is below the best ask, so no price has orders of
      both sides, and a price table shared by both sides never confuses them. */
  lemma NeverCrossed(rs: seq<Request>, n: nat)
    requires n <= |rs| && SafeRun(rs, n)
    ensures var b := After(rs, n);
      && (b.bids != [] && b.asks != [] ==> b.bids[0].price < b.asks[0].price)
      && (forall i, j :: 0 <= i < |b.bids| && 0 <= j < |b.asks| ==>
            b.bids[i].price < b.asks[j].price && IndexOf(b.bids[i].price) != IndexOf(b.asks[j].price))
  {
    hide WellFormed, After, SafeRun;
    RunKeeps(rs, n);
    SidesApart(After(rs, n));
  }

  lemma SidesApart(b: Book)
    requires WellFormed(b)
    ensures b.bids != [] && b.asks != [] ==> b.bids[0].price < b.asks[0].price
    ensures forall i, j :: 0 <= i < |b.bids| && 0 <= j < |b.asks| ==>
              b.bids[i].price < b.asks[j].price && IndexOf(b.bids[i].price) != IndexOf(b.asks[j].price)
  {
    hide KeysDistinct, IndexOf;
    forall i, j | 0 <= i < |b.bids| && 0 <= j < |b.asks|
      ensures b.bids[i].price < b.asks[j].price && IndexOf(b.bids[i].price) != IndexOf(b.asks[j].price)
    {
      assert i > 0 ==> !Better(BUY, b.bids[i].price, b.bids[0].price);
      assert j > 0 ==> !Better(SELL, b.asks[j].price, b.asks[0].price);
      assert AllOrders(b)[i] == b.bids[i] && AllOrders(b)[|b.bids| + j] == b.asks[j];
    }
  }

  /** An order that comes to rest never meets its own price on the other side: the level that
      the price table holds for exactly its price is one of its own side. */
  lemma RestsOnItsOwnSide(b: Book, inc: Incoming, qty: Qty)
    requires WellFormed(b) && inc.side != INVALID
    requires Match(SideOf(b, Opposite(inc.side)), inc, qty).leaves > 0
    ensures forall o :: o in AllOrders(AfterMatch(b, inc, qty)) && o.price == inc.price ==> o.side == inc.side
  {
    var s := SideOf(b, Opposite(inc.side));
    MatchShape(s, inc, qty);
    AfterMatchKeeps(b, inc, qty);
    hide Match, KeysDistinct, PricesApart, Eaten;
    var rest := Match(s, inc, qty).rest;
    var b1 := AfterMatch(b, inc, qty);
    forall k | 0 <= k < |rest| ensures rest[k].price != inc.price {
      if k > 0 { assert Better(Opposite(inc.side), rest[0].price, rest[k].price) || rest[0].price == rest[k].price; }
    }
  }

  // ---------------------------------------------------------------------------------------
  // Conservation of quantity
  // ---------------------------------------------------------------------------------------

  /** Quantity resting in a run of orders. */
  function Resting(s: seq<Order>): nat {
    if s == [] then 0 else s[0].qty + Resting(s[1..])
  }

  /** Quantity in the responses of one kind: what an ACCEPTED order brings, what a FILLED
      response executes for its party, what a CANCELED order takes away. */
  function Sum(kind: ResponseType, rs: seq<Response>): nat {
    if rs == [] then 0
    else (if rs[0].kind != kind then 0 else if kind == FILLED then rs[0].exec else rs[0].leaves) + Sum(kind, rs[1..])
  }

  lemma {:induction false} SumConcat(kind: ResponseType, a: seq<Response>, b: seq<Response>)
    ensures Sum(kind, a + b) == Sum(kind, a) + Sum(kind, b)
  {
    if a == [] {
      assert a + b == b;
    } else {
      SumConcat(kind, a[1..], b);
      assert (a + b)[1..] == a[1..] + b;
    }
  }

  lemma {:induction false} RestingConcat(a: seq<Order>, b: seq<Order>)
    ensures Resting(a + b) == Resting(a) + Resting(b)
  {
    if a == [] {
      assert a + b == b;
    } else {
      RestingConcat(a[1..], b);
      assert (a + b)[1..] == a[1..] + b;
    }
  }

  /** Every fill takes the same quantity from both parties. */
  lemma {:induction false} MatchConserves(s: seq<Order>, inc: Incoming, leaves: Qty)
    ensures
      var m := Match(s, inc, leaves);
      && Resting(m.rest) + m.leaves + Sum(FILLED, m.responses) == Resting(s) + leaves
      && Sum(ACCEPTED, m.responses) == 0 == Sum(CANCELED, m.responses)
    decreases |s|, leaves
  {
    hide Crosses, FillResponses, FillUpdates;
    if !Stops(s, inc, leaves) {
      var o := s[0];
      var fill := Min(leaves, o.qty);
      var m := if fill == o.qty then Match(s[1..], inc, leaves - fill)
               else Matched([o.(qty := o.qty - fill)] + s[1..], 0, [], []);
      if fill == o.qty { MatchConserves(s[1..], inc, leaves - fill); }
      var pair := FillResponses(inc, o, fill, leaves - fill);
      PairSums(inc, o, fill, leaves - fill);
      SumConcat(FILLED, pair, m.responses);
      SumConcat(ACCEPTED, pair, m.responses);
      SumConcat(CANCELED, pair, m.responses);
    }
  }

  /** A fill counts for both parties. */
  lemma PairSums(inc: Incoming, o: Order, fill: Qty, leaves: Qty)
    ensures
      var pair := FillResponses(inc, o, fill, leaves);
      Sum(FILLED, pair) == 2 * fill && Sum(ACCEPTED, pair) == 0 == Sum(CANCELED, pair)
  {
    var pair := FillResponses(inc, o, fill, leaves);
    assert pair[1..] == [pair[1]] && [pair[1]][1..] == [];
    forall kind: ResponseType ensures Sum(kind, pair) == (if kind == FILLED then 2 * fill else 0) {
      assert Sum(kind, [pair[1]]) == (if kind == FILLED then fill else 0) + Sum(kind, []);
    }
  }

  lemma ApplyConserves(b: Book, r: Request)
    requires r.New? ==> r.inc.side != INVALID
    ensures
      var e := Apply(b, r);
      Resting(e.book.bids) + Resting(e.book.asks) + Sum(FILLED, e.responses) + Sum(CANCELED, e.responses)
      == Resting(b.bids) + Resting(b.asks) + Sum(ACCEPTED, e.responses)
  {
    match r
    case New(inc, qty) => AddConserves(b, inc, qty);
    case Cancel(client, oid, ticker) =>
      var i, j := Find(b.bids, client, oid), Find(b.asks, client, oid);
      if i < |b.bids| { RemoveResting(b.bids, i); } else if j < |b.asks| { RemoveResting(b.asks, j); }
  }

  lemma RemoveResting(s: seq<Order>, i: nat)
    requires i < |s|
    ensures Resting(DropAt(s, i)) + s[i].qty == Resting(s)
  {
    hide Resting;
    var t := DropAt(s, i);
    assert t[..i] + [s[i]] + t[i..] == s;
    InsertResting(t, s[i], i);
  }

  lemma InsertResting(s: seq<Order>, o: Order, i: nat)
    requires i <= |s|
    ensures Resting(s[..i] + [o] + s[i..]) == Resting(s) + o.qty
  {
    RestingConcat(s[..i], [o] + s[i..]);
    RestingConcat(s[..i], s[i..]);
    assert s[..i] + [o] + s[i..] == s[..i] + ([o] + s[i..]);
    assert s[..i] + s[i..] == s;
  }

  lemma AddConserves(b: Book, inc: Incoming, qty: Qty)
    requires inc.side != INVALID
    ensures
      var e := AddSpec(b, inc, qty);
      && Sum(ACCEPTED, e.responses) == qty && Sum(CANCELED, e.responses) == 0
      && Resting(e.book.bids) + Resting(e.book.asks) + Sum(FILLED, e.responses) == Resting(b.bids) + Resting(b.asks) + qty
  {
    hide Match;
    var s := SideOf(b, Opposite(inc.side));
    MatchConserves(s, inc, qty);
    var m := Match(s, inc, qty);
    var accepted := [Response(ACCEPTED, inc.client, inc.ticker, inc.oid, inc.mid, inc.side, inc.price, 0, qty)];
    SumConcat(FILLED, accepted, m.responses);
    SumConcat(ACCEPTED, accepted, m.responses);
    SumConcat(CANCELED, accepted, m.responses);
    if m.leaves > 0 {
      var own := SideOf(b, inc.side);
      var o := RestingOrder(own, inc, m.leaves);
      InsertResting(own, o, Place(own, inc.side, inc.price));
    }
  }

  /** All the responses of the first `n` requests. */
  function AllResponses(rs: seq<Request>, n: nat): seq<Response>
    requires n <= |rs|
  {
    if n == 0 then [] else AllResponses(rs, n - 1) + Apply(After(rs, n - 1), rs[n - 1]).responses
  }

  /** Over every run: what was accepted is what was executed, for incoming and resting
      parties together, what was cancelled, and what still rests. */
  lemma {:induction false} QuantityConserved(rs: seq<Request>, n: nat)
    requires n <= |rs| && forall i :: 0 <= i < n && rs[i].New? ==> rs[i].inc.side != INVALID
    ensures
      var all := AllResponses(rs, n);
      Sum(ACCEPTED, all) == Sum(FILLED, all) + Sum(CANCELED, all) + Resting(After(rs, n).bids) + Resting(After(rs, n).asks)
  {
    hide Apply;
    if n > 0 {
      QuantityConserved(rs, n - 1);
      ApplyConserves(After(rs, n - 1), rs[n - 1]);
      var step := Apply(After(rs, n - 1), rs[n - 1]).responses;
      SumConcat(FILLED, AllResponses(rs, n - 1), step);
      SumConcat(ACCEPTED, AllResponses(rs, n - 1), step);
      SumConcat(CANCELED, AllResponses(rs, n - 1), step);
    }
  }
}
