/** Replaying the market updates of a book through the snapshot's rule gives back the book. */
module Replay {
  import opened Options
  import opened Seqs
  import opened BookSpec
  import opened BookLaws

  const ME_MAX_TICKERS: nat := 8

  /** ticker_orders_: the update that added each live order, kept up to date. */
  type Image = map<(TickerId, OrderId), Update>

  /** What an update does to the image, given the block it may need; None where an assertion
      of addToSnapshot, or a range check of `at`, stops the process. */
  function Put(m: Image, u: Update): Option<Image> {
    var key := (u.ticker, u.mid);
    if u.ticker >= ME_MAX_TICKERS then None
    else match u.kind
    case ADD => if u.mid >= ME_MAX_ORDER_IDS || key in m then None else Some(m[key := u])
    case MODIFY =>
      if u.mid >= ME_MAX_ORDER_IDS || key !in m || m[key].mid != u.mid || m[key].side != u.side then None
      else Some(m[key := m[key].(qty := u.qty, price := u.price)])
    case CANCEL =>
      if u.mid >= ME_MAX_ORDER_IDS || key !in m || m[key].mid != u.mid || m[key].side != u.side then None
      else Some(m - {key})
    case _ => Some(m)
  }

  /** addToSnapshot; None also where the order pool, of which every entry holds a block, stops
      the process because its last block is taken. */
  function AddTo(m: Image, u: Update): Option<Image> {
    if u.kind == ADD && |m| >= ME_MAX_ORDER_IDS - 1 then None else Put(m, u)
  }

  function Fold(m: Image, us: seq<Update>): Option<Image>
    decreases |us|
  {
    if us == [] then Some(m)
    else match AddTo(m, us[0]) case None => None case Some(m') => Fold(m', us[1..])
  }

  lemma {:induction false} FoldConcat(m: Image, a: seq<Update>, b: seq<Update>)
    ensures Fold(m, a + b) == if Fold(m, a).None? then None else Fold(Fold(m, a).value, b)
    decreases |a|
  {
    if a == [] {
      assert a + b == b;
    } else {
      assert (a + b)[1..] == a[1..] + b;
      if AddTo(m, a[0]).Some? { FoldConcat(AddTo(m, a[0]).value, a[1..], b); }
    }
  }

  /** The entry of a live order: the update that would add it as it stands. */
  function Picture(o: Order, t: TickerId): Update {
    Update(ADD, o.mid, t, o.side, o.price, o.qty, o.priority)
  }

  predicate MidsDistinct(s: seq<Order>) {
    forall i, j :: 0 <= i < j < |s| ==> s[i].mid != s[j].mid
  }

  predicate MidsInRange(s: seq<Order>) {
    forall i :: 0 <= i < |s| ==> s[i].mid < ME_MAX_ORDER_IDS
  }

  predicate HasMid(s: seq<Order>, mid: OrderId) {
    exists i :: 0 <= i < |s| && s[i].mid == mid
  }

  /** Every one of these orders has its entry, as it stands. */
  ghost predicate Entries(m: Image, s: seq<Order>, t: TickerId) {
    forall i :: 0 <= i < |s| ==> (t, s[i].mid) in m && m[(t, s[i].mid)] == Picture(s[i], t)
  }

  /** Every entry is of one of these orders. */
  ghost predicate Covered(m: Image, s: seq<Order>, t: TickerId) {
    forall k :: k in m ==> k.0 == t && HasMid(s, k.1)
  }

  /** The image shows exactly these orders: every one as it stands, and nothing else. */
  ghost predicate Shows(m: Image, s: seq<Order>, t: TickerId) {
    MidsDistinct(s) && MidsInRange(s) && Entries(m, s, t) && Covered(m, s, t)
  }

  lemma ShowsRemove(m: Image, s: seq<Order>, t: TickerId, i: nat)
    requires Shows(m, s, t) && i < |s|
    ensures Shows(m - {(t, s[i].mid)}, DropAt(s, i), t)
  {
    hide Entries, MidsDistinct, MidsInRange;
    MidsRemove(s, i);
    EntriesRemove(m, s, t, i);
    var s' := DropAt(s, i);
    forall k | k in m && k != (t, s[i].mid) ensures k.0 == t && HasMid(s', k.1) {
      assert HasMid(s, k.1);
      var j :| 0 <= j < |s| && s[j].mid == k.1;
      assert s'[if j < i then j else j - 1] == s[j];
    }
  }

  lemma MidsRemove(s: seq<Order>, i: nat)
    requires MidsDistinct(s) && MidsInRange(s) && i < |s|
    ensures MidsDistinct(DropAt(s, i)) && MidsInRange(DropAt(s, i))
  {
    var s' := DropAt(s, i);
    assert forall k :: 0 <= k < |s'| ==> s'[k] == if k < i then s[k] else s[k + 1];
  }

  lemma EntriesRemove(m: Image, s: seq<Order>, t: TickerId, i: nat)
    requires MidsDistinct(s) && Entries(m, s, t) && i < |s|
    ensures Entries(m - {(t, s[i].mid)}, DropAt(s, i), t)
  {
    var s' := DropAt(s, i);
    forall k | 0 <= k < |s'| ensures s'[k] == if k < i then s[k] else s[k + 1] { }
    hide DropAt, Picture;
  }

  /** An image has as many entries as the book it shows has orders. */
  lemma {:induction false} ImageSize(m: Image, s: seq<Order>, t: TickerId)
    requires Shows(m, s, t)
    ensures |m| == |s|
    decreases |s|
  {
    if s == [] {
      assert m.Keys == {} by { hide Entries; }
    } else {
      hide Shows;
      var key := (t, s[0].mid);
      ShowsEntry(m, s, t, 0);
      ShowsRemove(m, s, t, 0);
      ImageSize(m - {key}, DropAt(s, 0), t);
      assert (m - {key}).Keys == m.Keys - {key};
      assert |m| == |m.Keys| && |m - {key}| == |(m - {key}).Keys|;
    }
  }

  lemma ShowsModify(m: Image, s: seq<Order>, t: TickerId, i: nat, qty: Qty)
    requires Shows(m, s, t) && i < |s|
    ensures Shows(m[(t, s[i].mid) := m[(t, s[i].mid)].(qty := qty, price := s[i].price)], s[i := s[i].(qty := qty)], t)
  {
    var s' := s[i := s[i].(qty := qty)];
    var m' := m[(t, s[i].mid) := m[(t, s[i].mid)].(qty := qty, price := s[i].price)];
    assert Entries(m', s', t) by { hide Covered, MidsInRange; }
    forall k | k in m' ensures k.0 == t && HasMid(s', k.1) {
      hide Entries, MidsInRange, MidsDistinct;
      if k == (t, s[i].mid) {
        assert s'[i].mid == k.1;
      } else {
        assert HasMid(s, k.1);
        var j :| 0 <= j < |s| && s[j].mid == k.1;
        assert s'[j].mid == k.1;
      }
    }
  }

  lemma ShowsInsert(m: Image, s: seq<Order>, t: TickerId, i: nat, o: Order)
    requires Shows(m, s, t) && i <= |s| && !HasMid(s, o.mid) && o.mid < ME_MAX_ORDER_IDS
    ensures (t, o.mid) !in m
    ensures Shows(m[(t, o.mid) := Picture(o, t)], InsertAt(s, i, o), t)
  {
    hide Entries, MidsDistinct, MidsInRange;
    MidsInsert(s, i, o);
    EntriesInsert(m, s, t, i, o);
    var s' := InsertAt(s, i, o);
    var m' := m[(t, o.mid) := Picture(o, t)];
    forall k | k in m' ensures k.0 == t && HasMid(s', k.1) {
      if k == (t, o.mid) {
        assert s'[i].mid == k.1;
      } else {
        assert HasMid(s, k.1);
        var j :| 0 <= j < |s| && s[j].mid == k.1;
        assert s'[if j < i then j else j + 1] == s[j];
      }
    }
  }

  lemma MidsInsert(s: seq<Order>, i: nat, o: Order)
    requires MidsDistinct(s) && MidsInRange(s) && i <= |s| && !HasMid(s, o.mid) && o.mid < ME_MAX_ORDER_IDS
    ensures MidsDistinct(InsertAt(s, i, o)) && MidsInRange(InsertAt(s, i, o))
  {
    var s' := InsertAt(s, i, o);
    assert forall k :: 0 <= k < |s'| ==> s'[k] == if k < i then s[k] else if k == i then o else s[k - 1];
  }

  lemma EntriesInsert(m: Image, s: seq<Order>, t: TickerId, i: nat, o: Order)
    requires Entries(m, s, t) && i <= |s| && !HasMid(s, o.mid)
    ensures Entries(m[(t, o.mid) := Picture(o, t)], InsertAt(s, i, o), t)
  {
    var s' := InsertAt(s, i, o);
    assert forall k :: 0 <= k < |s'| ==> s'[k] == if k < i then s[k] else if k == i then o else s[k - 1];
  }

  /** The other order in which the two sides may be listed shows the same. */
  lemma ShowsSwap(m: Image, a: seq<Order>, b: seq<Order>, t: TickerId)
    requires Shows(m, a + b, t)
    ensures Shows(m, b + a, t)
  {
    var s, s' := a + b, b + a;
    assert forall k :: 0 <= k < |s'| ==> s'[k] == s[if k < |b| then |a| + k else k - |b|];
    assert MidsDistinct(s') && MidsInRange(s') by { hide Entries, Covered; }
    assert Entries(m, s', t) by { hide Covered, MidsInRange; }
    forall k | k in m ensures k.0 == t && HasMid(s', k.1) {
      hide Entries, MidsInRange, MidsDistinct;
      assert HasMid(s, k.1);
      var j :| 0 <= j < |s| && s[j].mid == k.1;
      assert s'[if j < |a| then |b| + j else j - |a|] == s[j];
    }
  }

  /** The updates of one fill replay to the orders it leaves. */
  lemma FillReplays(m: Image, s: seq<Order>, inc: Incoming, fill: Qty)
    requires Shows(m, s, inc.ticker) && inc.ticker < ME_MAX_TICKERS && s != [] && fill <= s[0].qty
    ensures
      var f := Fold(m, FillUpdates(inc, s[0], fill));
      && f.Some?
      && Shows(f.value, if fill == s[0].qty then DropAt(s, 0) else s[0 := s[0].(qty := s[0].qty - fill)], inc.ticker)
  {
    hide Shows;
    var t := inc.ticker;
    ShowsEntry(m, s, t, 0);
    FoldTwo(m, FillUpdates(inc, s[0], fill));
    if fill == s[0].qty { ShowsRemove(m, s, t, 0); } else { ShowsModify(m, s, t, 0, s[0].qty - fill); }
  }

  /** The updates of a matching replay to the orders it leaves. */
  lemma {:induction false} MatchReplays(m: Image, s: seq<Order>, others: seq<Order>, inc: Incoming, leaves: Qty)
    requires Shows(m, s + others, inc.ticker) && inc.ticker < ME_MAX_TICKERS
    ensures
      var r := Match(s, inc, leaves);
      var f := Fold(m, r.updates);
      f.Some? && Shows(f.value, r.rest + others, inc.ticker)
    decreases |s|, leaves
  {
    hide Shows, FillUpdates, FillResponses, Crosses, AddTo, Put;
    if !Stops(s, inc, leaves) {
      var o := s[0];
      assert (s + others)[0] == o;
      var fill := Min(leaves, o.qty);
      FillReplays(m, s + others, inc, fill);
      var us := FillUpdates(inc, o, fill);
      if fill == o.qty {
        assert DropAt(s + others, 0) == s[1..] + others;
        MatchReplays(Fold(m, us).value, s[1..], others, inc, leaves - fill);
        FoldConcat(m, us, Match(s[1..], inc, leaves - fill).updates);
      } else {
        assert (s + others)[0 := o.(qty := o.qty - fill)] == ([o.(qty := o.qty - fill)] + s[1..]) + others;
        assert us + [] == us;
      }
    }
  }

  lemma IndexOfMid(s: seq<Order>, mid: OrderId) returns (i: nat)
    requires HasMid(s, mid)
    ensures i < |s| && s[i].mid == mid
  {
    i :| 0 <= i < |s| && s[i].mid == mid;
  }

  lemma ShowsEntry(m: Image, s: seq<Order>, t: TickerId, i: nat)
    requires Shows(m, s, t) && i < |s|
    ensures (t, s[i].mid) in m && m[(t, s[i].mid)] == Picture(s[i], t) && s[i].mid < ME_MAX_ORDER_IDS
  {
  }

  lemma FoldTwo(m: Image, us: seq<Update>)
    requires |us| == 2 && AddTo(m, us[0]) == Some(m)
    ensures Fold(m, us) == AddTo(m, us[1])
  {
    hide AddTo;
    assert us[1..][0] == us[1] && us[1..][1..] == [];
    var r := AddTo(m, us[1]);
    assert r.Some? ==> Fold(r.value, []) == r;
  }

  /** An order that comes to rest does so under a market order id that no live order has, and
      beside fewer orders than take up the synthesizer's pool. */
  predicate RestsFresh(b: Book, r: Request) {
    r.New? && Match(SideOf(b, Opposite(r.inc.side)), r.inc, r.qty).leaves > 0 ==>
      CanEnter(AllOrders(AfterMatch(b, r.inc, r.qty)), r.inc.mid)
  }

  predicate CanEnter(s: seq<Order>, mid: OrderId) {
    !HasMid(s, mid) && mid < ME_MAX_ORDER_IDS && |s| < ME_MAX_ORDER_IDS - 1
  }

  function TickerOf(r: Request): TickerId {
    match r case New(inc, _) => inc.ticker case Cancel(_, _, ticker) => ticker
  }

  /** Replaying one request succeeds exactly when an order that comes to rest has a fresh
      market order id and a block in the pool; and then the image shows exactly the new book. */
  lemma ApplyReplays(m: Image, b: Book, r: Request)
    requires Shows(m, AllOrders(b), TickerOf(r)) && TickerOf(r) < ME_MAX_TICKERS && (r.New? ==> r.inc.side != INVALID)
    ensures
      var f := Fold(m, Apply(b, r).updates);
      && (f.Some? <==> RestsFresh(b, r))
      && (f.Some? ==> Shows(f.value, AllOrders(Apply(b, r).book), TickerOf(r)))
  {
    hide Shows, Match;
    match r
    case New(inc, qty) => AddReplays(m, b, inc, qty);
    case Cancel(client, oid, ticker) =>
      var i, j := Find(b.bids, client, oid), Find(b.asks, client, oid);
      if i < |b.bids| { CancelReplays(m, b, BUY, i, ticker); } else if j < |b.asks| { CancelReplays(m, b, SELL, j, ticker); }
  }

  lemma CancelReplays(m: Image, b: Book, side: Side, i: nat, t: TickerId)
    requires Shows(m, AllOrders(b), t) && t < ME_MAX_TICKERS && side != INVALID && i < |SideOf(b, side)|
    ensures
      var e := CancelAt(b, side, i, t);
      var f := Fold(m, e.updates);
      f.Some? && Shows(f.value, AllOrders(e.book), t)
  {
    hide Shows;
    var k := if side == BUY then i else |b.bids| + i;
    var s := AllOrders(b);
    assert s[k] == SideOf(b, side)[i];
    ShowsEntry(m, s, t, k);
    ShowsRemove(m, s, t, k);
    assert DropAt(s, k) == AllOrders(CancelAt(b, side, i, t).book);
    FoldOne(m, Update(UpdateType.CANCEL, s[k].mid, t, s[k].side, s[k].price, 0, s[k].priority));
  }

  lemma AddReplays(m: Image, b: Book, inc: Incoming, qty: Qty)
    requires Shows(m, AllOrders(b), inc.ticker) && inc.ticker < ME_MAX_TICKERS && inc.side != INVALID
    ensures
      var e := AddSpec(b, inc, qty);
      var f := Fold(m, e.updates);
      && (f.Some? <==> RestsFresh(b, New(inc, qty)))
      && (f.Some? ==> Shows(f.value, AllOrders(e.book), inc.ticker))
  {
    hide Shows, Match;
    var t := inc.ticker;
    var r := Match(SideOf(b, Opposite(inc.side)), inc, qty);
    var b1 := AfterMatch(b, inc, qty);
    SideReplays(m, b, inc, qty);
    var m1 := Fold(m, r.updates).value;
    if r.leaves > 0 {
      var s := SideOf(b, inc.side);
      var o := RestingOrder(s, inc, r.leaves);
      FoldConcat(m, r.updates, [Picture(o, t)]);
      FoldOne(m1, Picture(o, t));
      RestReplays(m1, b1, o, t);
    }
  }

  lemma FoldOne(m: Image, u: Update)
    ensures Fold(m, [u]) == AddTo(m, u)
  {
    hide AddTo;
    var r := AddTo(m, u);
    assert [u][1..] == [];
    assert r.Some? ==> Fold(r.value, []) == r;
  }

  lemma SideReplays(m: Image, b: Book, inc: Incoming, qty: Qty)
    requires Shows(m, AllOrders(b), inc.ticker) && inc.ticker < ME_MAX_TICKERS && inc.side != INVALID
    ensures
      var f := Fold(m, Match(SideOf(b, Opposite(inc.side)), inc, qty).updates);
      f.Some? && Shows(f.value, AllOrders(AfterMatch(b, inc, qty)), inc.ticker)
  {
    hide Shows, Match;
    if inc.side == SELL {
      MatchReplays(m, b.bids, b.asks, inc, qty);
    } else {
      ShowsSwap(m, b.bids, b.asks, inc.ticker);
      MatchReplays(m, b.asks, b.bids, inc, qty);
      var r := Match(b.asks, inc, qty);
      ShowsSwap(Fold(m, r.updates).value, r.rest, b.bids, inc.ticker);
    }
  }

  /** The ADD of a resting order stops the replay exactly when its id is taken or too large, or
      the pool has only its last block left. */
  lemma RestReplays(m: Image, b: Book, o: Order, t: TickerId)
    requires Shows(m, AllOrders(b), t) && t < ME_MAX_TICKERS && o.side != INVALID
    ensures
      var f := AddTo(m, Picture(o, t));
      && (f.Some? <==> CanEnter(AllOrders(b), o.mid))
      && (f.Some? ==> Shows(f.value, AllOrders(WithSide(b, o.side, Insert(SideOf(b, o.side), o))), t))
  {
    hide Shows, HasMid;
    var s := AllOrders(b);
    ImageSize(m, s, t);
    if HasMid(s, o.mid) {
      var i := IndexOfMid(s, o.mid);
      ShowsEntry(m, s, t, i);
    } else if o.mid < ME_MAX_ORDER_IDS {
      var i := AllInsert(b, o);
      ShowsInsert(m, s, t, i, o);
    }
  }

  // ---------------------------------------------------------------------------------------
  // Runs
  // ---------------------------------------------------------------------------------------

  /** All the market updates of the first `n` requests. */
  function AllUpdates(rs: seq<Request>, n: nat): seq<Update>
    requires n <= |rs|
  {
    if n == 0 then [] else AllUpdates(rs, n - 1) + Apply(After(rs, n - 1), rs[n - 1]).updates
  }

  predicate ForTicker(rs: seq<Request>, t: TickerId) {
    forall i :: 0 <= i < |rs| ==> TickerOf(rs[i]) == t && (rs[i].New? ==> rs[i].inc.side != INVALID)
  }

  predicate FreshRun(rs: seq<Request>, n: nat)
    requires n <= |rs|
  {
    forall i :: 0 <= i < n ==> RestsFresh(After(rs, i), rs[i])
  }

  /** For every run: no assertion of the snapshot fires exactly when every order that comes
      to rest has a fresh market order id and a block in the pool, and then the replayed image is exactly the live
      orders of the book, with their side, price, quantity and priority. */
  lemma {:induction false} ReplayGivesBook(rs: seq<Request>, t: TickerId, n: nat)
    requires n <= |rs| && ForTicker(rs, t) && t < ME_MAX_TICKERS
    ensures
      var f := Fold(map[], AllUpdates(rs, n));
      && (f.Some? <==> FreshRun(rs, n))
      && (f.Some? ==> Shows(f.value, AllOrders(After(rs, n)), t))
  {
    hide Shows, Apply, RestsFresh, AddTo, AllOrders, Fold;
    if n == 0 {
      FoldNothing(map[]);
      ShowsNothing(t);
    } else {
      ReplayGivesBook(rs, t, n - 1);
      var b, us := After(rs, n - 1), Apply(After(rs, n - 1), rs[n - 1]).updates;
      FoldConcat(map[], AllUpdates(rs, n - 1), us);
      FreshStep(rs, n);
      hide FreshRun;
      if FreshRun(rs, n - 1) {
        ApplyReplays(Fold(map[], AllUpdates(rs, n - 1)).value, b, rs[n - 1]);
      }
    }
  }

  lemma FreshStep(rs: seq<Request>, n: nat)
    requires 0 < n <= |rs|
    ensures FreshRun(rs, n) <==> FreshRun(rs, n - 1) && RestsFresh(After(rs, n - 1), rs[n - 1])
  {
    hide RestsFresh, After;
  }

  lemma FoldNothing(m: Image)
    ensures Fold(m, []) == Some(m)
  {
  }

  lemma ShowsNothing(t: TickerId)
    ensures Shows(map[], AllOrders(EMPTY), t)
  {
  }

  /** The book's own id generator never advances: every order gets market order id 1. */
  predicate ConstantIds(rs: seq<Request>) {
    forall i :: 0 <= i < |rs| && rs[i].New? ==> rs[i].inc.mid == 1
  }

  predicate AllMidsAreOne(s: seq<Order>) {
    forall i :: 0 <= i < |s| ==> s[i].mid == 1
  }

  lemma {:induction false} OnlyOnes(rs: seq<Request>, n: nat)
    requires n <= |rs| && ConstantIds(rs) && forall i :: 0 <= i < |rs| && rs[i].New? ==> rs[i].inc.side != INVALID
    ensures AllMidsAreOne(AllOrders(After(rs, n)))
    ensures n < |rs| && rs[n].New? ==> AllMidsAreOne(AllOrders(AfterMatch(After(rs, n), rs[n].inc, rs[n].qty)))
  {
    hide Match;
    if n > 0 {
      OnlyOnes(rs, n - 1);
      var b := After(rs, n - 1);
      match rs[n - 1]
      case New(inc, qty) =>
        assert AllMidsAreOne(AllOrders(AfterMatch(b, inc, qty)));
        OnesAdded(b, inc, qty);
      case Cancel(client, oid, ticker) =>
        OnesCancelled(b, client, oid, ticker);
    }
    if n < |rs| && rs[n].New? { OnesMatched(After(rs, n), rs[n].inc, rs[n].qty); }
  }

  lemma OnesMatched(b: Book, inc: Incoming, qty: Qty)
    requires AllMidsAreOne(AllOrders(b)) && inc.side != INVALID
    ensures AllMidsAreOne(AllOrders(AfterMatch(b, inc, qty)))
  {
    hide Match;
    var s := SideOf(b, Opposite(inc.side));
    MatchShape(s, inc, qty);
    var rest := Match(s, inc, qty).rest;
    var k := |s| - |rest|;
    forall i | 0 <= i < |b.bids| ensures b.bids[i].mid == 1 { assert AllOrders(b)[i] == b.bids[i]; }
    forall i | 0 <= i < |b.asks| ensures b.asks[i].mid == 1 { assert AllOrders(b)[|b.bids| + i] == b.asks[i]; }
    forall i | 0 <= i < |rest| ensures rest[i].mid == 1 { assert rest[i].mid == s[k + i].mid; }
  }

  lemma OnesAdded(b: Book, inc: Incoming, qty: Qty)
    requires AllMidsAreOne(AllOrders(b)) && inc.side != INVALID && inc.mid == 1
    ensures AllMidsAreOne(AllOrders(AddSpec(b, inc, qty).book))
  {
    hide Match;
    OnesMatched(b, inc, qty);
    var b1 := AfterMatch(b, inc, qty);
    var m := Match(SideOf(b, Opposite(inc.side)), inc, qty);
    if m.leaves > 0 {
      var s := SideOf(b, inc.side);
      var o := RestingOrder(s, inc, m.leaves);
      var i := AllInsert(b1, o);
    }
  }

  lemma OnesCancelled(b: Book, client: ClientId, oid: OrderId, ticker: TickerId)
    requires AllMidsAreOne(AllOrders(b))
    ensures AllMidsAreOne(AllOrders(CancelSpec(b, client, oid, ticker).book))
  {
    forall i | 0 <= i < |b.bids| ensures b.bids[i].mid == 1 { assert AllOrders(b)[i] == b.bids[i]; }
    forall i | 0 <= i < |b.asks| ensures b.asks[i].mid == 1 { assert AllOrders(b)[|b.bids| + i] == b.asks[i]; }
  }

  /** An order comes to rest beside one that is already resting. */
  predicate RestsBesideAnother(rs: seq<Request>, i: nat)
    requires i < |rs|
  {
    rs[i].New? && Match(SideOf(After(rs, i), Opposite(rs[i].inc.side)), rs[i].inc, rs[i].qty).leaves > 0
    && AllOrders(AfterMatch(After(rs, i), rs[i].inc, rs[i].qty)) != []
  }

  /** With the ids as the book hands them out, the snapshot survives a run exactly when no
      order ever comes to rest beside another. */
  lemma ReplayWithConstantIds(rs: seq<Request>, t: TickerId, n: nat)
    requires n <= |rs| && ForTicker(rs, t) && t < ME_MAX_TICKERS && ConstantIds(rs)
    ensures Fold(map[], AllUpdates(rs, n)).Some? <==> forall i :: 0 <= i < n ==> !RestsBesideAnother(rs, i)
  {
    hide Match, Apply;
    ReplayGivesBook(rs, t, n);
    forall i | 0 <= i < n ensures RestsFresh(After(rs, i), rs[i]) <==> !RestsBesideAnother(rs, i) {
      OnlyOnes(rs, i);
      if rs[i].New? {
        var s := AllOrders(AfterMatch(After(rs, i), rs[i].inc, rs[i].qty));
        assert s != [] ==> s[0].mid == 1;
      }
    }
  }

  /** Two bids at one price are enough: the second ADD finds its id taken. */
  lemma TwoOrdersBreakTheSnapshot()
    ensures
      var rs := [New(Incoming(0, 0, 1, 0, BUY, 100), 10), New(Incoming(1, 0, 1, 0, BUY, 100), 10)];
      SafeRun(rs, 2) && Fold(map[], AllUpdates(rs, 2)) == None
  {
    var i0, i1 := Incoming(0, 0, 1, 0, BUY, 100), Incoming(1, 0, 1, 0, BUY, 100);
    var rs := [New(i0, 10), New(i1, 10)];
    var o := Order(0, 0, 1, BUY, 100, 10, 1);
    assert After(rs, 1) == Book([o], []) by {
      assert After(rs, 0) == EMPTY && Match([], i0, 10) == Matched([], 10, [], []);
    }
    assert Match([], i1, 10) == Matched([], 10, [], []);
    assert AllOrders(AfterMatch(After(rs, 1), i1, 10)) == [o];
    assert HasMid([o], 1) by { assert [o][0].mid == 1; }
    assert HasPrice([o], 100) by { assert [o][0].price == 100; }
    assert Safe(EMPTY, rs[0]) && Safe(After(rs, 1), rs[1]);
    forall i | 0 <= i < 2 ensures Safe(After(rs, i), rs[i]) { if i == 0 { } else { assert i == 1; } }
    assert !RestsFresh(After(rs, 1), rs[1]);
    ReplayGivesBook(rs, 0, 2);
  }
}
