/** Runs from the empty book that reach each way in which a request can fail. */
module BookRuns {
  import opened Seqs
  import opened BookSpec
  import opened BookLaws
  import opened OrderBook
  import opened Replay

  // ---------------------------------------------------------------------------------------
  // Requests outside the guard
  // ---------------------------------------------------------------------------------------

  /** Two asks, and then a better one, which the code links wrongly. */
  lemma RunToMislinkedAsk()
    ensures
      var rs := [New(Incoming(1, 0, 1, 0, SELL, 105), 10), New(Incoming(1, 1, 1, 0, SELL, 106), 10), New(Incoming(2, 0, 1, 0, SELL, 104), 10)];
      SafeRun(rs, 2) && !Safe(After(rs, 2), rs[2]) && forall i :: 0 <= i < 3 ==> HasRoom(After(rs, i), rs[i])
  {
    var i0, i1, i2 := Incoming(1, 0, 1, 0, SELL, 105), Incoming(1, 1, 1, 0, SELL, 106), Incoming(2, 0, 1, 0, SELL, 104);
    var rs := [New(i0, 10), New(i1, 10), New(i2, 10)];
    var a, a' := Order(1, 0, 1, SELL, 105, 10, 1), Order(1, 1, 1, SELL, 106, 10, 1);
    FirstAsk(i0);
    SecondAsk(i1, a, a');
    assert After(rs, 0) == EMPTY;
    assert After(rs, 1) == Apply(EMPTY, rs[0]).book == Book([], [a]);
    assert After(rs, 2) == Apply(Book([], [a]), rs[1]).book == Book([], [a, a']);
    NewBestAskIsNotSafe();
    FewOrders(Book([], [a, a']), i2);
    hide Safe, HasRoom, After, Apply;
    forall i | 0 <= i < 3 ensures HasRoom(After(rs, i), rs[i]) { if i == 0 { } else if i == 1 { } else { assert i == 2; } }
    forall i | 0 <= i < 2 ensures Safe(After(rs, i), rs[i]) { if i == 0 { } else { assert i == 1; } }
  }

  lemma FirstAsk(inc: Incoming)
    requires inc == Incoming(1, 0, 1, 0, SELL, 105)
    ensures Safe(EMPTY, New(inc, 10)) && HasRoom(EMPTY, New(inc, 10))
    ensures Apply(EMPTY, New(inc, 10)).book == Book([], [Order(1, 0, 1, SELL, 105, 10, 1)])
  {
    assert Match([], inc, 10) == Matched([], 10, [], []);
    FewOrders(EMPTY, inc);
  }

  lemma SecondAsk(inc: Incoming, a: Order, a': Order)
    requires inc == Incoming(1, 1, 1, 0, SELL, 106) && a == Order(1, 0, 1, SELL, 105, 10, 1) && a' == Order(1, 1, 1, SELL, 106, 10, 1)
    ensures Safe(Book([], [a]), New(inc, 10)) && HasRoom(Book([], [a]), New(inc, 10))
    ensures Apply(Book([], [a]), New(inc, 10)).book == Book([], [a, a'])
  {
    assert Match([], inc, 10) == Matched([], 10, [], []);
    assert AllOrders(Book([], [a])) == [a];
    assert [a][1..] == [];
    assert Place([a], SELL, 106) == 1;
    FewOrders(Book([], [a]), inc);
  }

  lemma FewOrders(b: Book, inc: Incoming)
    requires b.bids == [] && |b.asks| <= 2 && inc.side == SELL
    ensures HasRoom(b, New(inc, 10))
  {
    assert Match([], inc, 10) == Matched([], 10, [], []);
    assert AfterMatch(b, inc, 10) == b && AllOrders(b) == b.asks;
    PricesFewer(b.asks);
  }

  lemma {:induction false} PricesFewer(s: seq<Order>)
    ensures |Prices(s)| <= |s|
  {
    if s != [] {
      PricesMore(s[1..], s[0]);
      assert s == [s[0]] + s[1..];
      PricesFewer(s[1..]);
    }
  }

  lemma PricesMore(s: seq<Order>, o: Order)
    ensures Prices([o] + s) == Prices(s) + {o.price} == Prices(s + [o])
  {
    forall p ensures p in Prices([o] + s) <==> p in Prices(s) + {o.price} {
      if p in Prices(s) { var o' :| o' in s && o'.price == p; assert o' in [o] + s; }
      if p == o.price { assert o in [o] + s; }
    }
    forall p ensures p in Prices(s + [o]) <==> p in Prices(s) + {o.price} {
      if p in Prices(s) { var o' :| o' in s && o'.price == p; assert o' in s + [o]; }
      if p == o.price { assert o in s + [o]; }
    }
  }

  // ---------------------------------------------------------------------------------------
  // The level pool runs out
  // ---------------------------------------------------------------------------------------

  /** `n` bids, each better by one than the one before it. */
  function Ladder(n: nat): (s: seq<Order>)
    ensures |s| == n && forall i :: 0 <= i < n ==> s[i] == Order(0, n - 1 - i, 1, BUY, n - i, 1, 1)
  {
    if n == 0 then [] else [Order(0, n - 1, 1, BUY, n, 1, 1)] + Ladder(n - 1)
  }

  function Rung(n: nat): Request {
    New(Incoming(0, n, 1, 0, BUY, n + 1), 1)
  }

  function Rungs(): seq<Request> {
    seq(ME_MAX_PRICE_LEVELS, i requires 0 <= i < ME_MAX_PRICE_LEVELS => Rung(i))
  }

  lemma {:induction false} LadderPrices(n: nat)
    ensures |Prices(Ladder(n))| == n && forall p :: p in Prices(Ladder(n)) ==> 1 <= p <= n
  {
    hide Prices;
    if n == 0 {
      NoPrices();
    } else {
      LadderPrices(n - 1);
      PricesMore(Ladder(n - 1), Order(0, n - 1, 1, BUY, n, 1, 1));
    }
  }

  /** One more rung: always safe below the size of the price table, but the last level that
      table has a slot for takes the last block of the pool. */
  lemma OneMoreRung(n: nat)
    requires n < ME_MAX_PRICE_LEVELS
    ensures Safe(Book(Ladder(n), []), Rung(n)) && Apply(Book(Ladder(n), []), Rung(n)).book == Book(Ladder(n + 1), [])
    ensures HasRoom(Book(Ladder(n), []), Rung(n)) <==> n < ME_MAX_PRICE_LEVELS - 1
  {
    var inc, s := Rung(n).inc, Ladder(n);
    var b := Book(s, []);
    hide Place, Ladder, SlotTaken, IndexTaken, Prices;
    assert Match([], inc, 1) == Matched([], 1, [], []);
    assert AfterMatch(b, inc, 1) == b && AllOrders(b) == s;
    LadderPrices(n);
    NewTop(n);
    hide Match;
  }

  /** The next rung has a slot of each table to itself, and stands first. */
  lemma NewTop(n: nat)
    requires n < ME_MAX_PRICE_LEVELS
    ensures !SlotTaken(Ladder(n), 0, n) && !IndexTaken(Ladder(n), n + 1) && Place(Ladder(n), BUY, n + 1) == 0
    ensures InsertAt(Ladder(n), 0, Order(0, n, 1, BUY, n + 1, 1, 1)) == Ladder(n + 1)
  {
  }

  lemma {:induction false} UpTheLadder(n: nat)
    requires n <= ME_MAX_PRICE_LEVELS
    ensures After(Rungs(), n) == Book(Ladder(n), []) && SafeRun(Rungs(), n)
    ensures forall i :: 0 <= i < n ==> (HasRoom(After(Rungs(), i), Rungs()[i]) <==> i < ME_MAX_PRICE_LEVELS - 1)
  {
    hide Safe, HasRoom, Apply, Ladder, Rung;
    if n == 0 {
      assert Ladder(0) == [];
    } else {
      UpTheLadder(n - 1);
      OneMoreRung(n - 1);
      assert Rungs()[n - 1] == Rung(n - 1);
    }
  }

  /** Bids at as many prices as the price table has slots are a safe run, and the last of them
      stops the process. */
  lemma LevelPoolRunsOut()
    ensures
      var rs, n := Rungs(), ME_MAX_PRICE_LEVELS - 1;
      SafeRun(rs, n + 1) && (forall i :: 0 <= i < n ==> HasRoom(After(rs, i), rs[i])) && !HasRoom(After(rs, n), rs[n])
  {
    hide Safe, HasRoom, After;
    UpTheLadder(ME_MAX_PRICE_LEVELS);
  }

  // ---------------------------------------------------------------------------------------
  // The order pools run out
  // ---------------------------------------------------------------------------------------

  /** `n` bids at one price, in order of arrival, with fresh market order ids. */
  function Line(n: nat): (s: seq<Order>)
    ensures |s| == n && forall i :: 0 <= i < n ==> s[i] == Order(0, i, i, BUY, 100, 1, i + 1)
  {
    if n == 0 then [] else Line(n - 1) + [Order(0, n - 1, n - 1, BUY, 100, 1, n)]
  }

  function Joiner(n: nat): Request {
    New(Incoming(0, n, n, 0, BUY, 100), 1)
  }

  function Joiners(): seq<Request> {
    seq(ME_MAX_ORDER_IDS, i requires 0 <= i < ME_MAX_ORDER_IDS => Joiner(i))
  }

  /** The next in the line: safe, and under a fresh id; but the last order id takes the last
      block of the book's pool, and of the synthesizer's. */
  lemma OneMoreJoiner(n: nat)
    requires n < ME_MAX_ORDER_IDS
    ensures Safe(Book(Line(n), []), Joiner(n)) && Apply(Book(Line(n), []), Joiner(n)).book == Book(Line(n + 1), [])
    ensures HasRoom(Book(Line(n), []), Joiner(n)) <==> n < ME_MAX_ORDER_IDS - 1
    ensures RestsFresh(Book(Line(n), []), Joiner(n)) <==> n < ME_MAX_ORDER_IDS - 1
  {
    var inc, s := Joiner(n).inc, Line(n);
    var b := Book(s, []);
    assert Match([], inc, 1) == Matched([], 1, [], []);
    assert AfterMatch(b, inc, 1) == b && AllOrders(b) == s;
    PlaceLast(s);
    hide Match, Place;
    assert !SlotTaken(s, 0, n) && !HasMid(s, n);
    if n > 0 { assert s[0].price == 100; }
    else { NoPrices(); }
  }

  lemma NoPrices()
    ensures Prices([]) == {}
  {
  }

  lemma {:induction false} PlaceLast(s: seq<Order>)
    requires forall i :: 0 <= i < |s| ==> s[i].price == 100
    ensures Place(s, BUY, 100) == |s|
  {
    if s != [] { PlaceLast(s[1..]); }
  }

  lemma {:induction false} DownTheLine(n: nat)
    requires n <= ME_MAX_ORDER_IDS
    ensures After(Joiners(), n) == Book(Line(n), []) && SafeRun(Joiners(), n)
    ensures forall i :: 0 <= i < n ==> (HasRoom(After(Joiners(), i), Joiners()[i]) <==> i < ME_MAX_ORDER_IDS - 1)
    ensures forall i :: 0 <= i < n ==> (RestsFresh(After(Joiners(), i), Joiners()[i]) <==> i < ME_MAX_ORDER_IDS - 1)
  {
    hide Safe, HasRoom, RestsFresh, Apply, Line, Joiner;
    if n == 0 {
      assert Line(0) == [];
    } else {
      DownTheLine(n - 1);
      OneMoreJoiner(n - 1);
      assert Joiners()[n - 1] == Joiner(n - 1);
    }
  }

  /** As many orders as there are order ids are a safe run under fresh ids, and the last of
      them stops the book's process, and would stop the synthesizer's. */
  lemma OrderPoolRunsOut()
    ensures
      var rs, n := Joiners(), ME_MAX_ORDER_IDS - 1;
      && SafeRun(rs, n + 1) && (forall i :: 0 <= i < n ==> HasRoom(After(rs, i), rs[i])) && !HasRoom(After(rs, n), rs[n])
      && FreshRun(rs, n) && !FreshRun(rs, n + 1)
  {
    hide Safe, HasRoom, RestsFresh, After;
    DownTheLine(ME_MAX_ORDER_IDS);
  }
}
