/** The market data publisher, which numbers the updates of the matching engine, and the
    snapshot synthesizer, which keeps an image of the live orders and publishes it. */
module Snapshot {
  import opened BookSpec
  import opened Options
  import opened BookLaws
  import opened Replay
  import opened Sets
  import opened Ring
  import opened BookPools
  import M = MemPool

  const TickerId_INVALID: nat := 0xffff_ffff

  /** MDPMarketUpdate */
  datatype MDPUpdate = MDPUpdate(seqNum: nat, update: Update)

  function Marker(kind: UpdateType, lastSeq: nat): Update {
    Update(kind, lastSeq, TickerId_INVALID, INVALID, Price_INVALID, Qty_INVALID, Priority_INVALID)
  }

  function ClearUpdate(t: TickerId): Update {
    Update(CLEAR, OrderId_INVALID, t, INVALID, Price_INVALID, Qty_INVALID, Priority_INVALID)
  }

  // ---------------------------------------------------------------------------------------
  // Numbering
  // ---------------------------------------------------------------------------------------

  /** Consecutive numbers from `first`. */
  ghost predicate Numbered(us: seq<MDPUpdate>, first: nat) {
    forall i :: 0 <= i < |us| ==> us[i].seqNum == first + i
  }

  function Payload(us: seq<MDPUpdate>): (r: seq<Update>)
    ensures |r| == |us| && forall i :: 0 <= i < |us| ==> r[i] == us[i].update
  {
    if us == [] then [] else [us[0].update] + Payload(us[1..])
  }

  lemma {:induction false} PayloadConcat(a: seq<MDPUpdate>, b: seq<MDPUpdate>)
    ensures Payload(a + b) == Payload(a) + Payload(b)
  {
  }

  lemma SendFirst(u: Update)
    ensures Numbered([MDPUpdate(0, u)], 0) && Payload([MDPUpdate(0, u)]) == [u]
  {
  }

  /** Sending one more message under the next number. */
  lemma {:induction false} SendOne(sent: seq<MDPUpdate>, u: Update)
    requires Numbered(sent, 0)
    ensures Numbered(sent + [MDPUpdate(|sent|, u)], 0) && Payload(sent + [MDPUpdate(|sent|, u)]) == Payload(sent) + [u]
  {
    var m := MDPUpdate(|sent|, u);
    PayloadConcat(sent, [m]);
    SendFirst(u);
  }

  class MarketDataPublisher {
    var nextIncSeqNum: nat

    constructor ()
      ensures nextIncSeqNum == 1
    {
      nextIncSeqNum := 1;
    }

    /** One pass of `run` over the queued updates: each is sent with the next number, and
        forwarded under the same number. */
    method Drain(queue: seq<Update>) returns (sent: seq<MDPUpdate>, forwarded: seq<MDPUpdate>)
      modifies this
      ensures nextIncSeqNum == old(nextIncSeqNum) + |queue|
      ensures Numbered(sent, old(nextIncSeqNum)) && Payload(sent) == queue && forwarded == sent
    {
      sent, forwarded := [], [];
      var i := 0;
      while i < |queue|
        invariant i <= |queue| && nextIncSeqNum == old(nextIncSeqNum) + i
        invariant |sent| == i && Numbered(sent, old(nextIncSeqNum)) && forwarded == sent
        invariant forall k :: 0 <= k < i ==> sent[k].update == queue[k]
      {
        sent := sent + [MDPUpdate(nextIncSeqNum, queue[i])];
        forwarded := forwarded + [MDPUpdate(nextIncSeqNum, queue[i])];
        nextIncSeqNum := nextIncSeqNum + 1;
        i := i + 1;
      }
    }
  }

  // ---------------------------------------------------------------------------------------
  // The image
  // ---------------------------------------------------------------------------------------

  /** Every entry is an ADD filed under its own ticker and id, within the arrays. */
  ghost predicate Filed(m: Image) {
    forall k: (TickerId, OrderId) :: k in m ==> m[k].kind == ADD && m[k].ticker == k.0 < ME_MAX_TICKERS && m[k].mid == k.1 < ME_MAX_ORDER_IDS
  }

  lemma PutKeepsFiled(m: Image, u: Update)
    requires Filed(m) && Put(m, u).Some?
    ensures Filed(Put(m, u).value)
  {
  }

  lemma {:induction false} FoldKeepsFiled(m: Image, us: seq<Update>)
    requires Filed(m) && Fold(m, us).Some?
    ensures Filed(Fold(m, us).value)
    decreases |us|
  {
    hide Put, Filed;
    if us != [] {
      PutKeepsFiled(m, us[0]);
      FoldKeepsFiled(AddTo(m, us[0]).value, us[1..]);
    }
  }

  /** The entries of one ticker below an id, by increasing id. */
  function OrdersOf(m: Image, t: TickerId, n: nat): seq<Update> {
    if n == 0 then [] else OrdersOf(m, t, n - 1) + (if (t, n - 1) in m then [m[(t, n - 1)]] else [])
  }

  /** The body of a snapshot: for each ticker a CLEAR and its live orders. */
  function BodyOf(m: Image, n: nat): seq<Update> {
    if n == 0 then [] else BodyOf(m, n - 1) + [ClearUpdate(n - 1)] + OrdersOf(m, n - 1, ME_MAX_ORDER_IDS)
  }

  /** A whole snapshot taken after update number `lastSeq`. */
  function SnapshotOf(m: Image, lastSeq: nat): seq<Update> {
    [Marker(SNAPSHOT_START, lastSeq)] + BodyOf(m, ME_MAX_TICKERS) + [Marker(SNAPSHOT_END, lastSeq)]
  }

  /** The order of the body: by ticker, and of one ticker the CLEAR first and then its orders by
      increasing id. */
  predicate Before(u: Update, v: Update) {
    u.ticker < v.ticker || (u.ticker == v.ticker && v.kind == ADD && (u.kind == CLEAR || (u.kind == ADD && u.mid < v.mid)))
  }

  predicate InOrderSent(us: seq<Update>) {
    forall i, j :: 0 <= i < j < |us| ==> Before(us[i], us[j])
  }

  /** A message of the body: it clears a ticker, or is an entry of the image. */
  ghost predicate FromImage(m: Image, u: Update) {
    (u.kind == CLEAR && u.ticker < ME_MAX_TICKERS) || ((u.ticker, u.mid) in m && m[(u.ticker, u.mid)] == u)
  }

  /** The entries of one ticker with ids below `n`: in order, nothing else, and all of them. */
  ghost predicate OrdersSent(m: Image, t: TickerId, n: nat, us: seq<Update>) {
    && InOrderSent(us)
    && (forall u :: u in us ==> u.ticker == t && u.kind == ADD && u.mid < n && (t, u.mid) in m && m[(t, u.mid)] == u)
    && (forall id: nat :: id < n && (t, id) in m ==> m[(t, id)] in us)
  }

  lemma {:induction false} OrdersInOrder(m: Image, t: TickerId, n: nat)
    requires Filed(m)
    ensures OrdersSent(m, t, n, OrdersOf(m, t, n))
  {
    if n > 0 {
      OrdersInOrder(m, t, n - 1);
      OrdersOneMore(m, t, n, OrdersOf(m, t, n - 1));
    }
  }

  lemma OrdersOneMore(m: Image, t: TickerId, n: nat, us: seq<Update>)
    requires Filed(m) && n > 0 && OrdersSent(m, t, n - 1, us)
    ensures OrdersSent(m, t, n, us + (if (t, n - 1) in m then [m[(t, n - 1)]] else []))
  {
    var us' := us + (if (t, n - 1) in m then [m[(t, n - 1)]] else []);
    forall i, j | 0 <= i < j < |us'| ensures Before(us'[i], us'[j]) { assert us'[i] in us; }
  }

  ghost predicate Clears(us: seq<Update>, t: TickerId) {
    exists u :: u in us && u.kind == CLEAR && u.ticker == t
  }

  /** The body for the tickers below `n`: in order, nothing but the image, and all of it. */
  ghost predicate BodySent(m: Image, n: nat, us: seq<Update>) {
    && InOrderSent(us)
    && (forall u :: u in us ==> u.ticker < n && FromImage(m, u))
    && (forall t: nat :: t < n ==> Clears(us, t))
    && (forall k: (TickerId, OrderId) :: k in m && k.0 < n ==> m[k] in us)
  }

  lemma {:induction false} BodyInOrder(m: Image, n: nat)
    requires Filed(m) && n <= ME_MAX_TICKERS
    ensures BodySent(m, n, BodyOf(m, n))
  {
    if n > 0 {
      BodyInOrder(m, n - 1);
      OrdersInOrder(m, n - 1, ME_MAX_ORDER_IDS);
      BodyOneMore(m, n, BodyOf(m, n - 1), OrdersOf(m, n - 1, ME_MAX_ORDER_IDS));
    }
  }

  lemma BodyOneMore(m: Image, n: nat, us: seq<Update>, orders: seq<Update>)
    requires Filed(m) && 0 < n <= ME_MAX_TICKERS && BodySent(m, n - 1, us) && OrdersSent(m, n - 1, ME_MAX_ORDER_IDS, orders)
    ensures BodySent(m, n, us + [ClearUpdate(n - 1)] + orders)
  {
    var us' := us + [ClearUpdate(n - 1)] + orders;
    var a := |us|;
    assert ClearUpdate(n - 1) == us'[a];
    forall i, j | 0 <= i < j < |us'| ensures Before(us'[i], us'[j]) {
      if i < a { assert us'[i] in us; }
      if i > a { assert us'[i] == orders[i - a - 1] && us'[j] == orders[j - a - 1]; }
      if j > a { assert us'[j] in orders; }
    }
    forall t: nat | t < n ensures Clears(us', t) {
      if t < n - 1 {
        assert Clears(us, t);
        var u :| u in us && u.kind == CLEAR && u.ticker == t;
        assert u in us';
      }
    }
  }

  /** A snapshot as it is sent: between the two markers, which both carry the number of the
      last update, the body goes through the tickers in order; each is cleared, then come
      its entries by increasing id, all of them and each once. */
  lemma {:induction false} SnapshotInOrder(m: Image, lastSeq: nat)
    requires Filed(m)
    ensures
      var us := SnapshotOf(m, lastSeq);
      var end := |us| - 1;
      && end >= 1 && us[0].kind == SNAPSHOT_START && us[end].kind == SNAPSHOT_END && us[0].mid == us[end].mid == lastSeq
      && BodySent(m, ME_MAX_TICKERS, us[1..end])
  {
    hide BodySent;
    BodyInOrder(m, ME_MAX_TICKERS);
    var us := SnapshotOf(m, lastSeq);
    assert us[1..|us| - 1] == BodyOf(m, ME_MAX_TICKERS);
  }

  ghost predicate OneToOne(blocks: map<(TickerId, OrderId), Ptr>) {
    forall k, l :: k in blocks && l in blocks && blocks[k] == blocks[l] ==> k == l
  }

  /** As many blocks as entries. */
  lemma BlocksCount(blocks: map<(TickerId, OrderId), Ptr>)
    requires OneToOne(blocks)
    ensures |blocks.Values| == |blocks.Keys|
  {
    SameSize(blocks.Keys, blocks, blocks.Values);
  }

  lemma BlocksMore(blocks: map<(TickerId, OrderId), Ptr>, key: (TickerId, OrderId), p: Ptr)
    requires OneToOne(blocks) && key !in blocks && p !in blocks.Values
    ensures OneToOne(blocks[key := p]) && blocks[key := p].Values == blocks.Values + {p}
  {
    var blocks' := blocks[key := p];
    forall q | q in blocks.Values ensures q in blocks'.Values {
      var k :| k in blocks && blocks[k] == q;
      assert blocks'[k] == q;
    }
    assert blocks'[key] == p;
  }

  lemma BlocksFewer(blocks: map<(TickerId, OrderId), Ptr>, key: (TickerId, OrderId))
    requires OneToOne(blocks) && key in blocks
    ensures OneToOne(blocks - {key}) && (blocks - {key}).Values == blocks.Values - {blocks[key]}
  {
    var blocks' := blocks - {key};
    forall q | q in blocks.Values - {blocks[key]} ensures q in blocks'.Values {
      var k :| k in blocks && blocks[k] == q;
      assert blocks'[k] == q;
    }
  }

  class SnapshotSynthesizer {
    var tickerOrders: Image
    var lastIncSeqNum: nat
    /** The pool of the entries, and the block of each. */
    const orderPool: M.Pool<()>
    var blocks: map<(TickerId, OrderId), Ptr>

    ghost predicate Valid()
      reads this, orderPool, orderPool.isFree
    {
      && Filed(tickerOrders) && blocks.Keys == tickerOrders.Keys && OneToOne(blocks)
      && Holds(orderPool, blocks.Values, ME_MAX_ORDER_IDS)
    }

    constructor ()
      ensures Valid() && fresh(orderPool) && fresh(orderPool.objects) && fresh(orderPool.isFree)
      ensures tickerOrders == map[] && lastIncSeqNum == 0
    {
      tickerOrders, lastIncSeqNum, blocks := map[], 0, map[];
      orderPool := new M.Pool<()>(ME_MAX_ORDER_IDS, ());
      new;
      NothingHeld(orderPool, ME_MAX_ORDER_IDS);
      assert blocks.Values == {};
    }

    /** A new entry; the pool has a block for it unless only its last one is left. */
    method Enter(key: (TickerId, OrderId), u: Update) returns (ok: bool)
      requires Valid() && key !in tickerOrders && Filed(tickerOrders[key := u])
      modifies this`tickerOrders, this`blocks, orderPool, orderPool.objects, orderPool.isFree
      ensures ok <==> |old(tickerOrders)| < ME_MAX_ORDER_IDS - 1
      ensures ok ==> Valid() && tickerOrders == old(tickerOrders)[key := u]
    {
      hide Filed, Holds, OneToOne;
      BlocksCount(blocks);
      ghost var blocks0, image0 := blocks, tickerOrders;
      assert |image0| == |image0.Keys|;
      var r := Obtain(orderPool, blocks.Values, ME_MAX_ORDER_IDS);
      assert blocks == blocks0 && tickerOrders == image0;
      if r.Stopped? { return false; }
      BlocksMore(blocks, key, r.value);
      blocks := blocks[key := r.value];
      tickerOrders := tickerOrders[key := u];
      return true;
    }

    /** An entry given up, with its block. */
    method Leave(key: (TickerId, OrderId))
      requires Valid() && key in tickerOrders
      modifies this`tickerOrders, this`blocks, orderPool.isFree
      ensures Valid() && tickerOrders == old(tickerOrders) - {key}
    {
      hide Holds;
      ghost var blocks0, image0 := blocks, tickerOrders;
      Release(orderPool, blocks[key], blocks.Values, ME_MAX_ORDER_IDS);
      assert blocks == blocks0 && tickerOrders == image0;
      BlocksFewer(blocks, key);
      blocks := blocks - {key};
      tickerOrders := tickerOrders - {key};
    }

    /** addToSnapshot; the result is false where the code stops the process. */
    method AddToSnapshot(mu: MDPUpdate) returns (ok: bool)
      requires Valid()
      modifies this`tickerOrders, this`lastIncSeqNum, this`blocks, orderPool, orderPool.objects, orderPool.isFree
      ensures ok || |old(tickerOrders)| < ME_MAX_ORDER_IDS - 1 ==> Valid()
      ensures ok <==> AddTo(old(tickerOrders), mu.update).Some? && mu.seqNum == old(lastIncSeqNum) + 1
      ensures ok ==> Some(tickerOrders) == AddTo(old(tickerOrders), mu.update) && lastIncSeqNum == mu.seqNum
    {
      hide Holds, OneToOne, Filed;
      var u := mu.update;
      if Put(tickerOrders, u).Some? { PutKeepsFiled(tickerOrders, u); }
      if u.ticker >= ME_MAX_TICKERS { return false; }
      var key := (u.ticker, u.mid);
      match u.kind {
        case ADD =>
          if u.mid >= ME_MAX_ORDER_IDS { return false; }
          if key in tickerOrders { return false; }
          var entered := Enter(key, u);
          if !entered { return false; }
        case MODIFY =>
          if u.mid >= ME_MAX_ORDER_IDS { return false; }
          if key !in tickerOrders { return false; }
          var order := tickerOrders[key];
          if order.mid != u.mid { return false; }
          if order.side != u.side { return false; }
          assert tickerOrders[key := order.(qty := u.qty, price := u.price)].Keys == tickerOrders.Keys;
          tickerOrders := tickerOrders[key := order.(qty := u.qty, price := u.price)];
        case CANCEL =>
          if u.mid >= ME_MAX_ORDER_IDS { return false; }
          if key !in tickerOrders { return false; }
          var order := tickerOrders[key];
          if order.mid != u.mid { return false; }
          if order.side != u.side { return false; }
          Leave(key);
        case _ =>
      }
      if mu.seqNum != lastIncSeqNum + 1 { return false; }
      lastIncSeqNum := mu.seqNum;
      return true;
    }

    /** The inner loop of `run`: take in what the publisher forwarded, until an assertion
        fails.  On a consecutively numbered stream only the image can make one fail. */
    method Process(stream: seq<MDPUpdate>) returns (ok: bool)
      requires Valid() && Numbered(stream, lastIncSeqNum + 1)
      modifies this`tickerOrders, this`lastIncSeqNum, this`blocks, orderPool, orderPool.objects, orderPool.isFree
      ensures ok ==> Valid()
      ensures ok <==> Fold(old(tickerOrders), Payload(stream)).Some?
      ensures ok ==> Some(tickerOrders) == Fold(old(tickerOrders), Payload(stream)) && lastIncSeqNum == old(lastIncSeqNum) + |stream|
    {
      hide AddTo, Filed, OneToOne, Holds;
      var i := 0;
      ghost var m0 := tickerOrders;
      assert Payload(stream)[0..] == Payload(stream);
      while i < |stream|
        invariant i <= |stream| && Valid() && lastIncSeqNum == old(lastIncSeqNum) + i
        invariant Fold(tickerOrders, Payload(stream)[i..]) == Fold(m0, Payload(stream))
      {
        assert Payload(stream)[i..][1..] == Payload(stream)[i + 1..];
        var fine := AddToSnapshot(stream[i]);
        if !fine { return false; }
        i := i + 1;
      }
      return true;
    }

    /** publishSnapshot: the messages in the order they are sent. */
    method PublishSnapshot() returns (sent: seq<MDPUpdate>)
      ensures Numbered(sent, 0)
      ensures Payload(sent) == SnapshotOf(tickerOrders, lastIncSeqNum)
      ensures Filed(tickerOrders) ==> |sent| >= 2 && BodySent(tickerOrders, ME_MAX_TICKERS, Payload(sent)[1..|sent| - 1])
    {
      hide Filed, AddTo, Numbered, Payload, BodySent;
      if Filed(tickerOrders) { SnapshotInOrder(tickerOrders, lastIncSeqNum); }
      var snapshotSize := 0;
      sent := [MDPUpdate(snapshotSize, Marker(SNAPSHOT_START, lastIncSeqNum))];
      snapshotSize := snapshotSize + 1;
      ghost var start := [Marker(SNAPSHOT_START, lastIncSeqNum)];
      SendFirst(Marker(SNAPSHOT_START, lastIncSeqNum));
      var ticker := 0;
      while ticker < ME_MAX_TICKERS
        invariant ticker <= ME_MAX_TICKERS && snapshotSize == |sent| && Numbered(sent, 0)
        invariant Payload(sent) == start + BodyOf(tickerOrders, ticker)
      {
        SendOne(sent, ClearUpdate(ticker));
        sent := sent + [MDPUpdate(snapshotSize, ClearUpdate(ticker))];
        snapshotSize := snapshotSize + 1;
        ghost var base := start + BodyOf(tickerOrders, ticker) + [ClearUpdate(ticker)];
        var id := 0;
        while id < ME_MAX_ORDER_IDS
          invariant id <= ME_MAX_ORDER_IDS && snapshotSize == |sent| && Numbered(sent, 0)
          invariant Payload(sent) == base + OrdersOf(tickerOrders, ticker, id)
        {
          if (ticker, id) in tickerOrders {
            SendOne(sent, tickerOrders[(ticker, id)]);
            sent := sent + [MDPUpdate(snapshotSize, tickerOrders[(ticker, id)])];
            snapshotSize := snapshotSize + 1;
          }
          id := id + 1;
        }
        ticker := ticker + 1;
        assert BodyOf(tickerOrders, ticker)
            == BodyOf(tickerOrders, ticker - 1) + [ClearUpdate(ticker - 1)] + OrdersOf(tickerOrders, ticker - 1, ME_MAX_ORDER_IDS);
      }
      SendOne(sent, Marker(SNAPSHOT_END, lastIncSeqNum));
      sent := sent + [MDPUpdate(snapshotSize, Marker(SNAPSHOT_END, lastIncSeqNum))];
    }
  }

  // ---------------------------------------------------------------------------------------
  // Restoring a snapshot
  // ---------------------------------------------------------------------------------------

  function Cleared(m: Image, t: TickerId): Image {
    map k: (TickerId, OrderId) | k in m && k.0 != t :: m[k]
  }

  /** What a snapshot message tells a reader: CLEAR empties a ticker, ADD adds an order. */
  function Restore(m: Image, us: seq<Update>): Option<Image>
    decreases |us|
  {
    if us == [] then Some(m)
    else match us[0].kind
    case SNAPSHOT_START => Restore(m, us[1..])
    case SNAPSHOT_END => Restore(m, us[1..])
    case CLEAR => Restore(Cleared(m, us[0].ticker), us[1..])
    case _ => match Put(m, us[0]) case None => None case Some(m') => Restore(m', us[1..])
  }

  lemma {:induction false} RestoreConcat(m: Image, a: seq<Update>, b: seq<Update>)
    ensures Restore(m, a + b) == if Restore(m, a).None? then None else Restore(Restore(m, a).value, b)
    decreases |a|
  {
    hide Put;
    if a == [] {
      assert a + b == b;
    } else {
      assert (a + b)[1..] == a[1..] + b;
      match a[0].kind
      case SNAPSHOT_START => RestoreConcat(m, a[1..], b);
      case SNAPSHOT_END => RestoreConcat(m, a[1..], b);
      case CLEAR => RestoreConcat(Cleared(m, a[0].ticker), a[1..], b);
      case _ => if Put(m, a[0]).Some? { RestoreConcat(Put(m, a[0]).value, a[1..], b); }
    }
  }

  /** `m0` outside the first `n` tickers, and `m` inside them. */
  function Spliced(m0: Image, m: Image, n: nat): Image {
    (map k: (TickerId, OrderId) | k in m0 && k.0 >= n :: m0[k]) + (map k: (TickerId, OrderId) | k in m && k.0 < n :: m[k])
  }

  /** The entries of one ticker below an id. */
  function Part(m: Image, t: TickerId, n: nat): Image {
    map k: (TickerId, OrderId) | k in m && k.0 == t && k.1 < n :: m[k]
  }

  lemma PartStep(m: Image, t: TickerId, n: nat)
    requires n > 0
    ensures Part(m, t, n) == if (t, n - 1) in m then Part(m, t, n - 1)[(t, n - 1) := m[(t, n - 1)]] else Part(m, t, n - 1)
  {
    var l, r := Part(m, t, n), if (t, n - 1) in m then Part(m, t, n - 1)[(t, n - 1) := m[(t, n - 1)]] else Part(m, t, n - 1);
    forall k: (TickerId, OrderId) ensures k in l <==> k in r { assert k.1 == n - 1 && k.0 == t ==> k == (t, n - 1); }
    forall k: (TickerId, OrderId) | k in l ensures l[k] == r[k] { }
  }

  /** The orders of one ticker, read into an image that has none of that ticker. */
  lemma {:induction false} RestoreOrders(x: Image, m: Image, t: TickerId, n: nat)
    requires Filed(m) && t < ME_MAX_TICKERS && n <= ME_MAX_ORDER_IDS
    requires forall k: (TickerId, OrderId) :: k in x ==> k.0 != t
    ensures Restore(x, OrdersOf(m, t, n)) == Some(x + Part(m, t, n))
  {
    if n == 0 {
      assert x + Part(m, t, 0) == x;
    } else {
      RestoreOrders(x, m, t, n - 1);
      PartStep(m, t, n);
      var p := Part(m, t, n - 1);
      assert (t, n - 1) !in x + p;
      if (t, n - 1) in m {
        var u := m[(t, n - 1)];
        RestoreConcat(x, OrdersOf(m, t, n - 1), [u]);
        RestoreOne(x + p, u);
        assert (x + p)[(t, n - 1) := u] == x + p[(t, n - 1) := u];
      } else {
        assert OrdersOf(m, t, n) == OrdersOf(m, t, n - 1);
      }
    }
  }

  lemma RestoreOne(m: Image, u: Update)
    requires u.kind == ADD
    ensures Restore(m, [u]) == Put(m, u)
  {
    hide Put;
    var r := Put(m, u);
    assert [u][1..] == [];
    assert r.Some? ==> Restore(r.value, []) == r;
  }

  lemma {:induction false} RestoreBody(m0: Image, m: Image, n: nat)
    requires Filed(m) && n <= ME_MAX_TICKERS
    ensures Restore(m0, BodyOf(m, n)) == Some(Spliced(m0, m, n))
  {
    if n == 0 {
      assert Spliced(m0, m, 0) == m0;
    } else {
      hide Filed, Spliced, Cleared, OrdersOf, Part, Restore;
      RestoreBody(m0, m, n - 1);
      var x := Spliced(m0, m, n - 1);
      var clear := [ClearUpdate(n - 1)];
      var orders := OrdersOf(m, n - 1, ME_MAX_ORDER_IDS);
      RestoreConcat(m0, BodyOf(m, n - 1), clear);
      RestoreClear(x, n - 1);
      RestoreConcat(m0, BodyOf(m, n - 1) + clear, orders);
      NoneCleared(x, n - 1);
      RestoreOrders(Cleared(x, n - 1), m, n - 1, ME_MAX_ORDER_IDS);
      SpliceStep(m0, m, n);
    }
  }

  lemma RestoreClear(x: Image, t: TickerId)
    ensures Restore(x, [ClearUpdate(t)]) == Some(Cleared(x, t))
  {
    assert [ClearUpdate(t)][1..] == [];
    assert Restore(Cleared(x, t), []) == Some(Cleared(x, t));
  }

  lemma NoneCleared(x: Image, t: TickerId)
    ensures forall k: (TickerId, OrderId) :: k in Cleared(x, t) ==> k.0 != t
  {
  }

  lemma SpliceStep(m0: Image, m: Image, n: nat)
    requires n > 0 && Filed(m)
    ensures Cleared(Spliced(m0, m, n - 1), n - 1) + Part(m, n - 1, ME_MAX_ORDER_IDS) == Spliced(m0, m, n)
  {
    hide Filed, Spliced, Part, Cleared, SameAt;
    var l, r := Cleared(Spliced(m0, m, n - 1), n - 1) + Part(m, n - 1, ME_MAX_ORDER_IDS), Spliced(m0, m, n);
    forall k: (TickerId, OrderId) ensures SameAt(l, r, k) { SpliceAt(m0, m, n, k); }
    SameImage(l, r);
  }

  predicate SameAt(l: Image, r: Image, k: (TickerId, OrderId)) {
    (k in l <==> k in r) && (k in l ==> l[k] == r[k])
  }

  lemma SameImage(l: Image, r: Image)
    requires forall k :: SameAt(l, r, k)
    ensures l == r
  {
    forall k ensures k in l <==> k in r { assert SameAt(l, r, k); }
    forall k | k in l ensures l[k] == r[k] { assert SameAt(l, r, k); }
  }

  lemma SpliceAt(m0: Image, m: Image, n: nat, k: (TickerId, OrderId))
    requires n > 0 && Filed(m)
    ensures SameAt(Cleared(Spliced(m0, m, n - 1), n - 1) + Part(m, n - 1, ME_MAX_ORDER_IDS), Spliced(m0, m, n), k)
  {
  }

  /** Restoring a snapshot gives the image it was taken of, whatever the reader held before
      for the eight tickers. */
  lemma SnapshotRestores(m0: Image, m: Image, lastSeq: nat)
    requires Filed(m) && Filed(m0)
    ensures Restore(m0, SnapshotOf(m, lastSeq)) == Some(m)
  {
    var start, end := [Marker(SNAPSHOT_START, lastSeq)], [Marker(SNAPSHOT_END, lastSeq)];
    var body := BodyOf(m, ME_MAX_TICKERS);
    assert start[1..] == [] && end[1..] == [];
    assert Restore(m0, start) == Some(m0) by { assert Restore(m0, []) == Some(m0); }
    RestoreConcat(m0, start, body);
    RestoreBody(m0, m, ME_MAX_TICKERS);
    assert Spliced(m0, m, ME_MAX_TICKERS) == m;
    RestoreConcat(m0, start + body, end);
    assert Restore(m, end) == Some(m) by { assert Restore(m, []) == Some(m); }
  }

  lemma MarkersCarry(m: Image, k: nat)
    ensures SnapshotOf(m, k) != [] && SnapshotOf(m, k)[0].mid == k == SnapshotOf(m, k)[|SnapshotOf(m, k)| - 1].mid
  {
    hide BodyOf;
  }

  lemma NothingFiled()
    ensures Filed(map[])
  {
  }

  /** A late reader: the snapshot taken after update k, then updates k+1 to n, give the same
      image as updates 1 to n from nothing; and both markers of the snapshot carry k. */
  lemma SnapshotThenUpdates(us: seq<Update>, k: nat, m0: Image)
    requires k <= |us| && Filed(m0) && Fold(map[], us[..k]).Some?
    ensures
      var snapshot := SnapshotOf(Fold(map[], us[..k]).value, k);
      && Restore(m0, snapshot).Some?
      && Fold(Restore(m0, snapshot).value, us[k..]) == Fold(map[], us)
      && snapshot[0].mid == k == snapshot[|snapshot| - 1].mid
  {
    hide Restore, SnapshotOf, Fold, Filed;
    var m := Fold(map[], us[..k]).value;
    MarkersCarry(m, k);
    assert Filed(map[]) by { NothingFiled(); }
    FoldKeepsFiled(map[], us[..k]);
    SnapshotRestores(m0, m, k);
    FoldConcat(map[], us[..k], us[k..]);
    assert us[..k] + us[k..] == us;
  }

  // ---------------------------------------------------------------------------------------
  // From the book to a late reader
  // ---------------------------------------------------------------------------------------

  lemma PayloadPart(sent: seq<MDPUpdate>, us: seq<Update>, first: nat, k: nat)
    requires Numbered(sent, first) && Payload(sent) == us && k <= |us|
    ensures |sent| == |us| && Payload(sent[..k]) == us[..k] && Payload(sent[k..]) == us[k..]
    ensures Numbered(sent[..k], first) && Numbered(sent[k..], first + k)
  {
  }

  lemma NoFreshLost(m: Image, us: seq<Update>, k: nat)
    requires k <= |us| && Fold(m, us).Some?
    ensures Fold(m, us[..k]).Some?
  {
    hide Fold;
    FoldConcat(m, us[..k], us[k..]);
    assert us[..k] + us[k..] == us;
  }

  /** What a late reader gets: a numbered snapshot, then the updates after number `k`; and with
      them, whatever it held before, the same as from all updates.  That is nothing less than
      the live orders of the book if every order came to rest with a fresh id and a block. */
  ghost predicate ReaderAgrees(rs: seq<Request>, t: TickerId, us: seq<Update>, k: nat, m0: Image, snapshot: seq<MDPUpdate>, later: seq<MDPUpdate>) {
    var restored := Restore(m0, Payload(snapshot));
    && Numbered(snapshot, 0) && Numbered(later, k + 1)
    && restored.Some? && Fold(restored.value, Payload(later)) == Fold(map[], us)
    && (FreshRun(rs, |rs|) <==> Fold(restored.value, Payload(later)).Some?)
    && (FreshRun(rs, |rs|) ==> Shows(Fold(restored.value, Payload(later)).value, AllOrders(After(rs, |rs|)), t))
  }

  lemma ReaderLaw(rs: seq<Request>, t: TickerId, us: seq<Update>, k: nat, m0: Image, snapshot: seq<MDPUpdate>, later: seq<MDPUpdate>)
    requires ForTicker(rs, t) && t < ME_MAX_TICKERS && us == AllUpdates(rs, |rs|) && k <= |us| && Filed(m0)
    requires Fold(map[], us[..k]).Some? && Payload(snapshot) == SnapshotOf(Fold(map[], us[..k]).value, k) && Payload(later) == us[k..]
    requires Numbered(snapshot, 0) && Numbered(later, k + 1)
    ensures ReaderAgrees(rs, t, us, k, m0, snapshot, later)
  {
    hide Fold, Restore, SnapshotOf, Filed, Numbered, Payload, FreshRun, Shows, AllUpdates, ForTicker;
    ReplayGivesBook(rs, t, |rs|);
    SnapshotThenUpdates(us, k, m0);
  }

  /** The chain put together: the book's updates go through the publisher; the synthesizer
      takes in the first k and publishes a snapshot; a reader takes that, and then the updates
      sent after number k.  On a run with fresh ids that fits the pool nothing stops. */
  method LateReader(ghost rs: seq<Request>, ghost t: TickerId, us: seq<Update>, k: nat, ghost m0: Image)
      returns (ok: bool, snapshot: seq<MDPUpdate>, later: seq<MDPUpdate>)
    requires ForTicker(rs, t) && t < ME_MAX_TICKERS && us == AllUpdates(rs, |rs|) && k <= |us| && Filed(m0)
    ensures FreshRun(rs, |rs|) ==> ok
    ensures ok ==> ReaderAgrees(rs, t, us, k, m0, snapshot, later)
  {
    hide Fold, Restore, SnapshotOf, Filed, Numbered, Payload, FreshRun, Shows, AllUpdates, ForTicker, ReaderAgrees, Holds, OneToOne;
    if FreshRun(rs, |rs|) {
      ReplayGivesBook(rs, t, |rs|);
      NoFreshLost(map[], us, k);
    }
    var publisher := new MarketDataPublisher();
    var sent, forwarded := publisher.Drain(us);
    PayloadPart(sent, us, 1, k);
    var synthesizer := new SnapshotSynthesizer();
    ok := synthesizer.Process(forwarded[..k]);
    snapshot, later := [], [];
    if ok {
      snapshot := synthesizer.PublishSnapshot();
      later := sent[k..];
      ReaderLaw(rs, t, us, k, m0, snapshot, later);
    }
  }
}
