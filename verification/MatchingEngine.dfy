/** The matching engine's loop over client requests, for the book of one ticker: what the
    classes do over a whole session is what the pure run says, as long as the guards hold. */
module MatchingEngine {
  import opened BookSpec
  import opened BookLaws
  import opened Replay
  import opened BookStore
  import opened OrderBook
  import opened Snapshot
  import opened BookPools
  import M = MemPool

  /** Requests with ids inside the tables, under the market order id that the book hands out. */
  predicate Acceptable(r: Request) {
    match r
    case New(inc, _) => inc.side != INVALID && inc.mid == 1 && inc.client < ME_MAX_NUM_CLIENTS && inc.oid < ME_MAX_ORDER_IDS
    case Cancel(client, oid, _) => client < ME_MAX_NUM_CLIENTS ==> oid < ME_MAX_ORDER_IDS
  }

  predicate RoomRun(rs: seq<Request>, n: nat)
    requires n <= |rs|
  {
    forall i :: 0 <= i < n ==> HasRoom(After(rs, i), rs[i])
  }

  /** processClientRequest */
  method ProcessClientRequest(book: MEOrderBook, r: Request) returns (outcome: M.Outcome<()>)
    requires book.Valid() && Acceptable(r) && Safe(book.Contents(), r)
    modifies book, book.orderPool, book.orderPool.objects, book.orderPool.isFree
    modifies book.levelPool, book.levelPool.objects, book.levelPool.isFree
    ensures outcome.Running? <==> HasRoom(old(book.Contents()), r)
    ensures book.responses == old(book.responses) + Apply(old(book.Contents()), r).responses
    ensures outcome.Running? ==>
      && book.Valid() && book.Contents() == Apply(old(book.Contents()), r).book
      && book.updates == old(book.updates) + Apply(old(book.Contents()), r).updates
  {
    hide Good, Abs, Holds, Open, Match, CanRest, RoomToRest, AddSpec, CancelSpec;
    match r
    case New(inc, qty) =>
      outcome := book.Add(inc.client, inc.oid, inc.ticker, inc.side, inc.price, qty);
    case Cancel(client, oid, ticker) =>
      book.Cancel(client, oid, ticker);
      outcome := M.Running(());
  }

  /** run: serves the requests in order, until the pools have no room for one. */
  method Serve(book: MEOrderBook, rs: seq<Request>) returns (served: nat, outcome: M.Outcome<()>)
    requires book.Valid() && book.Contents() == EMPTY && book.responses == [] && book.updates == []
    requires (forall i :: 0 <= i < |rs| ==> Acceptable(rs[i])) && SafeRun(rs, |rs|)
    modifies book, book.orderPool, book.orderPool.objects, book.orderPool.isFree
    modifies book.levelPool, book.levelPool.objects, book.levelPool.isFree
    ensures outcome.Running? <==> RoomRun(rs, |rs|)
    ensures served <= |rs| && RoomRun(rs, served)
    ensures if outcome.Stopped? then served < |rs| && !HasRoom(After(rs, served), rs[served]) else served == |rs|
    ensures book.responses == AllResponses(rs, if outcome.Stopped? && served < |rs| then served + 1 else served)
    ensures outcome.Running? ==> book.Valid() && book.Contents() == After(rs, |rs|) && book.updates == AllUpdates(rs, |rs|)
  {
    hide Good, Abs, Holds, Open, Safe, HasRoom, Apply, Acceptable;
    served, outcome := 0, M.Running(());
    while served < |rs|
      invariant served <= |rs| && RoomRun(rs, served)
      invariant book.Valid() && book.Contents() == After(rs, served)
      invariant book.responses == AllResponses(rs, served) && book.updates == AllUpdates(rs, served)
    {
      outcome := ProcessClientRequest(book, rs[served]);
      if outcome.Stopped? { return; }
      served := served + 1;
    }
    outcome := M.Running(());
  }

  /** A session of the whole exchange: the engine's updates are published, and a late reader
      who takes a snapshot after number `k` and then the rest has what the book has. */
  method Session(rs: seq<Request>, ghost t: TickerId, k: nat, ghost m0: Image)
      returns (outcome: M.Outcome<()>, ok: bool, snapshot: seq<MDPUpdate>, later: seq<MDPUpdate>)
    requires (forall i :: 0 <= i < |rs| ==> Acceptable(rs[i])) && SafeRun(rs, |rs|)
    requires ForTicker(rs, t) && t < ME_MAX_TICKERS && Filed(m0)
    ensures outcome.Running? <==> RoomRun(rs, |rs|)
    ensures outcome.Running? && FreshRun(rs, |rs|) ==> ok
    ensures outcome.Running? && ok ==>
      var us := AllUpdates(rs, |rs|);
      ReaderAgrees(rs, t, us, Min(k, |us|), m0, snapshot, later)
  {
    hide Good, Abs, Holds, Open, Safe, HasRoom, Apply, Acceptable, ReaderAgrees, ForTicker, Filed, AllUpdates, RoomRun, SafeRun, FreshRun;
    ok, snapshot, later := false, [], [];
    var book := new MEOrderBook();
    var served;
    served, outcome := Serve(book, rs);
    if outcome.Running? {
      ok, snapshot, later := LateReader(rs, t, book.updates, Min(k, |book.updates|), m0);
    }
  }
}
