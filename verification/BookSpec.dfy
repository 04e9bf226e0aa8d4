/** The limit order book as a value: on each side the resting orders in price-time order,
    and the pure price-time matcher that the pointer book refines. */
module BookSpec {
  import opened Seqs

  type ClientId = nat
  type OrderId = nat
  type TickerId = nat
  type Price = nat
  type Qty = nat
  type Priority = nat

  const ME_MAX_NUM_CLIENTS: nat := 256
  const ME_MAX_ORDER_IDS: nat := 1024 * 1024
  const ME_MAX_PRICE_LEVELS: nat := 256
  const OrderId_INVALID: nat := 0xffff_ffff_ffff_ffff
  const Price_INVALID: nat := 0xffff_ffff_ffff_ffff
  const Priority_INVALID: nat := 0xffff_ffff_ffff_ffff
  const Qty_INVALID: nat := 0xffff_ffff

  datatype Side = INVALID | BUY | SELL

  /** A resting order. */
  datatype Order = Order(client: ClientId, oid: OrderId, mid: OrderId, side: Side, price: Price, qty: Qty, priority: Priority)

  /** An order on its way in. */
  datatype Incoming = Incoming(client: ClientId, oid: OrderId, mid: OrderId, ticker: TickerId, side: Side, price: Price)

  datatype ResponseType = ACCEPTED | CANCELED | FILLED | CANCEL_REJECTED

  /** MEClientResponse */
  datatype Response = Response(kind: ResponseType, client: ClientId, ticker: TickerId, oid: OrderId, mid: OrderId,
                               side: Side, price: Price, exec: Qty, leaves: Qty)

  datatype UpdateType = CLEAR | ADD | MODIFY | CANCEL | TRADE | SNAPSHOT_START | SNAPSHOT_END | NONE

  /** MEMarketUpdate */
  datatype Update = Update(kind: UpdateType, mid: OrderId, ticker: TickerId, side: Side, price: Price, qty: Qty, priority: Priority)

  /** Both sides best first; orders at one price in order of arrival. */
  datatype Book = Book(bids: seq<Order>, asks: seq<Order>)

  datatype Request =
    | New(inc: Incoming, qty: Qty)
    | Cancel(client: ClientId, oid: OrderId, ticker: TickerId)

  /** What a request does to the book, and what it sends. */
  datatype Effect = Effect(book: Book, responses: seq<Response>, updates: seq<Update>)

  function Opposite(side: Side): Side {
    match side case BUY => SELL case SELL => BUY case INVALID => INVALID
  }

  function SideOf(b: Book, side: Side): seq<Order> {
    if side == BUY then b.bids else b.asks
  }

  function WithSide(b: Book, side: Side, s: seq<Order>): Book {
    if side == BUY then b.(bids := s) else b.(asks := s)
  }

  /** Price p stands strictly before price q on this side. */
  predicate Better(side: Side, p: Price, q: Price) {
    if side == BUY then p > q else p < q
  }

  /** An incoming order of this side and price trades against a resting price. */
  predicate Crosses(side: Side, price: Price, resting: Price) {
    if side == BUY then price >= resting else price <= resting
  }

  function Min(a: nat, b: nat): nat {
    if a < b then a else b
  }

  function IndexOf(price: Price): nat {
    price % ME_MAX_PRICE_LEVELS
  }

  // ---------------------------------------------------------------------------------------
  // The operations
  // ---------------------------------------------------------------------------------------

  datatype Matched = Matched(rest: seq<Order>, leaves: Qty, responses: seq<Response>, updates: seq<Update>)

  /** The two FILLED responses of one fill. */
  function FillResponses(inc: Incoming, o: Order, fill: Qty, leaves: Qty): seq<Response> {
    [Response(FILLED, inc.client, inc.ticker, inc.oid, inc.mid, inc.side, o.price, fill, leaves),
     Response(FILLED, o.client, inc.ticker, o.oid, o.mid, o.side, o.price, fill, if fill <= o.qty then o.qty - fill else 0)]
  }

  /** The TRADE of one fill, and what has become of the resting order. */
  function FillUpdates(inc: Incoming, o: Order, fill: Qty): seq<Update> {
    [Update(TRADE, OrderId_INVALID, inc.ticker, inc.side, o.price, fill, Priority_INVALID),
     if fill >= o.qty then Update(CANCEL, o.mid, inc.ticker, o.side, o.price, o.qty, Priority_INVALID)
     else Update(MODIFY, o.mid, inc.ticker, o.side, o.price, o.qty - fill, o.priority)]
  }

  /** Price-time matching: trade with the first resting order while it crosses. */
  function Match(s: seq<Order>, inc: Incoming, leaves: Qty): Matched
    decreases |s|, leaves
  {
    if leaves == 0 || s == [] || !Crosses(inc.side, inc.price, s[0].price) then Matched(s, leaves, [], [])
    else
      var o := s[0];
      var fill := Min(leaves, o.qty);
      var m := if fill == o.qty then Match(s[1..], inc, leaves - fill)
               else Matched([o.(qty := o.qty - fill)] + s[1..], 0, [], []);
      Matched(m.rest, m.leaves, FillResponses(inc, o, fill, leaves - fill) + m.responses, FillUpdates(inc, o, fill) + m.updates)
  }

  /** How many resting orders stand before a newcomer at this price: all not worse than it. */
  function Place(s: seq<Order>, side: Side, price: Price): (i: nat)
    ensures i <= |s|
    ensures forall k :: 0 <= k < i ==> !Better(side, price, s[k].price)
    ensures i < |s| ==> Better(side, price, s[i].price)
  {
    if s == [] || Better(side, price, s[0].price) then 0
    else
      var i := 1 + Place(s[1..], side, price);
      assert forall k :: 0 < k < i ==> s[k] == s[1..][k - 1];
      i
  }

  /** One more than the priority of the last order at this price; 1 for a new price. */
  function NextPriority(s: seq<Order>, side: Side, price: Price): Priority {
    var i := Place(s, side, price);
    if i > 0 && s[i - 1].price == price then s[i - 1].priority + 1 else 1
  }

  function Insert(s: seq<Order>, o: Order): seq<Order> {
    var i := Place(s, o.side, o.price);
    InsertAt(s, i, o)
  }

  function RestingOrder(s: seq<Order>, inc: Incoming, leaves: Qty): Order {
    Order(inc.client, inc.oid, inc.mid, inc.side, inc.price, leaves, NextPriority(s, inc.side, inc.price))
  }

  function AddSpec(b: Book, inc: Incoming, qty: Qty): Effect {
    var m := Match(SideOf(b, Opposite(inc.side)), inc, qty);
    var accepted := [Response(ACCEPTED, inc.client, inc.ticker, inc.oid, inc.mid, inc.side, inc.price, 0, qty)];
    var b' := WithSide(b, Opposite(inc.side), m.rest);
    if m.leaves == 0 then Effect(b', accepted + m.responses, m.updates)
    else
      var o := RestingOrder(SideOf(b, inc.side), inc, m.leaves);
      Effect(WithSide(b', inc.side, Insert(SideOf(b, inc.side), o)), accepted + m.responses,
             m.updates + [Update(ADD, inc.mid, inc.ticker, inc.side, inc.price, m.leaves, o.priority)])
  }

  /** Index of the order with this client and client order id, or the length. */
  function Find(s: seq<Order>, client: ClientId, oid: OrderId): (i: nat)
    ensures i <= |s|
    ensures i < |s| ==> s[i].client == client && s[i].oid == oid
    ensures forall k :: 0 <= k < i ==> !(s[k].client == client && s[k].oid == oid)
  {
    if s == [] || (s[0].client == client && s[0].oid == oid) then 0
    else
      var i := 1 + Find(s[1..], client, oid);
      assert forall k :: 0 < k < i ==> s[k] == s[1..][k - 1];
      i
  }

  function CancelAt(b: Book, side: Side, i: nat, ticker: TickerId): Effect
    requires i < |SideOf(b, side)|
  {
    var o := SideOf(b, side)[i];
    Effect(WithSide(b, side, DropAt(SideOf(b, side), i)),
           [Response(CANCELED, o.client, ticker, o.oid, o.mid, o.side, o.price, Qty_INVALID, o.qty)],
           [Update(CANCEL, o.mid, ticker, o.side, o.price, 0, o.priority)])
  }

  function CancelSpec(b: Book, client: ClientId, oid: OrderId, ticker: TickerId): Effect {
    var i, j := Find(b.bids, client, oid), Find(b.asks, client, oid);
    if i < |b.bids| then CancelAt(b, BUY, i, ticker)
    else if j < |b.asks| then CancelAt(b, SELL, j, ticker)
    else Effect(b, [Response(CANCEL_REJECTED, client, ticker, oid, OrderId_INVALID, INVALID, Price_INVALID, Qty_INVALID, Qty_INVALID)], [])
  }

  function Apply(b: Book, r: Request): Effect {
    match r
    case New(inc, qty) => AddSpec(b, inc, qty)
    case Cancel(client, oid, ticker) => CancelSpec(b, client, oid, ticker)
  }

  // ---------------------------------------------------------------------------------------
  // Well-formed books
  // ---------------------------------------------------------------------------------------

  /** Strictly sorted: better price first, and at one price by increasing priority. */
  predicate Sorted(side: Side, s: seq<Order>) {
    forall i, j :: 0 <= i < j < |s| ==>
      Better(side, s[i].price, s[j].price) || (s[i].price == s[j].price && s[i].priority < s[j].priority)
  }

  predicate AllLive(side: Side, s: seq<Order>) {
    forall i :: 0 <= i < |s| ==> s[i].side == side && s[i].qty > 0
  }

  function AllOrders(b: Book): seq<Order> {
    b.bids + b.asks
  }

  predicate Uncrossed(b: Book) {
    b.bids != [] && b.asks != [] ==> b.bids[0].price < b.asks[0].price
  }

  /** No two live orders share client and client order id. */
  predicate KeysDistinct(s: seq<Order>) {
    forall i, j :: 0 <= i < j < |s| ==> !(s[i].client == s[j].client && s[i].oid == s[j].oid)
  }

  /** Live prices that share a slot of the price table are one price of one side. */
  predicate PricesApart(s: seq<Order>) {
    forall i, j :: 0 <= i < |s| && 0 <= j < |s| && IndexOf(s[i].price) == IndexOf(s[j].price) ==>
      s[i].price == s[j].price && s[i].side == s[j].side
  }

  /** Quantity in every resting order, and nothing left to trade. */
  predicate Open(b: Book) {
    AllLive(BUY, b.bids) && AllLive(SELL, b.asks) && Uncrossed(b)
  }

  predicate WellFormed(b: Book) {
    && Sorted(BUY, b.bids) && Sorted(SELL, b.asks) && AllLive(BUY, b.bids) && AllLive(SELL, b.asks)
    && Uncrossed(b) && KeysDistinct(AllOrders(b)) && PricesApart(AllOrders(b))
  }

  predicate SlotTaken(s: seq<Order>, client: ClientId, oid: OrderId) {
    exists i :: 0 <= i < |s| && s[i].client == client && s[i].oid == oid
  }

  predicate HasPrice(s: seq<Order>, price: Price) {
    exists i :: 0 <= i < |s| && s[i].price == price
  }

  predicate IndexTaken(s: seq<Order>, price: Price) {
    exists i :: 0 <= i < |s| && IndexOf(s[i].price) == IndexOf(price)
  }

  /** The case addOrdersAtPrice links wrongly: a new ask level better than the best of two or more. */
  predicate Mislinked(b: Book, side: Side, price: Price) {
    side == SELL && b.asks != [] && price < b.asks[0].price && b.asks[|b.asks| - 1].price != b.asks[0].price
  }

  /** The guard under which an order can rest: its client's slot is free, and its price has a
      level on its side already, or a free slot of the price table that will be linked well. */
  predicate CanRest(b: Book, inc: Incoming) {
    && !SlotTaken(AllOrders(b), inc.client, inc.oid)
    && (HasPrice(SideOf(b, inc.side), inc.price)
        || (!IndexTaken(AllOrders(b), inc.price) && !Mislinked(b, inc.side, inc.price)))
  }

  /** What the book looks like once an incoming order has been matched. */
  function AfterMatch(b: Book, inc: Incoming, qty: Qty): Book {
    WithSide(b, Opposite(inc.side), Match(SideOf(b, Opposite(inc.side)), inc, qty).rest)
  }

  predicate Safe(b: Book, r: Request) {
    match r
    case New(inc, qty) =>
      inc.side != INVALID
      && (Match(SideOf(b, Opposite(inc.side)), inc, qty).leaves > 0 ==> CanRest(AfterMatch(b, inc, qty), inc))
    case Cancel(_, _, _) => true
  }

  function Prices(s: seq<Order>): set<Price> {
    set o | o in s :: o.price
  }

  /** The guard under which the pools have a block for an order that comes to rest, and one
      for its level if no level stands in its slot of the price table.  A pool stops the
      process when its last block is taken, so it serves one object fewer than it has blocks. */
  predicate HasRoom(b: Book, r: Request) {
    match r
    case New(inc, qty) =>
      inc.side != INVALID && Match(SideOf(b, Opposite(inc.side)), inc, qty).leaves > 0 ==>
        RoomToRest(AfterMatch(b, inc, qty), inc.price)
    case Cancel(_, _, _) => true
  }

  predicate RoomToRest(b: Book, price: Price) {
    |AllOrders(b)| < ME_MAX_ORDER_IDS - 1 && RoomForLevel(b, price)
  }

  predicate RoomForLevel(b: Book, price: Price) {
    IndexTaken(AllOrders(b), price) || |Prices(AllOrders(b))| < ME_MAX_PRICE_LEVELS - 1
  }
}
