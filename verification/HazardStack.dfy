/** The lock-free stack whose nodes are reclaimed under hazard pointers.

    A popper publishes the node it is about to read in its own slot of a fixed table and
    looks at `head_` again; whoever unlinks a node reads the table, one slot at a time, and
    releases the node only if no slot names it.  Otherwise the node goes, inside a record,
    on a list that later poppers drain.  One step below is one atomic access, one
    dereference, one allocation or one release; addresses may be reused once released, and
    `fault` is raised by touching or releasing an address that is not allocated. */
module HazardStack {
  import opened Options
  import opened AtomicStack

  type Addr = nat
  type ChainId = nat

  const MAX_HAZARD_POINTERS: nat := 100

  /** Where a node stands in its life.  History information, read by no thread. */
  datatype Place =
    | Private(owner: Tid)   // allocated by a pusher, not yet published
    | Linked(depth: nat)    // on the stack, `depth` nodes below it
    | Owned(owner: Tid)     // unlinked, in the hands of the popper that unlinked it
    | Parked(rec: Addr)     // unlinked, waiting in a reclaim record

  datatype Node = Node(data: Option<Value>, next: Option<Addr>, place: Place)

  /** Where a reclaim record stands; history information. */
  datatype RecPlace =
    | InChain(chain: ChainId, index: nat)   // linked into the shared list or a drainer's share of it
    | Held(owner: Tid)                      // in the hands of one thread, its node still allocated
    | Husk(owner: Tid)                      // its node released, itself about to be

  /** data_to_reclaim */
  datatype Rec = Rec(data: Addr, next: Option<Addr>, place: RecPlace)

  /** A linked run of records, last first, and the drainer that took it; None for the shared list. */
  datatype Chain = Chain(owner: Option<Tid>, recs: seq<Addr>)

  /** hazard_pointer */
  datatype Slot = Slot(id: Option<Tid>, ptr: Option<Addr>)

  /** What a thread does after adding a record to the list. */
  datatype Cont = ThenDrain | Resume(cur: Option<Addr>, chain: ChainId)

  /** The control point of a thread, with its live locals. */
  datatype Thread =
    | PushStart(v: Value)
    | PushLoad(n: Addr)
    | PushCas(n: Addr)
    | Claim(i: nat)                                  // hp_owner(): trying slot i
    | PopStart
    | Publish(seen: Option<Addr>, kept: Option<Addr>)  // about to store `seen` in its slot, where `kept` stands validated
    | Revalidate(seen: Option<Addr>)                 // about to look at head_ again
    | Validated(p: Addr)                             // about to read p->next_
    | NextRead(p: Addr, next: Option<Addr>)
    | ClearWon(p: Addr)
    | ClearEmpty
    | Swap(p: Addr)
    | ScanOwn(p: Addr, i: nat, res: Option<Value>)   // reading slot i
    | FreeOwn(p: Addr, res: Option<Value>)
    | Retire(p: Addr, res: Option<Value>)
    | AddLink(r: Addr, res: Option<Value>, k: Cont)
    | AddCas(r: Addr, res: Option<Value>, k: Cont)
    | DrainStart(res: Option<Value>)
    | DrainNext(cur: Option<Addr>, chain: ChainId, res: Option<Value>)
    | ScanRec(r: Addr, p: Addr, i: nat, cur: Option<Addr>, chain: ChainId, res: Option<Value>)
    | FreeData(r: Addr, p: Addr, cur: Option<Addr>, chain: ChainId, res: Option<Value>)
    | FreeRec(r: Addr, cur: Option<Addr>, chain: ChainId, res: Option<Value>)
    | Returning(res: Option<Value>)
    | NoSlot                                         // throwing "No hazard pointers available"
    | ExitClear                                      // ~hp_owner()
    | ExitRelease

  /** `mine` is the thread-local hp_owner; `linked`, `chains` and `listed` are history. */
  datatype State = State(
    head: Option<Addr>,
    heap: map<Addr, Node>,
    slots: seq<Slot>,
    mine: map<Tid, nat>,
    recs: map<Addr, Rec>,
    list: Option<Addr>,
    threads: map<Tid, Thread>,
    fault: bool,
    linked: seq<Addr>,
    chains: map<ChainId, Chain>,
    listed: ChainId)

  /** A thread may begin an operation, end its life, or take its next step, in which an
      allocation returns any unused address and a weak compare-exchange may fail
      spuriously; `addr` also names the fresh chain a drain starts. */
  datatype Choice = BeginPush(v: Value) | BeginPop | Exit | Continue(addr: Addr, spurious: bool)

  ghost predicate Init(s: State) {
    && s.head == None && s.heap == map[] && s.linked == []
    && s.slots == seq(MAX_HAZARD_POINTERS, _ => Slot(None, None)) && s.mine == map[]
    && s.recs == map[] && s.list == None && s.chains == map[s.listed := Chain(None, [])]
    && s.threads == map[] && !s.fault
  }

  ghost predicate Enabled(s: State, t: Tid, c: Choice) {
    match c
    case BeginPush(_) => t !in s.threads
    case BeginPop => t !in s.threads
    case Exit => t !in s.threads && t in s.mine
    case Continue(a, _) =>
      && t in s.threads
      && (s.threads[t].PushStart? ==> a !in s.heap)
      && (s.threads[t].Retire? ==> a !in s.recs)
      && (s.threads[t].DrainStart? ==> a !in s.chains)
  }

  function At(s: State, t: Tid, th: Thread): State {
    s.(threads := s.threads[t := th])
  }

  function Fault(s: State): State {
    s.(fault := true)
  }

  ghost function Next(s: State, t: Tid, c: Choice): State
    requires Enabled(s, t, c)
  {
    match c
    case BeginPush(v) => At(s, t, PushStart(v))
    case BeginPop => At(s, t, if t in s.mine then PopStart else Claim(0))
    case Exit => At(s, t, ExitClear)
    case Continue(a, spurious) =>
      match s.threads[t]
      case PushStart(v) => Allocate(s, t, v, a)
      case PushLoad(n) => SetNext(s, t, n)
      case PushCas(n) => PushCommit(s, t, n, spurious)
      case Claim(i) => ClaimSlot(s, t, i)
      case PopStart => LoadHead(s, t)
      case Publish(seen, _) => WriteSlot(s, t, seen, Revalidate(seen))
      case Revalidate(seen) => Recheck(s, t, seen)
      case Validated(p) => ReadNext(s, t, p)
      case NextRead(p, next) => Unlink(s, t, p, next)
      case ClearWon(p) => WriteSlot(s, t, None, Swap(p))
      case ClearEmpty => WriteSlot(s, t, None, Returning(None))
      case Swap(p) => SwapData(s, t, p)
      case ScanOwn(p, i, res) => ScanForOwn(s, t, p, i, res)
      case FreeOwn(p, res) => ReleaseOwn(s, t, p, res)
      case Retire(p, res) => MakeRecord(s, t, p, a, res)
      case AddLink(r, res, k) => LinkRecord(s, t, r, res, k)
      case AddCas(r, res, k) => AddRecord(s, t, r, res, k, spurious)
      case DrainStart(res) => TakeList(s, t, a, res)
      case DrainNext(cur, chain, res) => NextRecord(s, t, cur, chain, res)
      case ScanRec(r, p, i, cur, chain, res) => ScanForRec(s, t, r, p, i, cur, chain, res)
      case FreeData(r, p, cur, chain, res) => ReleaseData(s, t, r, p, cur, chain, res)
      case FreeRec(r, cur, chain, res) => ReleaseRec(s, t, r, cur, chain, res)
      case Returning(_) => s.(threads := s.threads - {t})
      case NoSlot => s.(threads := s.threads - {t})
      case ExitClear => WriteSlot(s, t, None, ExitRelease)
      case ExitRelease => ReleaseSlot(s, t)
  }

  ghost function LoadHead(s: State, t: Tid): State {
    At(s, t, Publish(s.head, None))
  }

  ghost function Recheck(s: State, t: Tid, seen: Option<Addr>): State {
    At(s, t, if s.head != seen then Publish(s.head, None) else if seen.None? then ClearEmpty else Validated(seen.value))
  }

  /** One slot of a scan for a node the thread has unlinked itself. */
  ghost function ScanForOwn(s: State, t: Tid, p: Addr, i: nat, res: Option<Value>): State {
    At(s, t, if i >= |s.slots| then FreeOwn(p, res)
             else if s.slots[i].ptr == Some(p) then Retire(p, res) else ScanOwn(p, i + 1, res))
  }

  /** One slot of a scan for a node from the reclaim list. */
  ghost function ScanForRec(s: State, t: Tid, r: Addr, p: Addr, i: nat, cur: Option<Addr>, c: ChainId, res: Option<Value>): State {
    At(s, t, if i >= |s.slots| then FreeData(r, p, cur, c, res)
             else if s.slots[i].ptr == Some(p) then AddLink(r, res, Resume(cur, c))
             else ScanRec(r, p, i + 1, cur, c, res))
  }

  ghost function Allocate(s: State, t: Tid, v: Value, a: Addr): State {
    At(s.(heap := s.heap[a := Node(Some(v), None, Private(t))]), t, PushLoad(a))
  }

  ghost function ReadNext(s: State, t: Tid, p: Addr): State {
    if p in s.heap then At(s, t, NextRead(p, s.heap[p].next)) else Fault(s)
  }

  ghost function SwapData(s: State, t: Tid, p: Addr): State {
    if p !in s.heap then Fault(s)
    else At(s.(heap := s.heap[p := s.heap[p].(data := None)]), t, ScanOwn(p, 0, s.heap[p].data))
  }

  ghost function ReleaseOwn(s: State, t: Tid, p: Addr, res: Option<Value>): State {
    if p in s.heap then At(s.(heap := s.heap - {p}), t, DrainStart(res)) else Fault(s)
  }

  ghost function ReleaseRec(s: State, t: Tid, r: Addr, cur: Option<Addr>, c: ChainId, res: Option<Value>): State {
    if r in s.recs then At(s.(recs := s.recs - {r}), t, DrainNext(cur, c, res)) else Fault(s)
  }

  ghost function SetNext(s: State, t: Tid, n: Addr): State {
    if n !in s.heap then Fault(s) else
    At(s.(heap := s.heap[n := s.heap[n].(next := s.head)]), t, PushCas(n))
  }

  /** One round of the weak compare-exchange of `push`; a failure reloads next_. */
  ghost function PushCommit(s: State, t: Tid, n: Addr, spurious: bool): State {
    if n !in s.heap then Fault(s)
    else if s.head == s.heap[n].next && !spurious then
      var node := s.heap[n].(place := Linked(|s.linked|));
      At(s.(head := Some(n), heap := s.heap[n := node], linked := s.linked + [n]), t, Returning(None))
    else SetNext(s, t, n)
  }

  /** hp_owner(): compare-exchange the id of slot i from no thread to this one. */
  ghost function ClaimSlot(s: State, t: Tid, i: nat): State {
    if i >= |s.slots| then At(s, t, NoSlot)
    else if s.slots[i].id == None then
      At(s.(slots := s.slots[i := s.slots[i].(id := Some(t))], mine := s.mine[t := i]), t, PopStart)
    else At(s, t, Claim(i + 1))
  }

  ghost function WriteSlot(s: State, t: Tid, ptr: Option<Addr>, th: Thread): State {
    if t !in s.mine || s.mine[t] >= |s.slots| then Fault(s) else
    At(s.(slots := s.slots[s.mine[t] := s.slots[s.mine[t]].(ptr := ptr)]), t, th)
  }

  ghost function ReleaseSlot(s: State, t: Tid): State {
    if t !in s.mine || s.mine[t] >= |s.slots| then Fault(s) else
    s.(slots := s.slots[s.mine[t] := s.slots[s.mine[t]].(id := None)], mine := s.mine - {t}, threads := s.threads - {t})
  }

  /** head_.compare_exchange_strong(old_head, old_head->next_) */
  ghost function Unlink(s: State, t: Tid, p: Addr, next: Option<Addr>): State {
    if s.head != Some(p) then At(s, t, Publish(s.head, Some(p))) else
    var heap := if p in s.heap then s.heap[p := s.heap[p].(place := Owned(t))] else s.heap;
    var linked := if s.linked == [] then [] else s.linked[..|s.linked| - 1];
    At(s.(head := next, heap := heap, linked := linked), t, ClearWon(p))
  }

  /** new data_to_reclaim(data) */
  ghost function MakeRecord(s: State, t: Tid, p: Addr, a: Addr, res: Option<Value>): State {
    var heap := if p in s.heap then s.heap[p := s.heap[p].(place := Parked(a))] else s.heap;
    At(s.(heap := heap, recs := s.recs[a := Rec(p, None, Held(t))]), t, AddLink(a, res, ThenDrain))
  }

  /** node->next_ = nodes_to_reclaim.load() */
  ghost function LinkRecord(s: State, t: Tid, r: Addr, res: Option<Value>, k: Cont): State {
    if r !in s.recs then Fault(s) else
    At(s.(recs := s.recs[r := s.recs[r].(next := s.list)]), t, AddCas(r, res, k))
  }

  /** One round of the weak compare-exchange of add_to_reclaim_list. */
  ghost function AddRecord(s: State, t: Tid, r: Addr, res: Option<Value>, k: Cont, spurious: bool): State {
    if r !in s.recs then Fault(s)
    else if s.list == s.recs[r].next && !spurious then
      var q := if s.listed in s.chains then s.chains[s.listed].recs else [];
      var rec := s.recs[r].(place := InChain(s.listed, |q|));
      At(s.(list := Some(r), recs := s.recs[r := rec], chains := s.chains[s.listed := Chain(None, q + [r])]), t,
         match k case ThenDrain => DrainStart(res) case Resume(cur, chain) => DrainNext(cur, chain, res))
    else LinkRecord(s, t, r, res, k)
  }

  /** nodes_to_reclaim.exchange(nullptr) */
  ghost function TakeList(s: State, t: Tid, fresh': ChainId, res: Option<Value>): State {
    var q := if s.listed in s.chains then s.chains[s.listed].recs else [];
    At(s.(list := None, listed := fresh', chains := s.chains[s.listed := Chain(Some(t), q)][fresh' := Chain(None, [])]),
       t, DrainNext(s.list, s.listed, res))
  }

  /** The head of the draining loop: read current->next_ and current->data_, or stop. */
  ghost function NextRecord(s: State, t: Tid, cur: Option<Addr>, chain: ChainId, res: Option<Value>): State {
    match cur
    case None => At(s.(chains := s.chains - {chain}), t, Returning(res))
    case Some(r) =>
      if r !in s.recs then Fault(s) else
      var q := if chain in s.chains then s.chains[chain].recs else [];
      var rest := if q == [] then [] else q[..|q| - 1];
      At(s.(recs := s.recs[r := s.recs[r].(place := Held(t))], chains := s.chains[chain := Chain(Some(t), rest)]), t,
         ScanRec(r, s.recs[r].data, 0, s.recs[r].next, chain, res))
  }

  /** The deleter of the record: the node goes, the record is about to. */
  ghost function ReleaseData(s: State, t: Tid, r: Addr, p: Addr, cur: Option<Addr>, chain: ChainId, res: Option<Value>): State {
    if p !in s.heap || r !in s.recs then Fault(s) else
    At(s.(heap := s.heap - {p}, recs := s.recs[r := s.recs[r].(place := Husk(t))]), t, FreeRec(r, cur, chain, res))
  }

  // ---------------------------------------------------------------------------------------
  // The invariant
  // ---------------------------------------------------------------------------------------

  /** The node this thread has published and revalidated as head, until it writes its slot again. */
  function Guards(th: Thread): Option<Addr> {
    match th
    case Validated(p) => Some(p)
    case NextRead(p, _) => Some(p)
    case Publish(_, kept) => kept
    case ClearWon(p) => Some(p)
    case _ => None
  }

  /** The node a scan is about, and how many slots it has passed without meeting it. */
  function Scans(th: Thread): Option<(Addr, nat)> {
    match th
    case ScanOwn(p, i, _) => Some((p, i))
    case FreeOwn(p, _) => Some((p, MAX_HAZARD_POINTERS))
    case ScanRec(_, p, i, _, _, _) => Some((p, i))
    case FreeData(_, p, _, _, _) => Some((p, MAX_HAZARD_POINTERS))
    case _ => None
  }

  function PrivateOf(th: Thread): Option<Addr> {
    match th
    case PushLoad(n) => Some(n)
    case PushCas(n) => Some(n)
    case _ => None
  }

  function OwnedOf(th: Thread): Option<Addr> {
    match th
    case ClearWon(p) => Some(p)
    case Swap(p) => Some(p)
    case ScanOwn(p, _, _) => Some(p)
    case FreeOwn(p, _) => Some(p)
    case Retire(p, _) => Some(p)
    case _ => None
  }

  function HeldOf(th: Thread): Option<Addr> {
    match th
    case AddLink(r, _, _) => Some(r)
    case AddCas(r, _, _) => Some(r)
    case ScanRec(r, _, _, _, _, _) => Some(r)
    case FreeData(r, _, _, _, _) => Some(r)
    case _ => None
  }

  function HuskOf(th: Thread): Option<Addr> {
    if th.FreeRec? then Some(th.r) else None
  }

  /** The share of the reclaim list a drainer still has to go through. */
  function DrainOf(th: Thread): Option<(ChainId, Option<Addr>)> {
    match th
    case DrainNext(cur, c, _) => Some((c, cur))
    case ScanRec(_, _, _, cur, c, _) => Some((c, cur))
    case FreeData(_, _, cur, c, _) => Some((c, cur))
    case FreeRec(_, cur, c, _) => Some((c, cur))
    case AddLink(_, _, Resume(cur, c)) => Some((c, cur))
    case AddCas(_, _, Resume(cur, c)) => Some((c, cur))
    case _ => None
  }

  /** The thread is at a point where its hp_owner exists. */
  predicate HasSlot(th: Thread) {
    th.PopStart? || th.Publish? || th.Revalidate? || th.Validated? || th.NextRead? || th.ClearWon? || th.ClearEmpty?
    || th.ExitClear? || th.ExitRelease?
  }

  function Top(q: seq<Addr>): Option<Addr> {
    if q == [] then None else Some(q[|q| - 1])
  }

  function Below(q: seq<Addr>, i: nat): Option<Addr>
    requires i < |q|
  {
    if i == 0 then None else Some(q[i - 1])
  }

  ghost predicate SlotsOk(s: State) {
    && |s.slots| == MAX_HAZARD_POINTERS
    && (forall t :: t in s.mine ==> s.mine[t] < |s.slots| && s.slots[s.mine[t]].id == Some(t))
  }

  /** head_ and the next_ links run through exactly the nodes of `linked`, top to bottom. */
  ghost predicate LinkedOk(s: State) {
    && s.head == Top(s.linked)
    && (forall i :: 0 <= i < |s.linked| ==>
          s.linked[i] in s.heap && s.heap[s.linked[i]].place == Linked(i) && s.heap[s.linked[i]].next == Below(s.linked, i))
  }

  ghost predicate NodeOk(s: State, a: Addr)
    requires a in s.heap
  {
    var node := s.heap[a];
    match node.place
    case Private(t) => node.data.Some? && t in s.threads && PrivateOf(s.threads[t]) == Some(a)
    case Linked(i) => node.data.Some? && i < |s.linked| && s.linked[i] == a
    case Owned(t) => t in s.threads && OwnedOf(s.threads[t]) == Some(a)
    case Parked(r) => r in s.recs && s.recs[r].data == a && !s.recs[r].place.Husk?
  }

  ghost predicate RecPlaceOk(s: State, r: Addr, place: RecPlace) {
    match place
    case InChain(c, i) => c in s.chains && i < |s.chains[c].recs| && s.chains[c].recs[i] == r
    case Held(t) => t in s.threads && HeldOf(s.threads[t]) == Some(r)
    case Husk(t) => t in s.threads && HuskOf(s.threads[t]) == Some(r)
  }

  ghost predicate RecOk(s: State, r: Addr)
    requires r in s.recs
  {
    var rec := s.recs[r];
    && RecPlaceOk(s, r, rec.place)
    && (!rec.place.Husk? ==> rec.data in s.heap && s.heap[rec.data].place == Parked(r))
  }

  /** The records of a chain are linked by next_ from the last to the first. */
  ghost predicate ChainOk(s: State, c: ChainId)
    requires c in s.chains
  {
    var q := s.chains[c].recs;
    && (forall i :: 0 <= i < |q| ==>
          q[i] in s.recs && s.recs[q[i]].place == InChain(c, i) && s.recs[q[i]].next == Below(q, i))
    && (s.chains[c].owner.None? ==> c == s.listed)
    && (s.chains[c].owner.Some? ==> Drains(s, s.chains[c].owner.value, c))
  }

  ghost predicate Drains(s: State, t: Tid, c: ChainId) {
    t in s.threads && DrainOf(s.threads[t]).Some? && DrainOf(s.threads[t]).value.0 == c
  }

  ghost predicate ListOk(s: State) {
    s.listed in s.chains && s.chains[s.listed].owner.None? && s.list == Top(s.chains[s.listed].recs)
  }

  ghost predicate ThreadOk(s: State, t: Tid)
    requires t in s.threads
  {
    OwnsOk(s, t, s.threads[t]) && RecordsOk(s, t, s.threads[t]) && TableOk(s, t, s.threads[t])
  }

  /** The nodes thread `t` owns are its own. */
  ghost predicate OwnsOk(s: State, t: Tid, th: Thread) {
    && (PrivateOf(th).Some? ==> PrivateOf(th).value in s.heap && s.heap[PrivateOf(th).value].place == Private(t))
    && (OwnedOf(th).Some? ==> OwnedOf(th).value in s.heap && s.heap[OwnedOf(th).value].place == Owned(t))
    && ((th.ClearWon? || th.Swap?) && th.p in s.heap ==> s.heap[th.p].data.Some?)
  }

  /** The records thread `t` holds, and the chain it drains, are its own. */
  ghost predicate RecordsOk(s: State, t: Tid, th: Thread) {
    && (HeldOf(th).Some? ==> HeldOf(th).value in s.recs && s.recs[HeldOf(th).value].place == Held(t))
    && (HuskOf(th).Some? ==> HuskOf(th).value in s.recs && s.recs[HuskOf(th).value].place == Husk(t))
    && ((th.ScanRec? || th.FreeData?) && th.r in s.recs ==> s.recs[th.r].data == th.p)
    && ShareOk(s, t, DrainOf(th))
  }

  /** A share that thread `t` drains is its own, and the record it is at is the top one. */
  ghost predicate ShareOk(s: State, t: Tid, share: Option<(ChainId, Option<Addr>)>) {
    share.Some? ==>
      var (c, cur) := share.value;
      c in s.chains && s.chains[c].owner == Some(t) && cur == Top(s.chains[c].recs)
  }

  /** Thread `t` has its slot where it needs one, and its guard stands there. */
  ghost predicate TableOk(s: State, t: Tid, th: Thread) {
    && (HasSlot(th) ==> t in s.mine)
    && (th.Claim? ==> t !in s.mine)
    && (th.Revalidate? && t in s.mine && s.mine[t] < |s.slots| ==> s.slots[s.mine[t]].ptr == th.seen)
    && (Guards(th).Some? ==> GuardOk(s, t, Guards(th).value))
    && (th.NextRead? && th.p in s.heap ==> th.next == s.heap[th.p].next)
  }

  /** A guarded node is allocated and published, and its guard stands in the table. */
  ghost predicate GuardOk(s: State, t: Tid, p: Addr) {
    && p in s.heap && !s.heap[p].place.Private?
    && t in s.mine && s.mine[t] < |s.slots| && s.slots[s.mine[t]].ptr == Some(p)
  }

  /** The law of the scan: a thread guarding the scanned node has its slot still ahead. */
  ghost predicate ScanOk(s: State, scanner: Tid, guard: Tid) {
    scanner in s.threads && guard in s.threads && guard in s.mine
    && Scans(s.threads[scanner]).Some? && Guards(s.threads[guard]) == Some(Scans(s.threads[scanner]).value.0)
    ==> Scans(s.threads[scanner]).value.1 <= s.mine[guard]
  }

  ghost predicate Inv(s: State) {
    && !s.fault && SlotsOk(s) && LinkedOk(s) && ListOk(s)
    && (forall a :: a in s.heap ==> NodeOk(s, a))
    && (forall r :: r in s.recs ==> RecOk(s, r))
    && (forall c :: c in s.chains ==> ChainOk(s, c))
    && (forall t :: t in s.threads ==> ThreadOk(s, t))
    && (forall t, u :: ScanOk(s, t, u))
  }

  // ---------------------------------------------------------------------------------------
  // The frame of a step
  // ---------------------------------------------------------------------------------------

  function OwnerOf(place: Place): Option<Tid> {
    match place
    case Private(t) => Some(t)
    case Owned(t) => Some(t)
    case _ => None
  }

  function RecOwnerOf(place: RecPlace): Option<Tid> {
    match place
    case Held(t) => Some(t)
    case Husk(t) => Some(t)
    case _ => None
  }

  /** Thread `t` moved; only node `a`, record `r` and the chains in `cs` can have changed,
      and of the table only what belongs to `t` or to nobody. */
  ghost predicate StepAt(s: State, s': State, t: Tid, a: Option<Addr>, r: Option<Addr>, cs: set<ChainId>) {
    && !s'.fault
    && t in s'.threads && s'.threads == s.threads[t := s'.threads[t]]
    && (forall b :: Some(b) != a ==> (b in s.heap <==> b in s'.heap))
    && (forall b :: Some(b) != a && b in s.heap ==> s'.heap[b] == s.heap[b] && OwnerOf(s.heap[b].place) != Some(t))
    && (forall q :: Some(q) != r ==> (q in s.recs <==> q in s'.recs))
    && (forall q :: Some(q) != r && q in s.recs ==> s'.recs[q] == s.recs[q] && RecOwnerOf(s.recs[q].place) != Some(t))
    && (forall c :: c !in cs ==> (c in s.chains <==> c in s'.chains))
    && (forall c :: c !in cs && c in s.chains ==>
          s'.chains[c] == s.chains[c] && s.chains[c].owner != Some(t) && (c == s.listed <==> c == s'.listed))
    && |s'.slots| == |s.slots|
    && (forall u :: u != t ==> (u in s.mine <==> u in s'.mine))
    && (forall u :: u != t && u in s.mine && s.mine[u] < |s.slots| ==>
          s'.mine[u] == s.mine[u] && s'.slots[s.mine[u]] == s.slots[s.mine[u]])
  }

  ghost predicate Guarded(s: State, t: Tid, a: Addr) {
    t in s.threads && Guards(s.threads[t]) == Some(a)
  }

  /** What others rely on at node `a`: no owner but `t` loses it; only its own record `r`
      releases a parked node; and a guarded node stays, published, with its link. */
  ghost predicate NodeRespected(s: State, s': State, t: Tid, n: Option<Addr>, r: Option<Addr>) {
    n.Some? && n.value in s.heap ==>
      var a := n.value;
      && ((a in s'.heap && s'.heap[a].place == s.heap[a].place)
          || OwnerOf(s.heap[a].place) == Some(t) || s.heap[a].place.Linked?
          || (s.heap[a].place.Parked? && Some(s.heap[a].place.rec) == r))
      && ((a in s'.heap && s'.heap[a].next == s.heap[a].next) || forall u :: u != t ==> !Guarded(s, u, a))
      && (a in s'.heap && s'.heap[a].place.Private? ==> s.heap[a].place.Private?)
      && (a in s'.heap && s.heap[a].data.Some? && OwnerOf(s.heap[a].place) != Some(t) ==> s'.heap[a].data.Some?)
  }

  /** What others rely on at record `r`: it is in a changed chain, or `t` holds it; and its
      node, unless it is `a`, keeps its record. */
  ghost predicate RecRespected(s: State, s': State, t: Tid, a: Option<Addr>, q: Option<Addr>, cs: set<ChainId>) {
    q.Some? && q.value in s.recs ==>
      var r := q.value;
      && (match s.recs[r].place case InChain(c, _) => c in cs case Held(u) => u == t case Husk(u) => u == t)
      && (Some(s.recs[r].data) == a || s.recs[r].place.Husk?
          || (r in s'.recs && s'.recs[r].data == s.recs[r].data && !s'.recs[r].place.Husk?))
  }

  /** A changed chain belonged to the list or to `t`, and keeps every record but `r` in place. */
  ghost predicate ChainsRespected(s: State, s': State, t: Tid, r: Option<Addr>, cs: set<ChainId>) {
    forall c :: c in cs && c in s.chains ==>
      && (s.chains[c].owner.None? || s.chains[c].owner == Some(t))
      && forall i :: 0 <= i < |s.chains[c].recs| && Some(s.chains[c].recs[i]) != r ==>
           c in s'.chains && i < |s'.chains[c].recs| && s'.chains[c].recs[i] == s.chains[c].recs[i]
  }

  ghost predicate LinkedRespected(s: State, s': State, a: Option<Addr>) {
    forall i :: 0 <= i < |s.linked| && Some(s.linked[i]) != a ==> i < |s'.linked| && s'.linked[i] == s.linked[i]
  }

  lemma KeepNodes(s: State, s': State, t: Tid, a: Option<Addr>, r: Option<Addr>, cs: set<ChainId>)
    requires Inv(s) && StepAt(s, s', t, a, r, cs) && RecRespected(s, s', t, a, r, cs) && LinkedRespected(s, s', a)
    ensures forall b :: b in s'.heap && Some(b) != a ==> NodeOk(s', b)
  {
    hide Below, ThreadOk, ChainOk, LinkedOk, ListOk, SlotsOk, ScanOk, RecOk;
    forall b | b in s'.heap && Some(b) != a ensures NodeOk(s', b) {
      assert NodeOk(s, b);
    }
  }

  lemma KeepRecs(s: State, s': State, t: Tid, a: Option<Addr>, r: Option<Addr>, cs: set<ChainId>)
    requires Inv(s) && StepAt(s, s', t, a, r, cs) && NodeRespected(s, s', t, a, r) && ChainsRespected(s, s', t, r, cs)
    ensures forall q :: q in s'.recs && Some(q) != r ==> RecOk(s', q)
  {
    hide Below, ThreadOk, ChainOk, LinkedOk, ListOk, SlotsOk, ScanOk, NodeOk, RecPlaceOk, NodeRespected, ChainsRespected;
    forall q | q in s'.recs && Some(q) != r ensures RecOk(s', q) {
      assert RecOk(s, q);
      KeepRecPlace(s, s', t, a, r, cs, q);
      if !s.recs[q].place.Husk? { KeepRecData(s, s', t, a, r, cs, q); }
    }
  }

  lemma KeepRecPlace(s: State, s': State, t: Tid, a: Option<Addr>, r: Option<Addr>, cs: set<ChainId>, q: Addr)
    requires StepAt(s, s', t, a, r, cs) && ChainsRespected(s, s', t, r, cs)
    requires q in s.recs && Some(q) != r && RecPlaceOk(s, q, s.recs[q].place)
    ensures q in s'.recs && s'.recs[q] == s.recs[q] && RecPlaceOk(s', q, s'.recs[q].place)
  {
    hide HeldOf, HuskOf;
  }

  lemma KeepRecData(s: State, s': State, t: Tid, a: Option<Addr>, r: Option<Addr>, cs: set<ChainId>, q: Addr)
    requires StepAt(s, s', t, a, r, cs) && NodeRespected(s, s', t, a, r)
    requires Some(q) != r && q in s.recs && s.recs[q].data in s.heap && s.heap[s.recs[q].data].place == Parked(q)
    ensures s.recs[q].data in s'.heap && s'.heap[s.recs[q].data].place == Parked(q)
  {
    hide Guarded;
  }

  lemma KeepChains(s: State, s': State, t: Tid, a: Option<Addr>, r: Option<Addr>, cs: set<ChainId>)
    requires Inv(s) && StepAt(s, s', t, a, r, cs) && RecRespected(s, s', t, a, r, cs)
    ensures forall c :: c in s'.chains && c !in cs ==> ChainOk(s', c)
  {
    hide Below, ThreadOk, LinkedOk, ListOk, SlotsOk, ScanOk, NodeOk, RecOk;
    forall c | c in s'.chains && c !in cs ensures ChainOk(s', c) {
      assert ChainOk(s, c);
    }
  }

  lemma KeepOwns(s: State, s': State, t: Tid, a: Option<Addr>, r: Option<Addr>, cs: set<ChainId>, u: Tid, th: Thread)
    requires StepAt(s, s', t, a, r, cs) && NodeRespected(s, s', t, a, r) && u != t && OwnsOk(s, u, th)
    ensures OwnsOk(s', u, th)
  {
    hide StepAt, NodeRespected, Below;
    if PrivateOf(th).Some? { KeepNodeOf(s, s', t, a, r, cs, u, PrivateOf(th).value); }
    if OwnedOf(th).Some? { KeepNodeOf(s, s', t, a, r, cs, u, OwnedOf(th).value); }
  }

  lemma KeepNodeOf(s: State, s': State, t: Tid, a: Option<Addr>, r: Option<Addr>, cs: set<ChainId>, u: Tid, b: Addr)
    requires StepAt(s, s', t, a, r, cs) && NodeRespected(s, s', t, a, r)
    requires u != t && b in s.heap && OwnerOf(s.heap[b].place) == Some(u)
    ensures b in s'.heap && s'.heap[b].place == s.heap[b].place && (s.heap[b].data.Some? ==> s'.heap[b].data.Some?)
  {
    hide Guarded;
  }

  lemma KeepShare(s: State, s': State, t: Tid, a: Option<Addr>, r: Option<Addr>, cs: set<ChainId>, u: Tid, share: Option<(ChainId, Option<Addr>)>)
    requires StepAt(s, s', t, a, r, cs) && ChainsRespected(s, s', t, r, cs) && u != t && ShareOk(s, u, share)
    ensures ShareOk(s', u, share)
  {
    hide Top, Below;
  }

  lemma KeepRecords(s: State, s': State, t: Tid, a: Option<Addr>, r: Option<Addr>, cs: set<ChainId>, u: Tid, th: Thread)
    requires StepAt(s, s', t, a, r, cs) && RecRespected(s, s', t, a, r, cs) && ChainsRespected(s, s', t, r, cs)
    requires u != t && RecordsOk(s, u, th)
    ensures RecordsOk(s', u, th)
  {
    hide StepAt, RecRespected, ChainsRespected, ShareOk, DrainOf, Top, Below;
    KeepShare(s, s', t, a, r, cs, u, DrainOf(th));
    if HeldOf(th).Some? { KeepRecordOf(s, s', t, a, r, cs, u, HeldOf(th).value); }
    if HuskOf(th).Some? { KeepRecordOf(s, s', t, a, r, cs, u, HuskOf(th).value); }
  }

  lemma KeepRecordOf(s: State, s': State, t: Tid, a: Option<Addr>, r: Option<Addr>, cs: set<ChainId>, u: Tid, q: Addr)
    requires StepAt(s, s', t, a, r, cs) && RecRespected(s, s', t, a, r, cs)
    requires u != t && q in s.recs && RecOwnerOf(s.recs[q].place) == Some(u)
    ensures q in s'.recs && s'.recs[q] == s.recs[q]
  {
  }

  lemma KeepTable(s: State, s': State, t: Tid, a: Option<Addr>, r: Option<Addr>, cs: set<ChainId>, u: Tid)
    requires StepAt(s, s', t, a, r, cs) && NodeRespected(s, s', t, a, r) && SlotsOk(s)
    requires u in s.threads && u != t && TableOk(s, u, s.threads[u])
    ensures TableOk(s', u, s.threads[u])
  {
    assert a.Some? && Guards(s.threads[u]) == a ==> Guarded(s, u, a.value);
  }

  lemma KeepThreads(s: State, s': State, t: Tid, a: Option<Addr>, r: Option<Addr>, cs: set<ChainId>)
    requires Inv(s) && StepAt(s, s', t, a, r, cs)
    requires NodeRespected(s, s', t, a, r) && RecRespected(s, s', t, a, r, cs) && ChainsRespected(s, s', t, r, cs)
    ensures forall u :: u in s'.threads && u != t ==> ThreadOk(s', u)
  {
    hide Below, ChainOk, LinkedOk, ListOk, ScanOk, NodeOk, RecOk, NodeRespected, RecRespected, ChainsRespected;
    hide OwnsOk, RecordsOk, TableOk, SlotsOk;
    forall u | u in s'.threads && u != t ensures ThreadOk(s', u) {
      assert ThreadOk(s, u);
      KeepOwns(s, s', t, a, r, cs, u, s.threads[u]);
      KeepRecords(s, s', t, a, r, cs, u, s.threads[u]);
      KeepTable(s, s', t, a, r, cs, u);
    }
  }

  ghost predicate ScansOk(s: State, t: Tid) {
    forall u :: ScanOk(s, t, u) && ScanOk(s, u, t)
  }

  lemma KeepScans(s: State, s': State, t: Tid, a: Option<Addr>, r: Option<Addr>, cs: set<ChainId>)
    requires Inv(s) && StepAt(s, s', t, a, r, cs) && ScansOk(s', t)
    ensures forall u, v :: ScanOk(s', u, v)
  {
    hide Below, ChainOk, LinkedOk, ListOk, NodeOk, RecOk, ThreadOk;
    forall u, v | u != t && v != t ensures ScanOk(s', u, v) {
      assert ScanOk(s, u, v);
    }
  }

  /** No step of `t` releases or relinks a node that another thread guards. */
  ghost predicate GuardsKept(s: State, s': State, t: Tid) {
    forall u, p :: u != t && Guarded(s, u, p) ==> p in s.heap && p in s'.heap && s'.heap[p].next == s.heap[p].next
  }

  lemma SameHeapGuards(s: State, s': State, t: Tid)
    requires Inv(s) && s'.heap == s.heap
    ensures GuardsKept(s, s', t)
  {
    hide NodeOk, RecOk, ChainOk, SlotsOk, ListOk, LinkedOk, ScanOk, OwnsOk, RecordsOk, Below;
    forall u, p | u != t && Guarded(s, u, p) ensures p in s.heap { assert ThreadOk(s, u); }
  }

  lemma FrameGuards(s: State, s': State, t: Tid, a: Option<Addr>, r: Option<Addr>, cs: set<ChainId>)
    requires Inv(s) && StepAt(s, s', t, a, r, cs) && NodeRespected(s, s', t, a, r)
    ensures GuardsKept(s, s', t)
  {
    hide NodeOk, RecOk, ChainOk, SlotsOk, ListOk, LinkedOk, ScanOk, OwnsOk, RecordsOk, Below;
    forall u, p | u != t && Guarded(s, u, p)
      ensures p in s.heap && p in s'.heap && s'.heap[p].next == s.heap[p].next
    {
      assert ThreadOk(s, u);
    }
  }

  /** The frame of every step: what remains to show is local to `a`, `r`, `cs` and `t`. */
  lemma KeepFrame(s: State, s': State, t: Tid, a: Option<Addr>, r: Option<Addr>, cs: set<ChainId>)
    requires Inv(s) && StepAt(s, s', t, a, r, cs)
    requires NodeRespected(s, s', t, a, r) && RecRespected(s, s', t, a, r, cs) && ChainsRespected(s, s', t, r, cs)
    requires LinkedRespected(s, s', a) && SlotsOk(s') && LinkedOk(s') && ListOk(s')
    requires a.Some? && a.value in s'.heap ==> NodeOk(s', a.value)
    requires r.Some? && r.value in s'.recs ==> RecOk(s', r.value)
    requires forall c :: c in cs && c in s'.chains ==> ChainOk(s', c)
    requires ThreadOk(s', t) && ScansOk(s', t)
    ensures Inv(s') && GuardsKept(s, s', t)
  {
    hide GuardsKept;
    hide Below, ChainOk, LinkedOk, ListOk, SlotsOk, ScanOk, NodeOk, RecOk, ThreadOk;
    hide NodeRespected, RecRespected, ChainsRespected, LinkedRespected;
    KeepNodes(s, s', t, a, r, cs);
    KeepRecs(s, s', t, a, r, cs);
    KeepChains(s, s', t, a, r, cs);
    KeepThreads(s, s', t, a, r, cs);
    KeepScans(s, s', t, a, r, cs);
    FrameGuards(s, s', t, a, r, cs);
  }

  // ---------------------------------------------------------------------------------------
  // Preservation, one lemma for each kind of step
  // ---------------------------------------------------------------------------------------

  /** Where thread `t` stands; a thread outside every operation claims nothing. */
  function ThreadAt(s: State, t: Tid): Thread {
    if t in s.threads then s.threads[t] else NoSlot
  }

  predicate SameClaims(th: Thread, th': Thread) {
    && PrivateOf(th) == PrivateOf(th') && OwnedOf(th) == OwnedOf(th')
    && HeldOf(th) == HeldOf(th') && HuskOf(th) == HuskOf(th')
    && DrainOf(th) == DrainOf(th')
  }

  /** A thread that guards nothing, and scans nothing or has read no slot yet, is within
      the law of the scan. */
  lemma NoScans(s: State, t: Tid)
    requires t in s.threads && Guards(s.threads[t]) == None
    requires Scans(s.threads[t]).Some? ==> Scans(s.threads[t]).value.1 == 0
    ensures ScansOk(s, t)
  {
  }

  lemma NoTable(s: State, t: Tid, th: Thread)
    requires !HasSlot(th) && !th.Claim?
    ensures TableOk(s, t, th)
  {
  }

  /** The parts of the invariant that concern thread `t`, node `a`, record `r`, chain `c`. */
  lemma InvAt(s: State, t: Tid, a: Addr, r: Addr, c: ChainId)
    requires Inv(s)
    ensures !s.fault && SlotsOk(s) && LinkedOk(s) && ListOk(s)
    ensures t in s.threads ==> ThreadOk(s, t)
    ensures a in s.heap ==> NodeOk(s, a)
    ensures r in s.recs ==> RecOk(s, r)
    ensures c in s.chains ==> ChainOk(s, c)
  {
  }

  /** A step that moves thread `t` without changing what it claims or anything shared. */
  lemma KeepMove(s: State, t: Tid, th: Thread)
    requires Inv(s) && SameClaims(ThreadAt(s, t), th)
    requires ThreadOk(At(s, t, th), t) && ScansOk(At(s, t, th), t)
    ensures Inv(At(s, t, th)) && GuardsKept(s, At(s, t, th), t)
  {
    hide GuardsKept, NodeOk, RecOk, ChainOk, ThreadOk, ScanOk, ScansOk, Below;
    var s' := At(s, t, th);
    MoveNodes(s, t, th);
    MoveThreads(s, t, th);
    MoveScans(s, t, th);
    assert LinkedOk(s') && ListOk(s') && SlotsOk(s');
    SameHeapGuards(s, s', t);
  }

  lemma MoveScans(s: State, t: Tid, th: Thread)
    requires Inv(s) && ScansOk(At(s, t, th), t)
    ensures forall u, v :: ScanOk(At(s, t, th), u, v)
  {
    hide Below, NodeOk, RecOk, ChainOk, ThreadOk, SlotsOk, ListOk, LinkedOk, Guards, Scans;
    var s' := At(s, t, th);
    forall u, v ensures ScanOk(s', u, v) {
      assert ScanOk(s, u, v);
      if u == t { assert ScanOk(s', t, v); } else if v == t { assert ScanOk(s', u, t); }
    }
  }

  lemma MoveNodes(s: State, t: Tid, th: Thread)
    requires Inv(s) && SameClaims(ThreadAt(s, t), th)
    ensures var s' := At(s, t, th);
      && (forall a :: a in s'.heap ==> NodeOk(s', a))
      && (forall r :: r in s'.recs ==> RecOk(s', r))
      && (forall c :: c in s'.chains ==> ChainOk(s', c))
  {
    hide Below, ThreadOk, SlotsOk, ListOk, LinkedOk, ScanOk;
    var s' := At(s, t, th);
    forall a | a in s'.heap ensures NodeOk(s', a) { hide Below, RecOk, ChainOk; assert NodeOk(s, a); }
    forall r | r in s'.recs ensures RecOk(s', r) { hide Below, NodeOk, ChainOk; assert RecOk(s, r); }
    forall c | c in s'.chains ensures ChainOk(s', c) { hide Below, NodeOk, RecOk; assert ChainOk(s, c); }
  }

  lemma MoveThreads(s: State, t: Tid, th: Thread)
    requires Inv(s)
    ensures forall u :: u in s.threads && u != t ==> ThreadOk(At(s, t, th), u)
  {
    hide Below, NodeOk, RecOk, ChainOk, SlotsOk, ListOk, LinkedOk, ScanOk;
    var s' := At(s, t, th);
    forall u | u in s.threads && u != t ensures ThreadOk(s', u) { assert ThreadOk(s, u); }
  }

  /** Steps of a popper before it wins, none of which writes anything shared. */
  lemma KeepLoadHead(s: State, t: Tid)
    requires Inv(s) && t in s.threads && s.threads[t].PopStart?
    ensures Inv(LoadHead(s, t)) && GuardsKept(s, LoadHead(s, t), t)
  {
    hide GuardsKept, Below, Inv, NodeOk, RecOk, ChainOk, ScanOk, ListOk, LinkedOk, SlotsOk;
    InvAt(s, t, 0, 0, 0);
    NoScans(LoadHead(s, t), t);
    KeepMove(s, t, Publish(s.head, None));
  }

  lemma KeepRecheck(s: State, t: Tid, seen: Option<Addr>)
    requires Inv(s) && t in s.threads && s.threads[t] == Revalidate(seen)
    ensures Inv(Recheck(s, t, seen)) && GuardsKept(s, Recheck(s, t, seen), t)
  {
    hide GuardsKept, Below, Inv, NodeOk, RecOk, ChainOk, ScanOk, ListOk, LinkedOk;
    var s' := Recheck(s, t, seen);
    InvAt(s, t, 0, 0, 0);
    if s.head == seen && seen.Some? {
      GuardNew(s, t, seen.value);
    } else {
      NoScans(s', t);
    }
    KeepMove(s, t, s'.threads[t]);
  }

  /** A node just seen to be the head is being scanned by nobody. */
  lemma GuardNew(s: State, t: Tid, p: Addr)
    requires Inv(s) && s.head == Some(p) && t in s.threads
    ensures ScansOk(At(s, t, Validated(p)), t)
    ensures p in s.heap && s.heap[p].place.Linked?
  {
    hide Below, NodeOk, RecOk, ChainOk, SlotsOk, ListOk;
    assert s.linked[|s.linked| - 1] == p;
    forall u | u in s.threads && Scans(s.threads[u]).Some? ensures Scans(s.threads[u]).value.0 != p {
      assert ThreadOk(s, u);
      ScannedPlace(s, u);
    }
  }

  /** A scanned node is unlinked: its scanner owns it, or holds its record. */
  lemma ScannedPlace(s: State, u: Tid)
    requires Inv(s) && u in s.threads && Scans(s.threads[u]).Some?
    ensures var p := Scans(s.threads[u]).value.0;
      p in s.heap && (s.heap[p].place == Owned(u) || (s.heap[p].place.Parked? && HeldOf(s.threads[u]) == Some(s.heap[p].place.rec)))
  {
    hide Below, NodeOk, ChainOk, SlotsOk, ListOk, LinkedOk, ScanOk, TableOk;
    assert ThreadOk(s, u);
    var th := s.threads[u];
    if th.ScanRec? || th.FreeData? { assert RecOk(s, th.r); }
  }

  lemma KeepReadNext(s: State, t: Tid, p: Addr)
    requires Inv(s) && t in s.threads && s.threads[t] == Validated(p)
    ensures Inv(ReadNext(s, t, p)) && GuardsKept(s, ReadNext(s, t, p), t)
  {
    hide GuardsKept;
    hide Below, Inv, NodeOk, RecOk, ChainOk, SlotsOk, ListOk, LinkedOk;
    InvAt(s, t, p, 0, 0);
    var s' := ReadNext(s, t, p);
    forall u ensures ScanOk(s', u, t) && ScanOk(s', t, u) { ScanAt(s, u, t); }
    KeepMove(s, t, s'.threads[t]);
  }

  lemma ScanAt(s: State, u: Tid, t: Tid)
    requires Inv(s)
    ensures ScanOk(s, u, t)
  {
  }

  /** One slot read: a thread guarding the node has a slot that was not reached yet, and
      not this one, for this one does not name the node. */
  lemma KeepScanForOwn(s: State, t: Tid, p: Addr, i: nat, res: Option<Value>)
    requires Inv(s) && t in s.threads && s.threads[t] == ScanOwn(p, i, res)
    ensures Inv(ScanForOwn(s, t, p, i, res)) && GuardsKept(s, ScanForOwn(s, t, p, i, res), t)
  {
    hide Inv, NodeOk, RecOk, ChainOk, ListOk, LinkedOk, GuardsKept, SlotsOk, ScanOk, TableOk;
    var th' := ScanForOwn(s, t, p, i, res).threads[t];
    InvAt(s, t, 0, 0, 0);
    ScanSteps(s, t, th');
    NoTable(At(s, t, th'), t, th');
    KeepMove(s, t, th');
  }

  lemma KeepScanForRec(s: State, t: Tid, r: Addr, p: Addr, i: nat, cur: Option<Addr>, c: ChainId, res: Option<Value>)
    requires Inv(s) && t in s.threads && s.threads[t] == ScanRec(r, p, i, cur, c, res)
    ensures Inv(ScanForRec(s, t, r, p, i, cur, c, res)) && GuardsKept(s, ScanForRec(s, t, r, p, i, cur, c, res), t)
  {
    hide Inv, NodeOk, RecOk, ChainOk, ListOk, LinkedOk, GuardsKept, SlotsOk, ScanOk, TableOk;
    var th' := ScanForRec(s, t, r, p, i, cur, c, res).threads[t];
    InvAt(s, t, 0, 0, 0);
    ScanSteps(s, t, th');
    NoTable(At(s, t, th'), t, th');
    KeepMove(s, t, th');
  }

  lemma ScanSteps(s: State, t: Tid, th: Thread)
    requires Inv(s) && t in s.threads && Scans(s.threads[t]).Some? && Guards(th) == None
    requires Scans(th).Some? ==>
      var (p, i) := Scans(s.threads[t]).value;
      Scans(th).value.0 == p
      && ((i >= |s.slots| && Scans(th).value.1 == MAX_HAZARD_POINTERS)
          || (i < |s.slots| && s.slots[i].ptr != Some(p) && Scans(th).value.1 == i + 1))
    ensures ScansOk(At(s, t, th), t)
  {
    hide Inv, NodeOk, RecOk, ChainOk, ListOk, LinkedOk, OwnsOk, RecordsOk;
    InvAt(s, t, 0, 0, 0);
    var s' := At(s, t, th);
    forall u ensures ScanOk(s', u, t) && ScanOk(s', t, u) {
      ScanAt(s, t, u);
      if u in s.threads { InvAt(s, u, 0, 0, 0); }
    }
  }

  /** The stack survives a step that keeps the place and link of every linked node. */
  lemma KeepLinked(s: State, s': State, n: Option<Addr>)
    requires LinkedOk(s) && s'.head == s.head && s'.linked == s.linked
    requires forall b :: Some(b) != n && b in s.heap ==> b in s'.heap && s'.heap[b] == s.heap[b]
    requires n.Some? && n.value in s.heap && s.heap[n.value].place.Linked? ==>
      n.value in s'.heap && s'.heap[n.value].place == s.heap[n.value].place && s'.heap[n.value].next == s.heap[n.value].next
    ensures LinkedOk(s') && LinkedRespected(s, s', n)
  {
  }

  /** The node a thread owns, if any. */
  function OwnNode(th: Thread): Option<Addr> {
    if PrivateOf(th).Some? then PrivateOf(th) else OwnedOf(th)
  }

  function OwnRec(th: Thread): Option<Addr> {
    if HeldOf(th).Some? then HeldOf(th) else HuskOf(th)
  }

  /** Whatever is marked as owned by `t` is what `t` itself names. */
  lemma OwnedByOne(s: State, t: Tid)
    requires Inv(s)
    ensures forall b :: b in s.heap && OwnerOf(s.heap[b].place) == Some(t) ==> OwnNode(ThreadAt(s, t)) == Some(b)
    ensures forall q :: q in s.recs && RecOwnerOf(s.recs[q].place) == Some(t) ==> OwnRec(ThreadAt(s, t)) == Some(q)
    ensures forall c :: c in s.chains && s.chains[c].owner == Some(t) ==>
      DrainOf(ThreadAt(s, t)).Some? && DrainOf(ThreadAt(s, t)).value.0 == c
  {
    hide Below, ThreadOk, SlotsOk, ListOk, LinkedOk, ScanOk;
    forall b | b in s.heap && OwnerOf(s.heap[b].place) == Some(t) ensures OwnNode(ThreadAt(s, t)) == Some(b) {
      assert NodeOk(s, b);
    }
    forall q | q in s.recs && RecOwnerOf(s.recs[q].place) == Some(t) ensures OwnRec(ThreadAt(s, t)) == Some(q) {
      assert RecOk(s, q);
    }
    forall c | c in s.chains && s.chains[c].owner == Some(t)
      ensures DrainOf(ThreadAt(s, t)).Some? && DrainOf(ThreadAt(s, t)).value.0 == c
    {
      assert ChainOk(s, c);
    }
  }

  /** A step inside the claims of thread `t` is a step at the node, record and chains it names. */
  lemma OwnStep(s: State, s': State, t: Tid, a: Option<Addr>, r: Option<Addr>, cs: set<ChainId>)
    requires Inv(s) && t in s.threads && !s'.fault && t in s'.threads
    requires s'.threads == s.threads[t := s'.threads[t]]
    requires s'.slots == s.slots && s'.mine == s.mine && (s'.listed == s.listed || (s.listed in cs && s'.listed in cs))
    requires forall b :: Some(b) != a ==> (b in s.heap <==> b in s'.heap)
    requires forall b :: Some(b) != a && b in s.heap ==> s'.heap[b] == s.heap[b]
    requires forall q :: Some(q) != r ==> (q in s.recs <==> q in s'.recs)
    requires forall q :: Some(q) != r && q in s.recs ==> s'.recs[q] == s.recs[q]
    requires forall c :: c !in cs ==> (c in s.chains <==> c in s'.chains)
    requires forall c :: c !in cs && c in s.chains ==> s'.chains[c] == s.chains[c]
    requires OwnNode(s.threads[t]) == None || OwnNode(s.threads[t]) == a
    requires OwnRec(s.threads[t]) == None || OwnRec(s.threads[t]) == r
    requires DrainSet(s.threads[t]) <= cs
    ensures StepAt(s, s', t, a, r, cs)
  {
    hide Inv;
    OwnedByOne(s, t);
  }

  function DrainSet(th: Thread): set<ChainId> {
    if DrainOf(th).Some? then {DrainOf(th).value.0} else {}
  }

  /** No thread guards an address that is not allocated or not published. */
  lemma Unguarded(s: State, a: Addr)
    requires Inv(s) && (a !in s.heap || s.heap[a].place.Private?)
    ensures forall u :: !Guarded(s, u, a)
  {
    hide Below, NodeOk, RecOk, ChainOk, SlotsOk, ListOk, LinkedOk, ScanOk, OwnsOk, RecordsOk;
    forall u ensures !Guarded(s, u, a) {
      if u in s.threads { assert ThreadOk(s, u); }
    }
  }

  /** A step that changes node `a` alone, which thread `t` owns before or after it. */
  lemma KeepNodeStep(s: State, s': State, t: Tid, a: Addr)
    requires Inv(s) && t in s.threads && !s'.fault && t in s'.threads
    requires s'.threads == s.threads[t := s'.threads[t]]
    requires s' == s.(threads := s'.threads, heap := s'.heap)
    requires forall b :: b != a ==> (b in s.heap <==> b in s'.heap)
    requires forall b :: b != a && b in s.heap ==> s'.heap[b] == s.heap[b]
    requires OwnNode(s.threads[t]) in {None, Some(a)} && OwnRec(s.threads[t]) == None && DrainOf(s.threads[t]) == None
    requires a in s.heap ==> OwnerOf(s.heap[a].place) == Some(t)
    requires NodeRespected(s, s', t, Some(a), None)
    requires a in s'.heap ==> NodeOk(s', a)
    requires ThreadOk(s', t) && ScansOk(s', t)
    ensures Inv(s') && GuardsKept(s, s', t)
  {
    hide GuardsKept;
    hide StepAt, Below, Inv, NodeOk, RecOk, ChainOk, ScanOk, LinkedOk, LinkedRespected, ThreadOk, NodeRespected;
    InvAt(s, t, a, 0, 0);
    OwnStep(s, s', t, Some(a), None, {});
    KeepLinked(s, s', Some(a));
    KeepFrame(s, s', t, Some(a), None, {});
  }

  lemma KeepAllocate(s: State, t: Tid, v: Value, a: Addr)
    requires Inv(s) && t in s.threads && s.threads[t] == PushStart(v) && a !in s.heap
    ensures Inv(Allocate(s, t, v, a)) && GuardsKept(s, Allocate(s, t, v, a), t)
  {
    hide GuardsKept;
    hide Below, Inv, RecOk, ChainOk, ScanOk, ListOk, LinkedOk, LinkedRespected, SlotsOk;
    var s' := Allocate(s, t, v, a);
    InvAt(s, t, a, 0, 0);
    NoScans(s', t);
    hide ScansOk, Scans;
    KeepNodeStep(s, s', t, a);
  }

  lemma KeepSetNext(s: State, t: Tid, n: Addr)
    requires Inv(s) && t in s.threads && (s.threads[t] == PushLoad(n) || s.threads[t] == PushCas(n))
    ensures Inv(SetNext(s, t, n)) && GuardsKept(s, SetNext(s, t, n), t)
  {
    hide GuardsKept;
    hide Below, Inv, RecOk, ChainOk, ScanOk, ListOk, LinkedOk, LinkedRespected;
    var s' := SetNext(s, t, n);
    InvAt(s, t, n, 0, 0);
    Unguarded(s, n);
    NoScans(s', t);
    KeepNodeStep(s, s', t, n);
  }

  lemma KeepSwap(s: State, t: Tid, p: Addr)
    requires Inv(s) && t in s.threads && s.threads[t] == Swap(p)
    ensures Inv(SwapData(s, t, p)) && GuardsKept(s, SwapData(s, t, p), t)
  {
    hide GuardsKept, Below, Inv, RecOk, ChainOk, ScanOk, ListOk, LinkedOk, LinkedRespected, SlotsOk, ThreadOk, ScansOk;
    SwapThread(s, t, p);
    InvAt(s, t, p, 0, 0);
    KeepNodeStep(s, SwapData(s, t, p), t, p);
  }

  lemma SwapThread(s: State, t: Tid, p: Addr)
    requires Inv(s) && t in s.threads && s.threads[t] == Swap(p)
    ensures p in s.heap && s.heap[p].place == Owned(t)
    ensures ThreadOk(SwapData(s, t, p), t) && ScansOk(SwapData(s, t, p), t)
  {
    hide Below, Inv, NodeOk, RecOk, ChainOk, ScanOk, ListOk, LinkedOk, SlotsOk, TableOk, ScansOk;
    InvAt(s, t, 0, 0, 0);
    var s' := SwapData(s, t, p);
    NoScans(s', t);
    NoTable(s', t, s'.threads[t]);
  }

  /** The scan has passed every slot, so nobody guards the node that is released. */
  lemma ScanDone(s: State, t: Tid, p: Addr)
    requires Inv(s) && t in s.threads && Scans(s.threads[t]) == Some((p, MAX_HAZARD_POINTERS))
    ensures forall u :: !Guarded(s, u, p)
  {
    hide Below, NodeOk, RecOk, ChainOk, ListOk, LinkedOk, OwnsOk, RecordsOk;
    forall u ensures !Guarded(s, u, p) {
      if u in s.threads { assert ThreadOk(s, u); }
      assert ScanOk(s, t, u);
    }
  }

  lemma KeepFreeOwn(s: State, t: Tid, p: Addr, res: Option<Value>)
    requires Inv(s) && t in s.threads && s.threads[t] == FreeOwn(p, res)
    ensures Inv(ReleaseOwn(s, t, p, res)) && GuardsKept(s, ReleaseOwn(s, t, p, res), t)
  {
    hide GuardsKept, Below, Inv, NodeOk, RecOk, ChainOk, ScanOk, ListOk, LinkedOk, LinkedRespected, SlotsOk, ThreadOk, ScansOk;
    FreeOwnThread(s, t, p, res);
    ScanDone(s, t, p);
    InvAt(s, t, p, 0, 0);
    KeepNodeStep(s, ReleaseOwn(s, t, p, res), t, p);
  }

  lemma FreeOwnThread(s: State, t: Tid, p: Addr, res: Option<Value>)
    requires Inv(s) && t in s.threads && s.threads[t] == FreeOwn(p, res)
    ensures p in s.heap && s.heap[p].place == Owned(t)
    ensures ThreadOk(ReleaseOwn(s, t, p, res), t) && ScansOk(ReleaseOwn(s, t, p, res), t)
  {
    hide Below, Inv, NodeOk, RecOk, ChainOk, ScanOk, ListOk, LinkedOk, SlotsOk, TableOk, ScansOk;
    InvAt(s, t, 0, 0, 0);
    var s' := ReleaseOwn(s, t, p, res);
    NoScans(s', t);
    NoTable(s', t, s'.threads[t]);
  }

  /** A step that writes the pointer of the thread's own slot and keeps its claims. */
  lemma KeepWriteSlot(s: State, t: Tid, ptr: Option<Addr>, th: Thread)
    requires Inv(s) && t in s.mine && SameClaims(ThreadAt(s, t), th)
    requires Guards(th) == None && Scans(th) == None && (th.Revalidate? ==> th.seen == ptr) && !th.Claim?
    requires th.Swap? && th.p in s.heap ==> s.heap[th.p].data.Some?
    requires !th.ClearWon? && OwnsOk(s, t, th) && RecordsOk(s, t, th)
    ensures Inv(WriteSlot(s, t, ptr, th)) && GuardsKept(s, WriteSlot(s, t, ptr, th), t)
  {
    hide GuardsKept;
    hide Below, NodeOk, RecOk, ChainOk, LinkedOk, OwnsOk, RecordsOk;
    var s0 := At(s, t, th);
    var s' := WriteSlot(s, t, ptr, th);
    MoveNodes(s, t, th);
    SlotNodes(s0, s');
    forall u | u in s'.threads && u != t ensures ThreadOk(s', u) {
      assert ThreadOk(s, u);
      SlotOwns(s, s', u, s.threads[u]);
    }
    SlotOwns(s, s', t, th);
    assert ThreadOk(s', t);
    forall u, v ensures ScanOk(s', u, v) { assert ScanOk(s, u, v); }
    assert LinkedOk(s') by { assert LinkedOk(s); SlotLinked(s, s'); }
    SameHeapGuards(s, s', t);
  }

  lemma SlotNodes(s: State, s': State)
    requires s' == s.(slots := s'.slots)
    ensures forall a :: a in s.heap && NodeOk(s, a) ==> NodeOk(s', a)
    ensures forall r :: r in s.recs && RecOk(s, r) ==> RecOk(s', r)
    ensures forall c :: c in s.chains && ChainOk(s, c) ==> ChainOk(s', c)
  {
    forall a | a in s.heap && NodeOk(s, a) ensures NodeOk(s', a) { hide Below, RecOk, ChainOk; }
    forall r | r in s.recs && RecOk(s, r) ensures RecOk(s', r) { hide Below, NodeOk, ChainOk; }
    forall c | c in s.chains && ChainOk(s, c) ensures ChainOk(s', c) { hide Below, NodeOk, RecOk; }
  }

  lemma SlotLinked(s: State, s': State)
    requires LinkedOk(s) && s'.head == s.head && s'.heap == s.heap && s'.linked == s.linked
    ensures LinkedOk(s')
  {
  }

  lemma SlotOwns(s: State, s': State, u: Tid, th: Thread)
    requires OwnsOk(s, u, th) && RecordsOk(s, u, th)
    requires s'.heap == s.heap && s'.recs == s.recs && s'.chains == s.chains
    ensures OwnsOk(s', u, th) && RecordsOk(s', u, th)
  {
  }

  lemma KeepClaim(s: State, t: Tid, i: nat)
    requires Inv(s) && t in s.threads && s.threads[t] == Claim(i)
    ensures Inv(ClaimSlot(s, t, i)) && GuardsKept(s, ClaimSlot(s, t, i), t)
  {
    hide GuardsKept;
    hide Below, Inv, NodeOk, RecOk, ChainOk, LinkedOk, ScanOk, ListOk;
    InvAt(s, t, 0, 0, 0);
    var s' := ClaimSlot(s, t, i);
    if s'.threads[t].PopStart? {
      KeepClaimed(s, t, i);
    } else {
      NoScans(At(s, t, s'.threads[t]), t);
      KeepMove(s, t, s'.threads[t]);
    }
  }

  lemma KeepClaimed(s: State, t: Tid, i: nat)
    requires Inv(s) && t in s.threads && s.threads[t] == Claim(i) && i < |s.slots| && s.slots[i].id == None
    ensures Inv(ClaimSlot(s, t, i)) && GuardsKept(s, ClaimSlot(s, t, i), t)
  {
    hide GuardsKept;
    hide Below, NodeOk, RecOk, ChainOk, LinkedOk, OwnsOk, RecordsOk;
    var s' := ClaimSlot(s, t, i);
    MoveNodes(s, t, PopStart);
    SlotNodes2(At(s, t, PopStart), s');
    assert ThreadOk(s, t);
    forall u | u in s'.threads && u != t ensures ThreadOk(s', u) {
      assert ThreadOk(s, u);
      SlotOwns(s, s', u, s.threads[u]);
    }
    SlotClaimed(s', t);
    forall u, v ensures ScanOk(s', u, v) { assert ScanOk(s, u, v); }
    SlotLinked(s, s');
    SameHeapGuards(s, s', t);
  }

  lemma SlotClaimed(s: State, t: Tid)
    requires t in s.threads && s.threads[t] == PopStart && t in s.mine
    ensures ThreadOk(s, t)
  {
  }

  lemma SlotNodes2(s: State, s': State)
    requires s' == s.(slots := s'.slots, mine := s'.mine)
    ensures forall a :: a in s.heap && NodeOk(s, a) ==> NodeOk(s', a)
    ensures forall r :: r in s.recs && RecOk(s, r) ==> RecOk(s', r)
    ensures forall c :: c in s.chains && ChainOk(s, c) ==> ChainOk(s', c)
  {
    forall a | a in s.heap && NodeOk(s, a) ensures NodeOk(s', a) { hide Below, RecOk, ChainOk; }
    forall r | r in s.recs && RecOk(s, r) ensures RecOk(s', r) { hide Below, NodeOk, ChainOk; }
    forall c | c in s.chains && ChainOk(s, c) ensures ChainOk(s', c) { hide Below, NodeOk, RecOk; }
  }

  /** Publishing puts the new node on top of the nodes already linked. */
  lemma KeepPushCommit(s: State, t: Tid, n: Addr, spurious: bool)
    requires Inv(s) && t in s.threads && s.threads[t] == PushCas(n)
    ensures Inv(PushCommit(s, t, n, spurious)) && GuardsKept(s, PushCommit(s, t, n, spurious), t)
  {
    hide GuardsKept;
    hide StepAt, Below, Inv, NodeOk, RecOk, ChainOk, ScanOk, ListOk, LinkedOk;
    InvAt(s, t, n, 0, 0);
    if s.head == s.heap[n].next && !spurious {
      var s' := PushCommit(s, t, n, spurious);
      NoScans(s', t);
      PushCommitLocal(s, t, n);
      SameList(s, s');
      hide LinkedRespected, NodeRespected, ThreadOk;
      KeepFrame(s, s', t, Some(n), None, {});
    } else {
      KeepSetNext(s, t, n);
    }
  }

  lemma PushCommitLocal(s: State, t: Tid, n: Addr)
    requires Inv(s) && t in s.threads && s.threads[t] == PushCas(n)
    requires n in s.heap && s.head == s.heap[n].next
    ensures var s' := PushCommit(s, t, n, false);
      && StepAt(s, s', t, Some(n), None, {}) && NodeRespected(s, s', t, Some(n), None)
      && LinkedOk(s') && LinkedRespected(s, s', Some(n)) && NodeOk(s', n) && ThreadOk(s', t)
  {
    hide StepAt, Below, Inv, RecOk, ChainOk, ScanOk, ListOk, LinkedOk, LinkedRespected, ThreadOk, NodeRespected, SlotsOk;
    var s' := PushCommit(s, t, n, false);
    PushThread(s, t, n);
    InvAt(s, t, n, 0, 0);
    OwnStep(s, s', t, Some(n), None, {});
    assert NodeRespected(s, s', t, Some(n), None) by { hide NodeOk; Unguarded(s, n); PushRespected(s, t, n); }
    if n in s.linked { LinkedPlace(s, n); }
    PushedLinked(s, s', n);
  }

  lemma PushThread(s: State, t: Tid, n: Addr)
    requires Inv(s) && t in s.threads && s.threads[t] == PushCas(n)
    requires n in s.heap && s.head == s.heap[n].next
    ensures s.heap[n].place == Private(t) && ThreadOk(PushCommit(s, t, n, false), t)
  {
    hide Below, Inv, NodeOk, RecOk, ChainOk, ScanOk, ListOk, LinkedOk, SlotsOk, TableOk;
    InvAt(s, t, 0, 0, 0);
    var s' := PushCommit(s, t, n, false);
    NoTable(s', t, s'.threads[t]);
  }

  lemma PushRespected(s: State, t: Tid, n: Addr)
    requires n in s.heap && s.head == s.heap[n].next && s.heap[n].place == Private(t) && forall u :: !Guarded(s, u, n)
    ensures NodeRespected(s, PushCommit(s, t, n, false), t, Some(n), None)
  {
    hide Guarded;
  }

  lemma LinkedPlace(s: State, n: Addr)
    requires LinkedOk(s) && n in s.linked
    ensures n in s.heap && s.heap[n].place.Linked?
  {
    hide Below;
  }

  lemma SameList(s: State, s': State)
    requires ListOk(s) && s'.list == s.list && s'.listed == s.listed && s'.chains == s.chains
    ensures ListOk(s')
  {
  }

  /** Pushing on a run of linked addresses, or popping it, keeps what lies below. */
  lemma BelowKept(q: seq<Addr>, q': seq<Addr>)
    requires |q'| <= |q| && q' == q[..|q'|]
    ensures forall i :: 0 <= i < |q'| ==> Below(q', i) == Below(q, i)
    ensures |q'| < |q| ==> Below(q, |q'|) == Top(q')
  {
  }

  lemma PushedLinked(s: State, s': State, n: Addr)
    requires LinkedOk(s) && n in s.heap && n !in s.linked && s.heap[n].next == s.head
    requires s'.head == Some(n) && s'.linked == s.linked + [n]
    requires s'.heap == s.heap[n := s.heap[n].(place := Linked(|s.linked|))]
    ensures LinkedOk(s') && LinkedRespected(s, s', Some(n))
  {
    hide Below;
    BelowKept(s'.linked, s.linked);
    forall i | 0 <= i < |s.linked|
      ensures s'.linked[i] in s'.heap && s'.heap[s'.linked[i]].place == Linked(i) && s'.heap[s'.linked[i]].next == Below(s'.linked, i)
    {
      assert s'.linked[i] == s.linked[i];
    }
  }

  lemma PoppedLinked(s: State, s': State, p: Addr, place: Place)
    requires LinkedOk(s) && s.head == Some(p)
    requires p in s.heap && s'.head == s.heap[p].next && s'.linked == s.linked[..|s.linked| - 1]
    requires s'.heap == s.heap[p := s.heap[p].(place := place)]
    ensures LinkedOk(s') && LinkedRespected(s, s', Some(p))
  {
    hide Below;
    var n := |s.linked| - 1;
    BelowKept(s.linked, s'.linked);
    assert s.linked[n] == p && s.heap[p].place == Linked(n);
    forall i | 0 <= i < n
      ensures s'.linked[i] in s'.heap && s'.heap[s'.linked[i]].place == Linked(i) && s'.heap[s'.linked[i]].next == Below(s'.linked, i)
    {
      assert s'.linked[i] == s.linked[i];
    }
  }

  lemma HeadLinked(s: State, p: Addr)
    requires LinkedOk(s) && s.head == Some(p)
    ensures p in s.heap && s.linked != [] && s.linked[|s.linked| - 1] == p && s.heap[p].place == Linked(|s.linked| - 1)
  {
  }

  /** The winner of the head had its guard on the node, so what it read of it still holds. */
  lemma KeepUnlink(s: State, t: Tid, p: Addr, next: Option<Addr>)
    requires Inv(s) && t in s.threads && s.threads[t] == NextRead(p, next)
    ensures Inv(Unlink(s, t, p, next)) && GuardsKept(s, Unlink(s, t, p, next), t)
  {
    hide GuardsKept;
    hide StepAt, Below, Inv, NodeOk, RecOk, ChainOk, ListOk, LinkedOk, LinkedRespected;
    InvAt(s, t, p, 0, 0);
    var s' := Unlink(s, t, p, next);
    forall u ensures ScanOk(s', u, t) && ScanOk(s', t, u) { ScanAt(s, u, t); }
    hide ScanOk;
    if s.head != Some(p) {
      KeepMove(s, t, s'.threads[t]);
    } else {
      UnlinkLocal(s, t, p, next);
      SameList(s, s');
      hide NodeRespected, ThreadOk;
      KeepFrame(s, s', t, Some(p), None, {});
    }
  }

  lemma UnlinkLocal(s: State, t: Tid, p: Addr, next: Option<Addr>)
    requires Inv(s) && t in s.threads && s.threads[t] == NextRead(p, next) && s.head == Some(p)
    ensures var s' := Unlink(s, t, p, next);
      && StepAt(s, s', t, Some(p), None, {}) && NodeRespected(s, s', t, Some(p), None)
      && LinkedOk(s') && LinkedRespected(s, s', Some(p)) && NodeOk(s', p) && ThreadOk(s', t)
  {
    hide StepAt, Below, Inv, RecOk, ChainOk, ScanOk, ListOk, LinkedOk, LinkedRespected, ThreadOk, SlotsOk;
    var s' := Unlink(s, t, p, next);
    InvAt(s, t, p, 0, 0);
    HeadLinked(s, p);
    UnlinkThread(s, t, p, next);
    OwnStep(s, s', t, Some(p), None, {});
    PoppedLinked(s, s', p, Owned(t));
  }

  /** The winner of the head guards the node, and has the link as it is. */
  lemma UnlinkThread(s: State, t: Tid, p: Addr, next: Option<Addr>)
    requires Inv(s) && t in s.threads && s.threads[t] == NextRead(p, next) && s.head == Some(p)
    requires p in s.heap && s.heap[p].place.Linked?
    ensures next == s.heap[p].next && ThreadOk(Unlink(s, t, p, next), t)
  {
    hide Below, Inv, RecOk, ChainOk, ScanOk, ListOk, LinkedOk, SlotsOk;
    InvAt(s, t, p, 0, 0);
  }

  lemma KeepRetire(s: State, t: Tid, p: Addr, a: Addr, res: Option<Value>)
    requires Inv(s) && t in s.threads && s.threads[t] == Retire(p, res) && a !in s.recs
    ensures Inv(MakeRecord(s, t, p, a, res)) && GuardsKept(s, MakeRecord(s, t, p, a, res), t)
  {
    hide GuardsKept;
    hide StepAt, Below, Inv, NodeOk, RecOk, ChainOk, ScanOk, ListOk, LinkedOk, LinkedRespected;
    InvAt(s, t, p, a, 0);
    var s' := MakeRecord(s, t, p, a, res);
    NoScans(s', t);
    RetireLocal(s, t, p, a, res);
    KeepLinked(s, s', Some(p));
    SameList(s, s');
    hide NodeRespected, RecRespected, ThreadOk;
    KeepFrame(s, s', t, Some(p), Some(a), {});
  }

  lemma RetireLocal(s: State, t: Tid, p: Addr, a: Addr, res: Option<Value>)
    requires Inv(s) && t in s.threads && s.threads[t] == Retire(p, res) && a !in s.recs
    ensures var s' := MakeRecord(s, t, p, a, res);
      && StepAt(s, s', t, Some(p), Some(a), {}) && NodeRespected(s, s', t, Some(p), Some(a))
      && RecRespected(s, s', t, Some(p), Some(a), {})
      && p in s.heap && s.heap[p].place == Owned(t)
      && NodeOk(s', p) && RecOk(s', a) && ThreadOk(s', t)
  {
    hide StepAt, Below, Inv, ChainOk, ScanOk, ListOk, LinkedOk, LinkedRespected, SlotsOk, NodeOk, RecOk, NodeRespected, RecRespected, ThreadOk;
    RetireThread(s, t, p, a, res);
    RetireNode(s, t, p, a, res);
    InvAt(s, t, 0, 0, 0);
    OwnStep(s, MakeRecord(s, t, p, a, res), t, Some(p), Some(a), {});
  }

  lemma RetireThread(s: State, t: Tid, p: Addr, a: Addr, res: Option<Value>)
    requires Inv(s) && t in s.threads && s.threads[t] == Retire(p, res) && a !in s.recs
    ensures p in s.heap && s.heap[p].place == Owned(t) && ThreadOk(MakeRecord(s, t, p, a, res), t)
  {
    hide Below, Inv, NodeOk, RecOk, ChainOk, ScanOk, ListOk, LinkedOk, SlotsOk, TableOk;
    InvAt(s, t, 0, 0, 0);
    var s' := MakeRecord(s, t, p, a, res);
    NoTable(s', t, s'.threads[t]);
  }

  lemma RetireNode(s: State, t: Tid, p: Addr, a: Addr, res: Option<Value>)
    requires t in s.threads && s.threads[t] == Retire(p, res) && a !in s.recs && p in s.heap && s.heap[p].place == Owned(t)
    ensures var s' := MakeRecord(s, t, p, a, res);
      && NodeRespected(s, s', t, Some(p), Some(a)) && RecRespected(s, s', t, Some(p), Some(a), {})
      && NodeOk(s', p) && RecOk(s', a)
  {
    hide Guarded;
  }

  /** A chain without record `r` survives a change of `r`. */
  lemma KeepChain(s: State, s': State, c: ChainId, r: Addr)
    requires c in s.chains && ChainOk(s, c) && c in s'.chains && s'.chains[c] == s.chains[c] && s'.listed == s.listed
    requires forall q :: q != r && q in s.recs ==> q in s'.recs && s'.recs[q] == s.recs[q]
    requires r in s.recs ==> !s.recs[r].place.InChain?
    requires s.chains[c].owner.Some? ==> Drains(s', s.chains[c].owner.value, c)
    ensures ChainOk(s', c)
  {
  }

  /** A step that changes record `r`, held by thread `t`, and perhaps the node in it. */
  lemma KeepRecStep(s: State, s': State, t: Tid, a: Option<Addr>, r: Addr)
    requires Inv(s) && t in s.threads && !s'.fault && t in s'.threads
    requires s'.threads == s.threads[t := s'.threads[t]]
    requires s' == s.(threads := s'.threads, heap := s'.heap, recs := s'.recs)
    requires forall b :: Some(b) != a ==> (b in s.heap <==> b in s'.heap)
    requires forall b :: Some(b) != a && b in s.heap ==> s'.heap[b] == s.heap[b]
    requires forall q :: q != r ==> (q in s.recs <==> q in s'.recs)
    requires forall q :: q != r && q in s.recs ==> s'.recs[q] == s.recs[q]
    requires OwnNode(s.threads[t]) == None && OwnRec(s.threads[t]) == Some(r)
    requires DrainOf(s'.threads[t]) == DrainOf(s.threads[t])
    requires a.Some? && a.value in s.heap ==> s.heap[a.value].place == Parked(r)
    requires NodeRespected(s, s', t, a, Some(r))
    requires r in s.recs && RecOwnerOf(s.recs[r].place) == Some(t)
    requires RecRespected(s, s', t, a, Some(r), DrainSet(s.threads[t]))
    requires a.Some? && a.value in s'.heap ==> NodeOk(s', a.value)
    requires r in s'.recs ==> RecOk(s', r)
    requires ThreadOk(s', t) && ScansOk(s', t)
    ensures Inv(s') && GuardsKept(s, s', t)
  {
    hide GuardsKept;
    hide StepAt, Below, Inv, NodeOk, RecOk, ChainOk, ScanOk, LinkedOk, LinkedRespected, NodeRespected, RecRespected;
    hide ThreadOk;
    var cs := DrainSet(s.threads[t]);
    InvAt(s, t, 0, r, 0);
    RecStepAt(s, s', t, a, r);
    KeepLinked(s, s', a);
    SameList(s, s');
    KeepFrame(s, s', t, a, Some(r), cs);
  }

  lemma RecStepAt(s: State, s': State, t: Tid, a: Option<Addr>, r: Addr)
    requires Inv(s) && t in s.threads && !s'.fault && t in s'.threads
    requires s'.threads == s.threads[t := s'.threads[t]]
    requires s' == s.(threads := s'.threads, heap := s'.heap, recs := s'.recs)
    requires forall b :: Some(b) != a ==> (b in s.heap <==> b in s'.heap)
    requires forall b :: Some(b) != a && b in s.heap ==> s'.heap[b] == s.heap[b]
    requires forall q :: q != r ==> (q in s.recs <==> q in s'.recs)
    requires forall q :: q != r && q in s.recs ==> s'.recs[q] == s.recs[q]
    requires OwnNode(s.threads[t]) == None && OwnRec(s.threads[t]) == Some(r)
    requires DrainOf(s'.threads[t]) == DrainOf(s.threads[t])
    requires r in s.recs && RecOwnerOf(s.recs[r].place) == Some(t)
    ensures StepAt(s, s', t, a, Some(r), DrainSet(s.threads[t]))
    ensures ChainsRespected(s, s', t, Some(r), DrainSet(s.threads[t]))
    ensures forall c :: c in DrainSet(s.threads[t]) && c in s'.chains ==> ChainOk(s', c)
  {
    hide StepAt, Below, Inv, NodeOk, RecOk, ChainOk, ScanOk, LinkedOk, ThreadOk, SlotsOk, ListOk;
    InvAt(s, t, 0, r, 0);
    OwnStep(s, s', t, a, Some(r), DrainSet(s.threads[t]));
    forall c | c in DrainSet(s.threads[t]) && c in s'.chains ensures ChainOk(s', c) {
      assert Drains(s', t, c);
      ChainOwner(s, c, t);
      KeepChain(s, s', c, r);
    }
    if DrainSet(s.threads[t]) != {} { ChainOwner(s, DrainOf(s.threads[t]).value.0, t); }
  }

  /** The chain a thread drains is marked with that thread. */
  lemma ChainOwner(s: State, c: ChainId, t: Tid)
    requires Inv(s) && Drains(s, t, c)
    ensures c in s.chains && s.chains[c].owner == Some(t) && ChainOk(s, c)
  {
    hide Below, NodeOk, RecOk, ScanOk, LinkedOk, ListOk;
    assert ThreadOk(s, t);
  }

  lemma KeepLinkRecord(s: State, t: Tid, r: Addr, res: Option<Value>, k: Cont)
    requires Inv(s) && t in s.threads && (s.threads[t] == AddLink(r, res, k) || s.threads[t] == AddCas(r, res, k))
    ensures Inv(LinkRecord(s, t, r, res, k)) && GuardsKept(s, LinkRecord(s, t, r, res, k), t)
  {
    hide GuardsKept, Below, Inv, NodeOk, ChainOk, ScanOk, ListOk, LinkedOk, SlotsOk, ThreadOk, ScansOk;
    HeldRec(s, t, r);
    InvAt(s, t, 0, r, 0);
    LinkThread(s, t, r, res, k);
    KeepRecStep(s, LinkRecord(s, t, r, res, k), t, None, r);
  }

  lemma LinkThread(s: State, t: Tid, r: Addr, res: Option<Value>, k: Cont)
    requires Inv(s) && t in s.threads && (s.threads[t] == AddLink(r, res, k) || s.threads[t] == AddCas(r, res, k)) && r in s.recs
    ensures ThreadOk(LinkRecord(s, t, r, res, k), t) && ScansOk(LinkRecord(s, t, r, res, k), t)
  {
    hide Below, Inv, NodeOk, RecOk, ChainOk, ScanOk, ListOk, LinkedOk, SlotsOk, TableOk, ScansOk;
    InvAt(s, t, 0, 0, 0);
    var s' := LinkRecord(s, t, r, res, k);
    NoScans(s', t);
    NoTable(s', t, s'.threads[t]);
  }

  lemma KeepFreeData(s: State, t: Tid, r: Addr, p: Addr, cur: Option<Addr>, c: ChainId, res: Option<Value>)
    requires Inv(s) && t in s.threads && s.threads[t] == FreeData(r, p, cur, c, res)
    ensures Inv(ReleaseData(s, t, r, p, cur, c, res)) && GuardsKept(s, ReleaseData(s, t, r, p, cur, c, res), t)
  {
    hide GuardsKept, Below, Inv, NodeOk, ChainOk, ScanOk, ListOk, LinkedOk, SlotsOk, ThreadOk, ScansOk, RecOk;
    InvAt(s, t, p, r, c);
    FreeDataPlace(s, t, r, p);
    FreeDataThread(s, t, r, p, cur, c, res);
    ScanDone(s, t, p);
    FreeDataRec(s, t, r, p, cur, c, res);
    KeepRecStep(s, ReleaseData(s, t, r, p, cur, c, res), t, Some(p), r);
  }

  lemma FreeDataPlace(s: State, t: Tid, r: Addr, p: Addr)
    requires Inv(s) && t in s.threads && s.threads[t].FreeData? && s.threads[t].r == r && s.threads[t].p == p
    ensures r in s.recs && s.recs[r].place == Held(t) && s.recs[r].data == p && p in s.heap && s.heap[p].place == Parked(r)
  {
    hide Below, Inv, NodeOk, ChainOk, ScanOk, ListOk, LinkedOk, SlotsOk, TableOk;
    HeldRec(s, t, r);
    InvAt(s, t, p, r, 0);
  }

  lemma FreeDataThread(s: State, t: Tid, r: Addr, p: Addr, cur: Option<Addr>, c: ChainId, res: Option<Value>)
    requires Inv(s) && t in s.threads && s.threads[t] == FreeData(r, p, cur, c, res)
    requires r in s.recs && s.recs[r].place == Held(t) && p in s.heap
    ensures ThreadOk(ReleaseData(s, t, r, p, cur, c, res), t) && ScansOk(ReleaseData(s, t, r, p, cur, c, res), t)
  {
    hide Below, Inv, NodeOk, RecOk, ChainOk, ScanOk, ListOk, LinkedOk, SlotsOk, TableOk, ScansOk;
    InvAt(s, t, 0, 0, 0);
    var s' := ReleaseData(s, t, r, p, cur, c, res);
    NoScans(s', t);
    NoTable(s', t, s'.threads[t]);
  }

  lemma FreeDataRec(s: State, t: Tid, r: Addr, p: Addr, cur: Option<Addr>, c: ChainId, res: Option<Value>)
    requires t in s.threads && s.threads[t] == FreeData(r, p, cur, c, res)
    requires r in s.recs && s.recs[r].place == Held(t) && s.recs[r].data == p && p in s.heap && s.heap[p].place == Parked(r)
    requires forall u :: !Guarded(s, u, p)
    ensures
      var s' := ReleaseData(s, t, r, p, cur, c, res);
      && r in s'.recs && RecOk(s', r) && NodeRespected(s, s', t, Some(p), Some(r))
      && RecRespected(s, s', t, Some(p), Some(r), DrainSet(s.threads[t]))
  {
    hide Guarded;
  }

  lemma KeepFreeRec(s: State, t: Tid, r: Addr, cur: Option<Addr>, c: ChainId, res: Option<Value>)
    requires Inv(s) && t in s.threads && s.threads[t] == FreeRec(r, cur, c, res)
    ensures Inv(ReleaseRec(s, t, r, cur, c, res)) && GuardsKept(s, ReleaseRec(s, t, r, cur, c, res), t)
  {
    hide GuardsKept, Below, Inv, NodeOk, ChainOk, ScanOk, ListOk, LinkedOk, SlotsOk, ThreadOk, ScansOk;
    FreeRecThread(s, t, r, cur, c, res);
    InvAt(s, t, 0, r, c);
    KeepRecStep(s, ReleaseRec(s, t, r, cur, c, res), t, None, r);
  }

  lemma FreeRecThread(s: State, t: Tid, r: Addr, cur: Option<Addr>, c: ChainId, res: Option<Value>)
    requires Inv(s) && t in s.threads && s.threads[t] == FreeRec(r, cur, c, res)
    ensures r in s.recs && s.recs[r].place == Husk(t)
    ensures ThreadOk(ReleaseRec(s, t, r, cur, c, res), t) && ScansOk(ReleaseRec(s, t, r, cur, c, res), t)
  {
    hide Below, Inv, NodeOk, RecOk, ChainOk, ScanOk, ListOk, LinkedOk, SlotsOk, TableOk, ScansOk;
    InvAt(s, t, 0, 0, 0);
    var s' := ReleaseRec(s, t, r, cur, c, res);
    NoScans(s', t);
    NoTable(s', t, s'.threads[t]);
  }

  /** Publishing a record puts it on top of the shared list. */
  lemma KeepAddRecord(s: State, t: Tid, r: Addr, res: Option<Value>, k: Cont, spurious: bool)
    requires Inv(s) && t in s.threads && s.threads[t] == AddCas(r, res, k)
    ensures Inv(AddRecord(s, t, r, res, k, spurious)) && GuardsKept(s, AddRecord(s, t, r, res, k, spurious), t)
  {
    hide GuardsKept, Inv;
    HeldRec(s, t, r);
    if s.list == s.recs[r].next && !spurious {
      KeepAdded(s, t, r, res, k);
    } else {
      KeepLinkRecord(s, t, r, res, k);
    }
  }

  lemma KeepAdded(s: State, t: Tid, r: Addr, res: Option<Value>, k: Cont)
    requires Inv(s) && t in s.threads && s.threads[t] == AddCas(r, res, k) && r in s.recs && s.list == s.recs[r].next
    ensures Inv(AddRecord(s, t, r, res, k, false)) && GuardsKept(s, AddRecord(s, t, r, res, k, false), t)
  {
    hide GuardsKept, Below, Inv, NodeOk, ChainOk, ScanOk, LinkedOk, RecOk, SlotsOk, ThreadOk, ListOk, StepAt, RecRespected, ChainsRespected, LinkedRespected;
    InvAt(s, t, 0, r, 0);
    var s' := AddRecord(s, t, r, res, k, false);
    NoScans(s', t);
    hide ScansOk, Scans, Guards;
    AddLocal(s, t, r, res, k);
    KeepLinked(s, s', None);
    SameSlots(s, s');
    KeepFrame(s, s', t, None, Some(r), DrainSet(s.threads[t]) + {s.listed});
  }

  lemma SameSlots(s: State, s': State)
    requires SlotsOk(s) && s'.slots == s.slots && s'.mine == s.mine
    ensures SlotsOk(s')
  {
  }

  lemma AddLocal(s: State, t: Tid, r: Addr, res: Option<Value>, k: Cont)
    requires Inv(s) && t in s.threads && s.threads[t] == AddCas(r, res, k) && r in s.recs && s.list == s.recs[r].next
    ensures var s' := AddRecord(s, t, r, res, k, false); var cs := DrainSet(s.threads[t]) + {s.listed};
      && StepAt(s, s', t, None, Some(r), cs)
      && RecRespected(s, s', t, None, Some(r), cs) && ChainsRespected(s, s', t, Some(r), cs)
      && RecOk(s', r) && ThreadOk(s', t) && ListOk(s')
      && forall c :: c in cs && c in s'.chains ==> ChainOk(s', c)
  {
    hide Below, Inv, NodeOk, ChainOk, ScanOk, LinkedOk, TableOk, SlotsOk, RecOk, StepAt, ThreadOk, ChainsRespected, RecRespected;
    var s' := AddRecord(s, t, r, res, k, false);
    InvAt(s, t, 0, r, s.listed);
    AddStep(s, t, r, res, k);
    AddThread(s, t, r, res, k);
    HeldRec(s, t, r);
    AddedChain(s, s', r);
    forall c | c in DrainSet(s.threads[t]) && c in s'.chains ensures ChainOk(s', c) {
      assert Drains(s', t, c);
      ChainOwner(s, c, t);
      KeepChain(s, s', c, r);
    }
  }

  lemma HeldRec(s: State, t: Tid, r: Addr)
    requires Inv(s) && t in s.threads && HeldOf(s.threads[t]) == Some(r)
    ensures r in s.recs && s.recs[r].place == Held(t)
  {
    hide Below, NodeOk, ChainOk, ScanOk, LinkedOk, TableOk, SlotsOk, RecOk, ListOk;
    assert ThreadOk(s, t);
  }

  lemma AddStep(s: State, t: Tid, r: Addr, res: Option<Value>, k: Cont)
    requires Inv(s) && t in s.threads && s.threads[t] == AddCas(r, res, k) && r in s.recs && s.list == s.recs[r].next
    ensures var s' := AddRecord(s, t, r, res, k, false); var cs := DrainSet(s.threads[t]) + {s.listed};
      && StepAt(s, s', t, None, Some(r), cs)
      && RecRespected(s, s', t, None, Some(r), cs) && ChainsRespected(s, s', t, Some(r), cs)
  {
    hide StepAt, Below, Inv, NodeOk, ChainOk, ScanOk, LinkedOk, ThreadOk, SlotsOk, RecOk;
    InvAt(s, t, 0, r, s.listed);
    HeldRec(s, t, r);
    var s' := AddRecord(s, t, r, res, k, false);
    OwnStep(s, s', t, None, Some(r), DrainSet(s.threads[t]) + {s.listed});
    if k.Resume? { ChainOwner(s, k.chain, t); }
  }

  lemma AddThread(s: State, t: Tid, r: Addr, res: Option<Value>, k: Cont)
    requires Inv(s) && t in s.threads && s.threads[t] == AddCas(r, res, k) && r in s.recs && s.list == s.recs[r].next
    ensures var s' := AddRecord(s, t, r, res, k, false);
      && RecOk(s', r) && ThreadOk(s', t) && s.listed !in DrainSet(s.threads[t])
  {
    hide Below, Inv, NodeOk, ChainOk, ScanOk, LinkedOk, SlotsOk, RecOk, ThreadOk, ListOk, AddRecord;
    AddedRec(s, t, r, res, k);
    NotListed(s, t);
    AddOwn(s, t, r, res, k);
  }

  /** The shared list is nobody's share. */
  lemma NotListed(s: State, t: Tid)
    requires Inv(s) && t in s.threads
    ensures s.listed !in DrainSet(s.threads[t])
  {
    hide Below, Inv, NodeOk, ChainOk, ScanOk, LinkedOk, SlotsOk, RecOk, ThreadOk;
    InvAt(s, t, 0, 0, 0);
    if DrainSet(s.threads[t]) != {} { ChainOwner(s, DrainOf(s.threads[t]).value.0, t); }
  }

  lemma AddOwn(s: State, t: Tid, r: Addr, res: Option<Value>, k: Cont)
    requires Inv(s) && t in s.threads && s.threads[t] == AddCas(r, res, k) && r in s.recs && s.list == s.recs[r].next
    requires s.listed !in DrainSet(s.threads[t])
    ensures ThreadOk(AddRecord(s, t, r, res, k, false), t)
  {
    hide Below, Inv, NodeOk, ChainOk, ScanOk, LinkedOk, SlotsOk, RecOk, ListOk, ThreadOk, ShareOk, Top;
    OwnShare(s, t);
    AddShare(s, t, r, res, k);
    DrainerOk(AddRecord(s, t, r, res, k, false), t);
  }

  lemma OwnShare(s: State, t: Tid)
    requires Inv(s) && t in s.threads
    ensures ShareOk(s, t, DrainOf(s.threads[t]))
  {
    hide Below, NodeOk, ChainOk, ScanOk, LinkedOk, SlotsOk, RecOk, ListOk, OwnsOk, TableOk, ShareOk;
    assert ThreadOk(s, t);
  }

  lemma AddShare(s: State, t: Tid, r: Addr, res: Option<Value>, k: Cont)
    requires t in s.threads && s.threads[t] == AddCas(r, res, k) && r in s.recs && s.list == s.recs[r].next
    requires s.listed !in DrainSet(s.threads[t]) && ShareOk(s, t, DrainOf(s.threads[t]))
    ensures var s' := AddRecord(s, t, r, res, k, false);
      && t in s'.threads && (s'.threads[t].DrainStart? || s'.threads[t].DrainNext?) && ShareOk(s', t, DrainOf(s'.threads[t]))
  {
    hide Top;
  }

  /** All that a drainer between two records has to show for itself is its share. */
  lemma DrainerOk(s: State, t: Tid)
    requires t in s.threads && (s.threads[t].DrainStart? || s.threads[t].DrainNext?) && ShareOk(s, t, DrainOf(s.threads[t]))
    ensures ThreadOk(s, t)
  {
    hide ShareOk;
  }

  lemma AddedRec(s: State, t: Tid, r: Addr, res: Option<Value>, k: Cont)
    requires Inv(s) && t in s.threads && s.threads[t] == AddCas(r, res, k) && r in s.recs && s.list == s.recs[r].next
    ensures RecOk(AddRecord(s, t, r, res, k, false), r)
  {
    hide Below, Inv, NodeOk, ChainOk, ScanOk, LinkedOk, TableOk, SlotsOk, ThreadOk;
    InvAt(s, t, 0, r, s.listed);
    HeldRec(s, t, r);
  }

  lemma AddedChain(s: State, s': State, r: Addr)
    requires ListOk(s) && ChainOk(s, s.listed) && r in s.recs && s.list == s.recs[r].next && !s.recs[r].place.InChain?
    requires var q := s.chains[s.listed].recs;
      && s'.listed == s.listed && s'.list == Some(r) && s'.chains == s.chains[s.listed := Chain(None, q + [r])]
      && s'.recs == s.recs[r := s.recs[r].(place := InChain(s.listed, |q|))]
    ensures ChainOk(s', s.listed) && ListOk(s')
  {
    hide Below;
    var q, q' := s.chains[s.listed].recs, s'.chains[s.listed].recs;
    BelowKept(q', q);
    forall i | 0 <= i < |q'|
      ensures q'[i] in s'.recs && s'.recs[q'[i]].place == InChain(s.listed, i) && s'.recs[q'[i]].next == Below(q', i)
    {
      if i < |q| { assert q'[i] == q[i]; }
    }
  }

  /** The exchange hands the whole list to the drainer and leaves an empty one. */
  lemma KeepTakeList(s: State, t: Tid, d: ChainId, res: Option<Value>)
    requires Inv(s) && t in s.threads && s.threads[t] == DrainStart(res) && d !in s.chains
    ensures Inv(TakeList(s, t, d, res)) && GuardsKept(s, TakeList(s, t, d, res), t)
  {
    hide GuardsKept;
    hide Below, Inv, NodeOk, ScanOk, LinkedOk, RecOk, StepAt, ThreadOk, ChainOk, ChainsRespected;
    var s' := TakeList(s, t, d, res);
    InvAt(s, t, 0, 0, s.listed);
    TakeStep(s, t, d, res);
    NoScans(s', t);
    NoTable(s', t, s'.threads[t]);
    KeepLinked(s, s', None);
    hide LinkedRespected;
    assert ThreadOk(s', t) by { TakeThread(s, t, d, res); }
    KeepFrame(s, s', t, None, None, {s.listed, d});
  }

  lemma TakeThread(s: State, t: Tid, d: ChainId, res: Option<Value>)
    requires ListOk(s) && d !in s.chains
    ensures ThreadOk(TakeList(s, t, d, res), t)
  {
    hide TableOk;
    var s' := TakeList(s, t, d, res);
    NoTable(s', t, s'.threads[t]);
  }

  lemma TakeStep(s: State, t: Tid, d: ChainId, res: Option<Value>)
    requires Inv(s) && t in s.threads && s.threads[t] == DrainStart(res) && d !in s.chains
    ensures var s' := TakeList(s, t, d, res);
      && StepAt(s, s', t, None, None, {s.listed, d}) && ChainsRespected(s, s', t, None, {s.listed, d})
      && ChainOk(s', s.listed) && ChainOk(s', d)
  {
    hide StepAt, Below, Inv, NodeOk, ScanOk, LinkedOk, RecOk, ThreadOk, SlotsOk, ChainOk;
    InvAt(s, t, 0, 0, s.listed);
    OwnStep(s, TakeList(s, t, d, res), t, None, None, {s.listed, d});
    TakenList(s, t, d, res);
  }

  lemma TakenList(s: State, t: Tid, d: ChainId, res: Option<Value>)
    requires t in s.threads && s.threads[t] == DrainStart(res) && d !in s.chains && ListOk(s) && ChainOk(s, s.listed)
    ensures var s' := TakeList(s, t, d, res);
      ChainOk(s', s.listed) && ChainOk(s', d) && ChainsRespected(s, s', t, None, {s.listed, d})
  {
    hide Below;
    assert Drains(TakeList(s, t, d, res), t, s.listed);
  }

  /** Taking the next record of the share, or leaving the loop with the share used up. */
  lemma KeepDrainNext(s: State, t: Tid, cur: Option<Addr>, c: ChainId, res: Option<Value>)
    requires Inv(s) && t in s.threads && s.threads[t] == DrainNext(cur, c, res)
    ensures Inv(NextRecord(s, t, cur, c, res)) && GuardsKept(s, NextRecord(s, t, cur, c, res), t)
  {
    hide GuardsKept, Below, Inv, NodeOk, ScanOk, ScansOk, RecOk, ChainOk, TableOk, StepAt, RecRespected, ChainsRespected, ThreadOk;
    hide LinkedRespected, LinkedOk, ListOk, SlotsOk, NodeRespected;
    InvAt(s, t, 0, 0, c);
    DrainStep(s, t, cur, c, res);
    DrainThread(s, t, cur, c, res);
    DrainFrame(s, t, cur, c, res);
    DrainChain(s, t, cur, c, res);
    KeepFrame(s, NextRecord(s, t, cur, c, res), t, None, cur, {c});
  }

  /** Taking a record touches neither the table nor a node. */
  lemma DrainFrame(s: State, t: Tid, cur: Option<Addr>, c: ChainId, res: Option<Value>)
    requires t in s.threads && s.threads[t] == DrainNext(cur, c, res) && LinkedOk(s) && SlotsOk(s)
    ensures
      var s' := NextRecord(s, t, cur, c, res);
      && LinkedOk(s') && LinkedRespected(s, s', None) && SlotsOk(s') && NodeRespected(s, s', t, None, cur)
      && t in s'.threads && ScansOk(s', t)
  {
    hide LinkedOk, LinkedRespected, SlotsOk, ScansOk, Below;
    var s' := NextRecord(s, t, cur, c, res);
    KeepLinked(s, s', None);
    SameSlots(s, s');
    NoScans(s', t);
  }

  lemma DrainChain(s: State, t: Tid, cur: Option<Addr>, c: ChainId, res: Option<Value>)
    requires Inv(s) && t in s.threads && s.threads[t] == DrainNext(cur, c, res)
    ensures var s' := NextRecord(s, t, cur, c, res); c in s'.chains ==> ChainOk(s', c)
  {
    hide Below, Inv, NodeOk, ScanOk, RecOk, ChainOk, ThreadOk;
    var s' := NextRecord(s, t, cur, c, res);
    ChainOwner(s, c, t);
    DrainTop(s, t, cur, c, res);
    if cur.Some? { assert Drains(s', t, c); TakenChain(s, s', t, c, cur.value); }
  }

  lemma DrainStep(s: State, t: Tid, cur: Option<Addr>, c: ChainId, res: Option<Value>)
    requires Inv(s) && t in s.threads && s.threads[t] == DrainNext(cur, c, res)
    ensures var s' := NextRecord(s, t, cur, c, res);
      && StepAt(s, s', t, None, cur, {c}) && ChainsRespected(s, s', t, cur, {c})
      && RecRespected(s, s', t, None, cur, {c})
  {
    hide StepAt, Below, Inv, NodeOk, ScanOk, LinkedOk, ChainOk, SlotsOk, RecOk, ThreadOk;
    InvAt(s, t, 0, 0, c);
    DrainTop(s, t, cur, c, res);
    OwnStep(s, NextRecord(s, t, cur, c, res), t, None, cur, {c});
  }

  lemma DrainTop(s: State, t: Tid, cur: Option<Addr>, c: ChainId, res: Option<Value>)
    requires Inv(s) && t in s.threads && s.threads[t] == DrainNext(cur, c, res)
    ensures c in s.chains && s.chains[c].owner == Some(t) && cur == Top(s.chains[c].recs)
    ensures cur.Some? ==> cur.value in s.recs && s.recs[cur.value].place == InChain(c, |s.chains[c].recs| - 1)
  {
    hide Below, NodeOk, ScanOk, LinkedOk, SlotsOk, RecOk, TableOk, OwnsOk, ListOk;
    assert ThreadOk(s, t);
    assert ChainOk(s, c);
  }

  lemma DrainThread(s: State, t: Tid, cur: Option<Addr>, c: ChainId, res: Option<Value>)
    requires Inv(s) && t in s.threads && s.threads[t] == DrainNext(cur, c, res)
    ensures var s' := NextRecord(s, t, cur, c, res);
      && (cur.Some? && cur.value in s'.recs ==> RecOk(s', cur.value)) && ThreadOk(s', t) && ListOk(s')
  {
    hide Below, Inv, NodeOk, ScanOk, LinkedOk, ChainOk, SlotsOk, ThreadOk, RecOk;
    InvAt(s, t, 0, 0, 0);
    DrainTop(s, t, cur, c, res);
    ChainOwner(s, c, t);
    assert ListOk(NextRecord(s, t, cur, c, res)) by { ListKept(s, t, cur, c, res); }
    hide ListOk;
    DrainOwn(s, t, cur, c, res);
    if cur.Some? { DrainRec(s, t, cur.value, c, res); }
  }

  lemma ListKept(s: State, t: Tid, cur: Option<Addr>, c: ChainId, res: Option<Value>)
    requires ListOk(s) && c in s.chains && s.chains[c].owner == Some(t)
    ensures ListOk(NextRecord(s, t, cur, c, res))
  {
    hide Below;
  }

  /** The record a drainer takes is its own from now on, with the node still parked in it. */
  lemma DrainRec(s: State, t: Tid, r: Addr, c: ChainId, res: Option<Value>)
    requires Inv(s) && t in s.threads && s.threads[t] == DrainNext(Some(r), c, res) && r in s.recs
    ensures r in NextRecord(s, t, Some(r), c, res).recs && RecOk(NextRecord(s, t, Some(r), c, res), r)
  {
    hide Below, Inv, NodeOk, ScanOk, LinkedOk, ChainOk, SlotsOk, ThreadOk, ListOk;
    DrainTop(s, t, Some(r), c, res);
    InvAt(s, t, 0, r, 0);
  }

  lemma DrainOwn(s: State, t: Tid, cur: Option<Addr>, c: ChainId, res: Option<Value>)
    requires Inv(s) && t in s.threads && s.threads[t] == DrainNext(cur, c, res)
    ensures ThreadOk(NextRecord(s, t, cur, c, res), t)
  {
    hide Below, Inv, NodeOk, ScanOk, LinkedOk, ChainOk, SlotsOk, TableOk, RecOk, ListOk;
    InvAt(s, t, 0, 0, c);
    DrainTop(s, t, cur, c, res);
    var s' := NextRecord(s, t, cur, c, res);
    NoTable(s', t, s'.threads[t]);
    if cur.Some? {
      ChainOwner(s, c, t);
      assert Drains(s', t, c);
      TakenChain(s, s', t, c, cur.value);
    }
  }

  lemma TakenChain(s: State, s': State, t: Tid, c: ChainId, r: Addr)
    requires c in s.chains && ChainOk(s, c) && Top(s.chains[c].recs) == Some(r)
    requires var q := s.chains[c].recs;
      && s'.listed == s.listed && s'.chains == s.chains[c := Chain(Some(t), q[..|q| - 1])]
      && r in s.recs && s'.recs == s.recs[r := s.recs[r].(place := Held(t))]
    requires Drains(s', t, c)
    ensures ChainOk(s', c) && s.recs[r].place.InChain? && s.recs[r].place.chain == c
    ensures s.recs[r].next == Top(s'.chains[c].recs)
  {
    hide Below;
    var q, q' := s.chains[c].recs, s'.chains[c].recs;
    BelowKept(q, q');
    assert q[|q| - 1] == r;
    forall i | 0 <= i < |q'|
      ensures q'[i] in s'.recs && s'.recs[q'[i]].place == InChain(c, i) && s'.recs[q'[i]].next == Below(q', i)
    {
      assert q'[i] == q[i];
    }
  }

  lemma KeepFinish(s: State, t: Tid)
    requires Inv(s) && t in s.threads && (s.threads[t].Returning? || s.threads[t].NoSlot?)
    ensures Inv(s.(threads := s.threads - {t})) && GuardsKept(s, s.(threads := s.threads - {t}), t)
  {
    hide GuardsKept;
    Leave(s, s.(threads := s.threads - {t}), t);
  }

  /** Giving the slot back: whoever leaves guards nothing and claims nothing. */
  lemma KeepReleaseSlot(s: State, t: Tid)
    requires Inv(s) && t in s.threads && s.threads[t] == ExitRelease
    ensures Inv(ReleaseSlot(s, t)) && GuardsKept(s, ReleaseSlot(s, t), t)
  {
    hide GuardsKept;
    hide Below, NodeOk, RecOk, ChainOk, LinkedOk, OwnsOk, RecordsOk, ScanOk, ListOk;
    assert ThreadOk(s, t);
    Leave(s, ReleaseSlot(s, t), t);
  }

  lemma Leave(s: State, s': State, t: Tid)
    requires Inv(s) && t in s.threads && (s.threads[t].Returning? || s.threads[t].NoSlot? || s.threads[t].ExitRelease?)
    requires s' == s.(threads := s.threads - {t}, slots := s'.slots, mine := s'.mine)
    requires |s'.slots| == |s.slots|
    requires forall u :: u in s'.mine ==> u in s.mine && s'.mine[u] == s.mine[u]
    requires forall u :: u in s.mine && u != t ==> u in s'.mine
    requires forall u :: u in s'.mine && s.mine[u] < |s.slots| && s.slots[s.mine[u]].id == Some(u) ==> s'.slots[s.mine[u]] == s.slots[s.mine[u]]
    ensures Inv(s') && GuardsKept(s, s', t)
  {
    hide GuardsKept;
    hide Below, ScanOk, ListOk, LinkedOk;
    LeaveNodes(s, s', t);
    LeaveThreads(s, s', t);
    SlotLinked(s, s');
    SameList(s, s');
    forall u, v ensures ScanOk(s', u, v) { LeaveScan(s, s', u, v); }
    SameHeapGuards(s, s', t);
  }

  lemma LeaveScan(s: State, s': State, u: Tid, v: Tid)
    requires ScanOk(s, u, v)
    requires forall w :: w in s'.threads ==> w in s.threads && s'.threads[w] == s.threads[w]
    requires forall w :: w in s'.mine ==> w in s.mine && s'.mine[w] == s.mine[w]
    ensures ScanOk(s', u, v)
  {
  }

  lemma LeaveNodes(s: State, s': State, t: Tid)
    requires Inv(s) && t in s.threads && (s.threads[t].Returning? || s.threads[t].NoSlot? || s.threads[t].ExitRelease?)
    requires s' == s.(threads := s.threads - {t}, slots := s'.slots, mine := s'.mine)
    ensures forall a :: a in s'.heap ==> NodeOk(s', a)
    ensures forall r :: r in s'.recs ==> RecOk(s', r)
    ensures forall c :: c in s'.chains ==> ChainOk(s', c)
  {
    hide Below, ThreadOk, SlotsOk, ListOk, LinkedOk, ScanOk;
    forall a | a in s'.heap ensures NodeOk(s', a) { hide RecOk, ChainOk; assert NodeOk(s, a); }
    forall r | r in s'.recs ensures RecOk(s', r) { hide NodeOk, ChainOk; assert RecOk(s, r); }
    forall c | c in s'.chains ensures ChainOk(s', c) { hide NodeOk, RecOk; assert ChainOk(s, c); }
  }

  lemma LeaveThreads(s: State, s': State, t: Tid)
    requires Inv(s)
    requires s' == s.(threads := s.threads - {t}, slots := s'.slots, mine := s'.mine)
    requires |s'.slots| == |s.slots|
    requires forall u :: u in s'.mine ==> u in s.mine && s'.mine[u] == s.mine[u]
    requires forall u :: u in s.mine && u != t ==> u in s'.mine
    requires forall u :: u in s'.mine && s.mine[u] < |s.slots| && s.slots[s.mine[u]].id == Some(u) ==> s'.slots[s.mine[u]] == s.slots[s.mine[u]]
    ensures forall u :: u in s'.threads ==> ThreadOk(s', u)
  {
    hide Below, NodeOk, RecOk, ChainOk, LinkedOk, OwnsOk, RecordsOk, ScanOk, ListOk;
    forall u | u in s'.threads ensures ThreadOk(s', u) {
      assert ThreadOk(s, u);
      SlotOwns(s, s', u, s.threads[u]);
    }
  }

  /** The steps of a popper once its scan has met a guard, and of the draining. */
  predicate Reclaiming(th: Thread) {
    th.Retire? || th.AddLink? || th.AddCas? || th.DrainStart? || th.DrainNext? || th.ScanRec? || th.FreeData? || th.FreeRec?
  }

  lemma KeepReclaim(s: State, t: Tid, c: Choice)
    requires Inv(s) && Enabled(s, t, c) && c.Continue? && Reclaiming(s.threads[t])
    ensures Inv(Next(s, t, c)) && GuardsKept(s, Next(s, t, c), t)
  {
    hide Inv, GuardsKept, MakeRecord, LinkRecord, AddRecord, TakeList, NextRecord, ScanForRec, ReleaseData, ReleaseRec;
    match s.threads[t]
    case Retire(p, res) => KeepRetire(s, t, p, c.addr, res);
    case AddLink(r, res, k) => KeepLinkRecord(s, t, r, res, k);
    case AddCas(r, res, k) => KeepAddRecord(s, t, r, res, k, c.spurious);
    case DrainStart(res) => KeepTakeList(s, t, c.addr, res);
    case DrainNext(cur, chain, res) => KeepDrainNext(s, t, cur, chain, res);
    case ScanRec(r, p, i, cur, chain, res) => KeepScanForRec(s, t, r, p, i, cur, chain, res);
    case FreeData(r, p, cur, chain, res) => KeepFreeData(s, t, r, p, cur, chain, res);
    case FreeRec(r, cur, chain, res) => KeepFreeRec(s, t, r, cur, chain, res);
  }

  /** Every step of every thread keeps the invariant, and the nodes others guard. */
  lemma Preservation(s: State, t: Tid, c: Choice)
    requires Inv(s) && Enabled(s, t, c)
    ensures Inv(Next(s, t, c)) && GuardsKept(s, Next(s, t, c), t)
  {
    hide GuardsKept, Below, Inv, NodeOk, RecOk, ChainOk, LinkedOk, ScanOk, ListOk, SlotsOk;
    hide Allocate, SetNext, PushCommit, ClaimSlot, LoadHead, WriteSlot, Recheck, ReadNext, Unlink, SwapData, ScanForOwn, ReleaseOwn;
    if t in s.threads { InvAt(s, t, 0, 0, 0); }
    match c
    case BeginPush(v) => KeepBegin(s, t, PushStart(v));
    case BeginPop => KeepBegin(s, t, if t in s.mine then PopStart else Claim(0));
    case Exit => KeepBegin(s, t, ExitClear);
    case Continue(a, spurious) =>
      if Reclaiming(s.threads[t]) {
        KeepReclaim(s, t, c);
      } else {
        match s.threads[t]
        case PushStart(v) => KeepAllocate(s, t, v, a);
        case PushLoad(n) => KeepSetNext(s, t, n);
        case PushCas(n) => KeepPushCommit(s, t, n, spurious);
        case Claim(i) => KeepClaim(s, t, i);
        case PopStart => KeepLoadHead(s, t);
        case Publish(seen, _) => KeepWriteSlot(s, t, seen, Revalidate(seen));
        case Revalidate(seen) => KeepRecheck(s, t, seen);
        case Validated(p) => KeepReadNext(s, t, p);
        case NextRead(p, next) => KeepUnlink(s, t, p, next);
        case ClearWon(p) => KeepWriteSlot(s, t, None, Swap(p));
        case ClearEmpty => KeepWriteSlot(s, t, None, Returning(None));
        case Swap(p) => KeepSwap(s, t, p);
        case ScanOwn(p, i, res) => KeepScanForOwn(s, t, p, i, res);
        case FreeOwn(p, res) => KeepFreeOwn(s, t, p, res);
        case Returning(_) => KeepFinish(s, t);
        case NoSlot => KeepFinish(s, t);
        case ExitClear => KeepWriteSlot(s, t, None, ExitRelease);
        case ExitRelease => KeepReleaseSlot(s, t);
      }
  }

  lemma KeepBegin(s: State, t: Tid, th: Thread)
    requires Inv(s) && t !in s.threads
    requires th.PushStart? || (th.PopStart? && t in s.mine) || (th == Claim(0) && t !in s.mine) || (th.ExitClear? && t in s.mine)
    ensures Inv(At(s, t, th)) && GuardsKept(s, At(s, t, th), t)
  {
    hide GuardsKept;
    hide Below, Inv, NodeOk, RecOk, ChainOk, LinkedOk, ScanOk, ListOk, SlotsOk;
    NoScans(At(s, t, th), t);
    KeepMove(s, t, th);
  }

  // ---------------------------------------------------------------------------------------
  // Safety over whole runs
  // ---------------------------------------------------------------------------------------

  /** A finite run: states joined by enabled steps, any threads interleaving in any order. */
  ghost predicate Run(states: seq<State>, who: seq<Tid>, how: seq<Choice>) {
    && |states| == |who| + 1 && |who| == |how|
    && Init(states[0])
    && forall i :: 0 <= i < |who| ==> Enabled(states[i], who[i], how[i]) && states[i + 1] == Next(states[i], who[i], how[i])
  }

  lemma InitInv(s: State)
    requires Init(s)
    ensures Inv(s)
  {
    hide NodeOk, RecOk, ThreadOk, Below;
    forall t, u ensures ScanOk(s, t, u) { }
  }

  lemma {:induction false} RunKeeps(states: seq<State>, who: seq<Tid>, how: seq<Choice>, i: nat)
    requires Run(states, who, how) && i < |states|
    ensures Inv(states[i])
  {
    hide Inv, Next, Init;
    if i == 0 {
      InitInv(states[0]);
    } else {
      RunKeeps(states, who, how, i - 1);
      assert Enabled(states[i - 1], who[i - 1], how[i - 1]);
      Preservation(states[i - 1], who[i - 1], how[i - 1]);
    }
  }

  /** No run touches or releases an unallocated address.  From its validation until its
      thread writes the slot again, a guarded node stays in the table, allocated, and with
      its link: no step of any thread releases or relinks it. */
  lemma NoUseAfterFree(states: seq<State>, who: seq<Tid>, how: seq<Choice>, i: nat, u: Tid, p: Addr)
    requires Run(states, who, how) && i < |who|
    ensures !states[i].fault && !states[i + 1].fault
    ensures Guarded(states[i], u, p) ==>
      && p in states[i].heap && u in states[i].mine && states[i].mine[u] < |states[i].slots|
      && states[i].slots[states[i].mine[u]].ptr == Some(p)
      && p in states[i + 1].heap && states[i + 1].heap[p].next == states[i].heap[p].next
  {
    var s, s' := states[i], states[i + 1];
    RunKeeps(states, who, how, i);
    assert Enabled(s, who[i], how[i]) && s' == Next(s, who[i], how[i]);
    Preservation(s, who[i], how[i]);
    hide Below, NodeOk, RecOk, ChainOk, LinkedOk, ScanOk, ListOk, SlotsOk, Next, OwnsOk, RecordsOk;
    if Guarded(s, u, p) {
      assert ThreadOk(s, u);
      if u == who[i] { OwnGuard(s, u, how[i], p); }
    }
  }

  /** A thread does not touch the node it guards until it has written its slot. */
  lemma OwnGuard(s: State, t: Tid, c: Choice, p: Addr)
    requires Enabled(s, t, c) && Guarded(s, t, p) && p in s.heap
    ensures p in Next(s, t, c).heap && Next(s, t, c).heap[p].next == s.heap[p].next
  {
    hide Allocate, SetNext, PushCommit, ClaimSlot, LoadHead, Recheck, SwapData, ScanForOwn, ReleaseOwn, ReleaseSlot;
    hide MakeRecord, LinkRecord, AddRecord, TakeList, NextRecord, ScanForRec, ReleaseData, ReleaseRec;
    match c
    case BeginPush(_) =>
    case BeginPop =>
    case Exit =>
    case Continue(_, _) =>
      match s.threads[t]
      case Validated(_) =>
      case NextRead(_, _) =>
      case Publish(_, _) =>
      case ClearWon(_) =>
  }

  /** Every unlinked node is in one place only: in the hands of the popper that unlinked it,
      or in one record; and that record is on the shared list, in one drainer's share of it,
      or in one thread's hands. */
  lemma OnePlace(states: seq<State>, who: seq<Tid>, how: seq<Choice>, i: nat, a: Addr)
    requires Run(states, who, how) && i < |states| && a in states[i].heap
    ensures var s := states[i];
      match s.heap[a].place
      case Private(t) => t in s.threads && PrivateOf(s.threads[t]) == Some(a) && a !in s.linked
      case Linked(d) => d < |s.linked| && s.linked[d] == a
      case Owned(t) => t in s.threads && OwnedOf(s.threads[t]) == Some(a) && a !in s.linked
                       && forall r :: r in s.recs && !s.recs[r].place.Husk? ==> s.recs[r].data != a
      case Parked(r) => r in s.recs && s.recs[r].data == a && a !in s.linked
                        && (forall q :: q in s.recs && !s.recs[q].place.Husk? && s.recs[q].data == a ==> q == r)
                        && (forall t :: t in s.threads ==> OwnedOf(s.threads[t]) != Some(a))
  {
    hide ChainOk, ScanOk, ListOk, SlotsOk, Below;
    RunKeeps(states, who, how, i);
    var s := states[i];
    assert NodeOk(s, a);
    if a in s.linked { LinkedPlace(s, a); }
    forall r | r in s.recs && !s.recs[r].place.Husk? && s.recs[r].data == a ensures s.heap[a].place == Parked(r) {
      assert RecOk(s, r);
    }
    forall t | t in s.threads && OwnedOf(s.threads[t]) == Some(a) ensures s.heap[a].place == Owned(t) {
      assert ThreadOk(s, t);
    }
  }

  /** A record that still has its node stands in exactly one chain or one pair of hands. */
  lemma RecordPlace(states: seq<State>, who: seq<Tid>, how: seq<Choice>, i: nat, r: Addr)
    requires Run(states, who, how) && i < |states| && r in states[i].recs
    ensures var s := states[i];
      match s.recs[r].place
      case InChain(c, d) => c in s.chains && d < |s.chains[c].recs| && s.chains[c].recs[d] == r
                            && (c == s.listed || exists t :: Drains(s, t, c))
      case Held(t) => t in s.threads && HeldOf(s.threads[t]) == Some(r)
      case Husk(t) => t in s.threads && HuskOf(s.threads[t]) == Some(r)
  {
    hide ThreadOk, NodeOk, ScanOk, ListOk, SlotsOk, LinkedOk, Below;
    RunKeeps(states, who, how, i);
    var s := states[i];
    assert RecOk(s, r);
    if s.recs[r].place.InChain? {
      var c := s.recs[r].place.chain;
      assert ChainOk(s, c);
      assert s.chains[c].owner.Some? ==> Drains(s, s.chains[c].owner.value, c);
    }
  }

  /** Nothing is lost: with no operation under way, a node is linked or waits on the list. */
  lemma QuiescentHeap(states: seq<State>, who: seq<Tid>, how: seq<Choice>, i: nat)
    requires Run(states, who, how) && i < |states| && states[i].threads == map[]
    ensures states[i].listed in states[i].chains
    ensures
      var s := states[i];
      var waiting := set r | r in s.chains[s.listed].recs && r in s.recs :: s.recs[r].data;
      s.heap.Keys == (set a | a in s.linked) + waiting
  {
    RunKeeps(states, who, how, i);
    var s := states[i];
    hide Inv;
    InvAt(s, 0, 0, 0, s.listed);
    forall a | a in s.heap ensures a in s.linked || Waits(s, a) { QuiescentNode(s, a); }
    forall r | r in s.chains[s.listed].recs && r in s.recs ensures s.recs[r].data in s.heap { QuiescentRec(s, r); }
    assert forall a :: a in s.linked ==> a in s.heap by { hide Below, NodeOk, RecOk, ChainOk, ThreadOk; }
  }

  ghost predicate Waits(s: State, a: Addr) {
    s.listed in s.chains && exists r :: r in s.chains[s.listed].recs && r in s.recs && s.recs[r].data == a
  }

  lemma QuiescentNode(s: State, a: Addr)
    requires Inv(s) && s.threads == map[] && a in s.heap
    ensures a in s.linked || Waits(s, a)
  {
    hide Inv, Below, ScanOk, SlotsOk, ThreadOk, LinkedOk;
    InvAt(s, 0, a, 0, 0);
    if s.heap[a].place.Parked? {
      var r := s.heap[a].place.rec;
      InvAt(s, 0, a, r, 0);
      InvAt(s, 0, a, r, s.recs[r].place.chain);
      assert r in s.chains[s.listed].recs;
    }
  }

  lemma QuiescentRec(s: State, r: Addr)
    requires Inv(s) && s.threads == map[] && r in s.recs
    ensures s.recs[r].data in s.heap
  {
    hide Inv, Below, ScanOk, SlotsOk, ThreadOk, LinkedOk, NodeOk, ChainOk;
    InvAt(s, 0, 0, r, 0);
  }

  // ---------------------------------------------------------------------------------------
  // Refinement of the atomic stack
  // ---------------------------------------------------------------------------------------

  function DataAt(heap: map<Addr, Node>, a: Addr): Option<Value> {
    if a in heap then heap[a].data else None
  }

  function CallOf(heap: map<Addr, Node>, th: Thread): Call {
    match th
    case PushStart(v) => Push(Some(v))
    case PushLoad(n) => Push(DataAt(heap, n))
    case PushCas(n) => Push(DataAt(heap, n))
    case ClearWon(p) => Done(DataAt(heap, p))
    case Swap(p) => Done(DataAt(heap, p))
    case ClearEmpty => Done(None)
    case ScanOwn(_, _, res) => Done(res)
    case FreeOwn(_, res) => Done(res)
    case Retire(_, res) => Done(res)
    case AddLink(_, res, _) => Done(res)
    case AddCas(_, res, _) => Done(res)
    case DrainStart(res) => Done(res)
    case DrainNext(_, _, res) => Done(res)
    case ScanRec(_, _, _, _, _, res) => Done(res)
    case FreeData(_, _, _, _, res) => Done(res)
    case FreeRec(_, _, _, res) => Done(res)
    case Returning(res) => Done(res)
    case _ => Pop
  }

  predicate Exiting(th: Thread) {
    th.ExitClear? || th.ExitRelease?
  }

  ghost function Abs(s: State): Spec {
    Spec(seq(|s.linked|, i requires 0 <= i < |s.linked| => DataAt(s.heap, s.linked[i])),
         map t | t in s.threads && !Exiting(s.threads[t]) :: CallOf(s.heap, s.threads[t]))
  }

  /** Where an operation takes effect: the successful compare-exchange of `push` and of
      `pop`, and the second look that finds head_ null; `pop` without a slot is abandoned. */
  ghost function ActionOf(s: State, t: Tid, c: Choice): Action
    requires Enabled(s, t, c)
  {
    match c
    case BeginPush(v) => Begin(Push(Some(v)))
    case BeginPop => Begin(Pop)
    case Exit => Stutter
    case Continue(_, spurious) =>
      match s.threads[t]
      case PushCas(n) => if n in s.heap && s.head == s.heap[n].next && !spurious then Commit else Stutter
      case Revalidate(seen) => if s.head == seen && seen.None? then Commit else Stutter
      case NextRead(p, _) => if s.head == Some(p) then Commit else Stutter
      case Returning(_) => End
      case NoSlot => Abandon
      case _ => Stutter
  }

  /** Calls of other threads read only nodes that `t` does not own. */
  lemma SameCalls(s: State, heap: map<Addr, Node>, t: Tid)
    requires Inv(s)
    requires forall b :: b in s.heap && OwnerOf(s.heap[b].place).Some? && OwnerOf(s.heap[b].place) != Some(t) ==>
      DataAt(heap, b) == s.heap[b].data
    ensures forall u :: u in s.threads && u != t ==> CallOf(heap, s.threads[u]) == CallOf(s.heap, s.threads[u])
  {
    hide Below, RecOk, ChainOk, LinkedOk, NodeOk, ScanOk, ListOk, SlotsOk, RecordsOk, TableOk;
    forall u | u in s.threads && u != t ensures CallOf(heap, s.threads[u]) == CallOf(s.heap, s.threads[u]) {
      assert ThreadOk(s, u);
    }
  }

  /** A step that changes no data in the stack or in another thread's hands. */
  lemma RefineLocal(s: State, s': State, t: Tid)
    requires Inv(s) && t in s'.threads && s'.threads == s.threads[t := s'.threads[t]] && !Exiting(s'.threads[t])
    requires s'.linked == s.linked
    requires forall b :: b in s.heap && OwnerOf(s.heap[b].place) != Some(t) && !s.heap[b].place.Parked? ==>
      DataAt(s'.heap, b) == s.heap[b].data
    ensures Abs(s').stack == Abs(s).stack
    ensures Abs(s').calls == Abs(s).calls[t := CallOf(s'.heap, s'.threads[t])]
  {
    hide Below, RecOk, ChainOk, NodeOk, ScanOk, ListOk, SlotsOk, ThreadOk;
    SameCalls(s, s'.heap, t);
    assert LinkedOk(s);
  }

  lemma RefinePushCommit(s: State, t: Tid, n: Addr)
    requires Inv(s) && t in s.threads && s.threads[t] == PushCas(n) && n in s.heap && s.head == s.heap[n].next
    requires SpecEnabled(Abs(s), t, Commit)
    ensures Abs(PushCommit(s, t, n, false)) == SpecNext(Abs(s), t, Commit)
  {
    hide Below, Inv, RecOk, ChainOk, NodeOk, ScanOk, ListOk, SlotsOk, ThreadOk, LinkedOk, RecordsOk, TableOk, OwnsOk;
    InvAt(s, t, n, 0, 0);
    var s' := PushCommit(s, t, n, false);
    PushStack(s, s', n);
    PushCalls(s, s', t, n);
    hide Abs;
    assert Abs(s').stack == Abs(s).stack + [s.heap[n].data];
  }

  lemma PushStack(s: State, s': State, n: Addr)
    requires LinkedOk(s) && n in s.heap && s'.linked == s.linked + [n]
    requires forall b :: b in s.heap ==> b in s'.heap && s'.heap[b].data == s.heap[b].data
    ensures Abs(s').stack == Abs(s).stack + [s.heap[n].data]
  {
    hide Below, CallOf;
  }

  lemma PushCalls(s: State, s': State, t: Tid, n: Addr)
    requires Inv(s) && t in s.threads && s.threads[t] == PushCas(n) && n in s.heap
    requires s'.threads == s.threads[t := Returning(None)] && s'.heap.Keys == s.heap.Keys
    requires forall b :: b in s.heap ==> b in s'.heap && s'.heap[b].data == s.heap[b].data
    ensures t in Abs(s).calls && Abs(s).calls[t] == Push(s.heap[n].data) && Abs(s').calls == Abs(s).calls[t := Done(None)]
  {
    hide Inv;
    SameCalls(s, s'.heap, t);
  }

  lemma RefineUnlink(s: State, t: Tid, p: Addr, next: Option<Addr>)
    requires Inv(s) && t in s.threads && s.threads[t] == NextRead(p, next) && s.head == Some(p) && SpecEnabled(Abs(s), t, Commit)
    ensures Abs(Unlink(s, t, p, next)) == SpecNext(Abs(s), t, Commit)
  {
    hide Below, Inv, RecOk, ChainOk, NodeOk, ScanOk, ListOk, SlotsOk, ThreadOk, LinkedOk, RecordsOk, TableOk, OwnsOk;
    InvAt(s, t, p, 0, 0);
    HeadLinked(s, p);
    var s' := Unlink(s, t, p, next);
    UnlinkStack(s, s', p);
    UnlinkCalls(s, s', t, p);
    hide Abs;
    assert Abs(s').stack == Abs(s).stack[..|s.linked| - 1];
  }

  lemma UnlinkCalls(s: State, s': State, t: Tid, p: Addr)
    requires Inv(s) && t in s.threads && s.threads[t].NextRead? && p in s.heap
    requires s'.threads == s.threads[t := ClearWon(p)] && s'.heap.Keys == s.heap.Keys
    requires forall b :: b in s.heap ==> b in s'.heap && s'.heap[b].data == s.heap[b].data
    ensures t in Abs(s).calls && Abs(s).calls[t] == Pop && Abs(s').calls == Abs(s).calls[t := Done(s.heap[p].data)]
    ensures |Abs(s).stack| == |s.linked|
  {
    hide Inv;
    SameCalls(s, s'.heap, t);
  }

  lemma UnlinkStack(s: State, s': State, p: Addr)
    requires LinkedOk(s) && s.linked != [] && s.linked[|s.linked| - 1] == p && p in s.heap
    requires s'.linked == s.linked[..|s.linked| - 1]
    requires forall b :: b in s.heap ==> b in s'.heap && s'.heap[b].data == s.heap[b].data
    ensures Abs(s').stack == Abs(s).stack[..|s.linked| - 1] && Abs(s).stack[|s.linked| - 1] == s.heap[p].data
  {
    hide Below, CallOf;
  }

  /** A step that leaves nodes and stack alone and keeps the thread's call in its place. */
  lemma RefineMove(s: State, s': State, t: Tid, th: Thread)
    requires Inv(s) && !Exiting(th)
    requires s'.heap == s.heap && s'.linked == s.linked && s'.threads == s.threads[t := th]
    ensures Abs(s').stack == Abs(s).stack
    ensures Abs(s').calls == Abs(s).calls[t := CallOf(s.heap, th)]
    ensures t in s.threads && !Exiting(s.threads[t]) && CallOf(s.heap, th) == CallOf(s.heap, s.threads[t]) ==> Abs(s') == Abs(s)
  {
    hide Below, RecOk, ChainOk, NodeOk, ScanOk, ListOk, SlotsOk, ThreadOk, CallOf;
    RefineLocal(s, s', t);
    if t in s.threads && !Exiting(s.threads[t]) && CallOf(s.heap, th) == CallOf(s.heap, s.threads[t]) {
      assert Abs(s').calls == Abs(s).calls;
    }
  }

  /** Steps on a node the thread owns, or whose record it holds. */
  lemma RefineOwn(s: State, s': State, t: Tid, a: Addr)
    requires Inv(s) && t in s.threads && t in s'.threads && !Exiting(s.threads[t]) && !Exiting(s'.threads[t])
    requires s'.linked == s.linked && s'.threads == s.threads[t := s'.threads[t]]
    requires forall b :: b != a && b in s.heap ==> b in s'.heap && s'.heap[b].data == s.heap[b].data
    requires a in s.heap ==> OwnerOf(s.heap[a].place) == Some(t) || s.heap[a].place.Parked?
    requires CallOf(s'.heap, s'.threads[t]) == CallOf(s.heap, s.threads[t])
    ensures Abs(s') == Abs(s)
  {
    hide Below, Inv, CallOf;
    RefineLocal(s, s', t);
    assert Abs(s').calls == Abs(s).calls;
  }

  lemma RefineReclaim(s: State, t: Tid, c: Choice)
    requires Inv(s) && Enabled(s, t, c) && c.Continue? && Reclaiming(s.threads[t])
    ensures Abs(Next(s, t, c)) == Abs(s)
  {
    hide Inv, Abs, MakeRecord, LinkRecord, AddRecord, TakeList, NextRecord, ScanForRec, ReleaseData, ReleaseRec;
    match s.threads[t]
    case Retire(p, res) => RefineRetire(s, t, p, c.addr, res);
    case AddLink(r, res, k) => RefineLinkRecord(s, t, r, res, k);
    case AddCas(r, res, k) => RefineAddRecord(s, t, r, res, k, c.spurious);
    case DrainStart(res) => RefineTakeList(s, t, c.addr, res);
    case DrainNext(cur, chain, res) => RefineNextRecord(s, t, cur, chain, res);
    case ScanRec(r, p, i, cur, chain, res) => RefineScanForRec(s, t, r, p, i, cur, chain, res);
    case FreeData(r, p, cur, chain, res) => RefineFreeData(s, t, r, p, cur, chain, res);
    case FreeRec(r, cur, chain, res) => RefineFreeRec(s, t, r, cur, chain, res);
  }

  /** A step on records alone, or one that ends in a fault, is not seen by the atomic stack. */
  lemma RefineQuietly(s: State, s': State, t: Tid, th: Thread)
    requires Inv(s) && t in s.threads && !Exiting(s.threads[t]) && !Exiting(th)
    requires s'.heap == s.heap && s'.linked == s.linked
    requires s'.threads == s.threads || (s'.threads == s.threads[t := th] && CallOf(s.heap, th) == CallOf(s.heap, s.threads[t]))
    ensures Abs(s') == Abs(s)
  {
    hide Inv, Abs, CallOf, Exiting;
    if s'.threads == s.threads { RefineMove(s, s', t, s.threads[t]); } else { RefineMove(s, s', t, th); }
  }

  lemma RefineLinkRecord(s: State, t: Tid, r: Addr, res: Option<Value>, k: Cont)
    requires Inv(s) && t in s.threads && (s.threads[t] == AddLink(r, res, k) || s.threads[t] == AddCas(r, res, k))
    ensures Abs(LinkRecord(s, t, r, res, k)) == Abs(s)
  {
    hide Inv, Abs;
    RefineQuietly(s, LinkRecord(s, t, r, res, k), t, AddCas(r, res, k));
  }

  lemma RefineAddRecord(s: State, t: Tid, r: Addr, res: Option<Value>, k: Cont, spurious: bool)
    requires Inv(s) && t in s.threads && s.threads[t] == AddCas(r, res, k)
    ensures Abs(AddRecord(s, t, r, res, k, spurious)) == Abs(s)
  {
    hide Inv, Abs, LinkRecord;
    RefineLinkRecord(s, t, r, res, k);
    var s' := AddRecord(s, t, r, res, k, spurious);
    if r in s.recs && !(s.list == s.recs[r].next && !spurious) {
      assert s' == LinkRecord(s, t, r, res, k);
    } else {
      RefineQuietly(s, s', t, match k case ThenDrain => DrainStart(res) case Resume(cur, chain) => DrainNext(cur, chain, res));
    }
  }

  lemma RefineTakeList(s: State, t: Tid, d: ChainId, res: Option<Value>)
    requires Inv(s) && t in s.threads && s.threads[t] == DrainStart(res)
    ensures Abs(TakeList(s, t, d, res)) == Abs(s)
  {
    hide Inv, Abs;
    RefineQuietly(s, TakeList(s, t, d, res), t, TakeList(s, t, d, res).threads[t]);
  }

  lemma RefineScanForRec(s: State, t: Tid, r: Addr, p: Addr, i: nat, cur: Option<Addr>, c: ChainId, res: Option<Value>)
    requires Inv(s) && t in s.threads && s.threads[t] == ScanRec(r, p, i, cur, c, res)
    ensures Abs(ScanForRec(s, t, r, p, i, cur, c, res)) == Abs(s)
  {
    hide Inv, Abs;
    RefineQuietly(s, ScanForRec(s, t, r, p, i, cur, c, res), t, ScanForRec(s, t, r, p, i, cur, c, res).threads[t]);
  }

  lemma RefineFreeRec(s: State, t: Tid, r: Addr, cur: Option<Addr>, c: ChainId, res: Option<Value>)
    requires Inv(s) && t in s.threads && s.threads[t] == FreeRec(r, cur, c, res)
    ensures Abs(ReleaseRec(s, t, r, cur, c, res)) == Abs(s)
  {
    hide Inv, Abs;
    RefineQuietly(s, ReleaseRec(s, t, r, cur, c, res), t, DrainNext(cur, c, res));
  }

  lemma RefineNextRecord(s: State, t: Tid, cur: Option<Addr>, c: ChainId, res: Option<Value>)
    requires Inv(s) && t in s.threads && s.threads[t] == DrainNext(cur, c, res)
    ensures Abs(NextRecord(s, t, cur, c, res)) == Abs(s)
  {
    hide Inv, Abs;
    RefineQuietly(s, NextRecord(s, t, cur, c, res), t, NextRecord(s, t, cur, c, res).threads[t]);
  }

  lemma RefineRetire(s: State, t: Tid, p: Addr, a: Addr, res: Option<Value>)
    requires Inv(s) && t in s.threads && s.threads[t] == Retire(p, res)
    ensures Abs(MakeRecord(s, t, p, a, res)) == Abs(s)
  {
    hide Inv, Abs, Below, NodeOk, ChainOk, ScanOk, ListOk, LinkedOk, SlotsOk, TableOk, RecOk, RecordsOk;
    InvAt(s, t, 0, 0, 0);
    RefineOwn(s, MakeRecord(s, t, p, a, res), t, p);
  }

  lemma RefineFreeData(s: State, t: Tid, r: Addr, p: Addr, cur: Option<Addr>, c: ChainId, res: Option<Value>)
    requires Inv(s) && t in s.threads && s.threads[t] == FreeData(r, p, cur, c, res)
    ensures Abs(ReleaseData(s, t, r, p, cur, c, res)) == Abs(s)
  {
    hide Inv, Abs;
    FreeDataPlace(s, t, r, p);
    hide CallOf, Exiting, OwnerOf;
    FreeDataCall(s, t, r, p, cur, c, res);
    RefineOwn(s, ReleaseData(s, t, r, p, cur, c, res), t, p);
  }

  lemma FreeDataCall(s: State, t: Tid, r: Addr, p: Addr, cur: Option<Addr>, c: ChainId, res: Option<Value>)
    requires t in s.threads && s.threads[t] == FreeData(r, p, cur, c, res) && p in s.heap && r in s.recs
    ensures
      var s' := ReleaseData(s, t, r, p, cur, c, res);
      && t in s'.threads && !Exiting(s.threads[t]) && !Exiting(s'.threads[t]) && s'.threads == s.threads[t := s'.threads[t]]
      && CallOf(s'.heap, s'.threads[t]) == CallOf(s.heap, s.threads[t])
  {
  }

  /** The steps of `push` and `pop` that are not commits and not reclaiming. */
  lemma RefineQuiet(s: State, t: Tid, c: Choice)
    requires Inv(s) && Enabled(s, t, c) && c.Continue? && !Exiting(s.threads[t]) && !Reclaiming(s.threads[t])
    requires ActionOf(s, t, c) == Stutter
    ensures Abs(Next(s, t, c)) == Abs(s)
  {
    hide Inv, Abs, Allocate, SetNext, PushCommit, ClaimSlot, LoadHead, WriteSlot, Recheck, ReadNext, Unlink, SwapData, ScanForOwn, ReleaseOwn;
    match s.threads[t]
    case PushStart(v) => RefineAllocate(s, t, v, c.addr);
    case PushLoad(n) => RefineSetNext(s, t, n);
    case PushCas(n) => RefinePushLost(s, t, n, c.spurious);
    case Swap(p) => RefineSwap(s, t, p);
    case ScanOwn(p, i, res) => RefineScanForOwn(s, t, p, i, res);
    case FreeOwn(p, res) => RefineFreeOwn(s, t, p, res);
    case Claim(i) => ClaimQuietly(s, t, i);
    case PopStart => RefineQuietly(s, At(s, t, Publish(s.head, None)), t, Publish(s.head, None)); LoadHeadIs(s, t);
    case Publish(seen, _) => WriteQuietly(s, t, seen, Revalidate(seen));
    case Revalidate(seen) => RefineRecheck(s, t, seen);
    case Validated(p) => RefineReadNext(s, t, p);
    case NextRead(p, next) => RefineLostRace(s, t, p, next);
    case ClearWon(p) => WriteQuietly(s, t, None, Swap(p));
    case ClearEmpty => WriteQuietly(s, t, None, Returning(None));
  }

  lemma LoadHeadIs(s: State, t: Tid)
    ensures LoadHead(s, t) == At(s, t, Publish(s.head, None))
  {
  }

  lemma RefineAllocate(s: State, t: Tid, v: Value, a: Addr)
    requires Inv(s) && t in s.threads && s.threads[t] == PushStart(v) && a !in s.heap
    ensures Abs(Allocate(s, t, v, a)) == Abs(s)
  {
    hide Inv, Abs;
    RefineOwn(s, Allocate(s, t, v, a), t, a);
  }

  lemma RefineSetNext(s: State, t: Tid, n: Addr)
    requires Inv(s) && t in s.threads && (s.threads[t] == PushLoad(n) || s.threads[t] == PushCas(n))
    ensures Abs(SetNext(s, t, n)) == Abs(s)
  {
    hide Inv, Abs, Below, NodeOk, ChainOk, ScanOk, ListOk, LinkedOk, SlotsOk, TableOk, RecOk, RecordsOk;
    InvAt(s, t, 0, 0, 0);
    RefineOwn(s, SetNext(s, t, n), t, n);
  }

  lemma RefinePushLost(s: State, t: Tid, n: Addr, spurious: bool)
    requires Inv(s) && t in s.threads && s.threads[t] == PushCas(n)
    requires !(n in s.heap && s.head == s.heap[n].next && !spurious)
    ensures Abs(PushCommit(s, t, n, spurious)) == Abs(s)
  {
    hide Inv, Abs, SetNext;
    if n in s.heap { RefineSetNext(s, t, n); } else { RefineQuietly(s, Fault(s), t, s.threads[t]); }
  }

  lemma RefineSwap(s: State, t: Tid, p: Addr)
    requires Inv(s) && t in s.threads && s.threads[t] == Swap(p)
    ensures Abs(SwapData(s, t, p)) == Abs(s)
  {
    hide Inv, Abs, Below, NodeOk, ChainOk, ScanOk, ListOk, LinkedOk, SlotsOk, TableOk, RecOk, RecordsOk;
    InvAt(s, t, 0, 0, 0);
    RefineOwn(s, SwapData(s, t, p), t, p);
  }

  lemma RefineFreeOwn(s: State, t: Tid, p: Addr, res: Option<Value>)
    requires Inv(s) && t in s.threads && s.threads[t] == FreeOwn(p, res)
    ensures Abs(ReleaseOwn(s, t, p, res)) == Abs(s)
  {
    hide Inv, Abs, Below, NodeOk, ChainOk, ScanOk, ListOk, LinkedOk, SlotsOk, TableOk, RecOk, RecordsOk;
    InvAt(s, t, 0, 0, 0);
    RefineOwn(s, ReleaseOwn(s, t, p, res), t, p);
  }

  lemma RefineScanForOwn(s: State, t: Tid, p: Addr, i: nat, res: Option<Value>)
    requires Inv(s) && t in s.threads && s.threads[t] == ScanOwn(p, i, res)
    ensures Abs(ScanForOwn(s, t, p, i, res)) == Abs(s)
  {
    hide Inv, Abs;
    RefineQuietly(s, ScanForOwn(s, t, p, i, res), t, ScanForOwn(s, t, p, i, res).threads[t]);
  }


  lemma ClaimQuietly(s: State, t: Tid, i: nat)
    requires Inv(s) && t in s.threads && s.threads[t].Claim?
    ensures Abs(ClaimSlot(s, t, i)) == Abs(s)
  {
    hide Inv, Abs, CallOf, Exiting;
    var th := if i >= |s.slots| then NoSlot else if s.slots[i].id == None then PopStart else Claim(i + 1);
    LookingCall(s.heap, s.threads[t], th);
    RefineMove(s, ClaimSlot(s, t, i), t, th);
  }

  lemma LookingCall(heap: map<Addr, Node>, th: Thread, th': Thread)
    requires th.Claim? && (th'.Claim? || th'.PopStart? || th'.NoSlot?)
    ensures CallOf(heap, th) == CallOf(heap, th') && !Exiting(th) && !Exiting(th')
  {
  }

  lemma RefineReadNext(s: State, t: Tid, p: Addr)
    requires Inv(s) && t in s.threads && s.threads[t] == Validated(p)
    ensures Abs(ReadNext(s, t, p)) == Abs(s)
  {
    hide Inv, Abs;
    RefineQuietly(s, ReadNext(s, t, p), t, if p in s.heap then NextRead(p, s.heap[p].next) else s.threads[t]);
  }

  lemma RefineLostRace(s: State, t: Tid, p: Addr, next: Option<Addr>)
    requires Inv(s) && t in s.threads && s.threads[t] == NextRead(p, next) && s.head != Some(p)
    ensures Abs(Unlink(s, t, p, next)) == Abs(s)
  {
    hide Inv, Abs;
    RefineQuietly(s, Unlink(s, t, p, next), t, Publish(s.head, Some(p)));
  }

  lemma RefineRecheck(s: State, t: Tid, seen: Option<Addr>)
    requires Inv(s) && t in s.threads && s.threads[t] == Revalidate(seen) && !(s.head == seen && seen.None?)
    ensures Abs(Recheck(s, t, seen)) == Abs(s)
  {
    hide Inv, Abs;
    RefineQuietly(s, Recheck(s, t, seen), t, if s.head != seen then Publish(s.head, None) else Validated(seen.value));
  }

  lemma WriteQuietly(s: State, t: Tid, ptr: Option<Addr>, th: Thread)
    requires Inv(s) && t in s.threads && !Exiting(s.threads[t]) && !Exiting(th) && CallOf(s.heap, th) == CallOf(s.heap, s.threads[t])
    ensures Abs(WriteSlot(s, t, ptr, th)) == Abs(s)
  {
    hide Inv, Abs, CallOf, Exiting;
    var s' := WriteSlot(s, t, ptr, th);
    if s'.fault && s' == Fault(s) { RefineMove(s, s', t, s.threads[t]); } else { RefineMove(s, s', t, th); }
  }

  /** Forward simulation of the atomic stack. */
  lemma Refinement(s: State, t: Tid, c: Choice)
    requires Inv(s) && Enabled(s, t, c)
    ensures SpecEnabled(Abs(s), t, ActionOf(s, t, c))
    ensures Abs(Next(s, t, c)) == SpecNext(Abs(s), t, ActionOf(s, t, c))
    ensures ActionOf(s, t, c) == End ==> Abs(s).calls[t] == Done(s.threads[t].res)
  {
    hide Inv, Next, Abs;
    if !c.Continue? {
      RefineBegin(s, t, c);
    } else if s.threads[t].Returning? || s.threads[t].NoSlot? {
      RefineEnd(s, t, c);
    } else if ActionOf(s, t, c) == Commit {
      PendingCall(s, t, c);
      RefineCommit(s, t, c);
    } else if Exiting(s.threads[t]) {
      RefineExit(s, t, c);
    } else if Reclaiming(s.threads[t]) {
      RefineReclaim(s, t, c);
    } else {
      RefineQuiet(s, t, c);
    }
  }

  lemma PendingCall(s: State, t: Tid, c: Choice)
    requires Enabled(s, t, c) && ActionOf(s, t, c) == Commit
    ensures SpecEnabled(Abs(s), t, Commit)
  {
  }

  lemma RefineBegin(s: State, t: Tid, c: Choice)
    requires Inv(s) && Enabled(s, t, c) && !c.Continue?
    ensures SpecEnabled(Abs(s), t, ActionOf(s, t, c))
    ensures Abs(Next(s, t, c)) == SpecNext(Abs(s), t, ActionOf(s, t, c))
  {
    hide Inv;
    var s' := Next(s, t, c);
    if c.Exit? {
      assert Abs(s').calls == Abs(s).calls;
    } else {
      RefineLocal(s, s', t);
    }
  }

  lemma RefineEnd(s: State, t: Tid, c: Choice)
    requires Inv(s) && Enabled(s, t, c) && c.Continue? && (s.threads[t].Returning? || s.threads[t].NoSlot?)
    ensures SpecEnabled(Abs(s), t, ActionOf(s, t, c))
    ensures Abs(Next(s, t, c)) == SpecNext(Abs(s), t, ActionOf(s, t, c))
    ensures ActionOf(s, t, c) == End ==> Abs(s).calls[t] == Done(s.threads[t].res)
  {
    hide Inv;
    assert Abs(Next(s, t, c)).calls == Abs(s).calls - {t};
  }

  lemma RefineCommit(s: State, t: Tid, c: Choice)
    requires Inv(s) && Enabled(s, t, c) && ActionOf(s, t, c) == Commit && SpecEnabled(Abs(s), t, Commit)
    ensures Abs(Next(s, t, c)) == SpecNext(Abs(s), t, Commit)
  {
    hide Inv, Abs, PushCommit, Unlink, Recheck, SpecNext;
    match s.threads[t]
    case PushCas(n) => RefinePushCommit(s, t, n);
    case NextRead(p, next) => RefineUnlink(s, t, p, next);
    case Revalidate(seen) => RefineEmptyPop(s, t, seen);
  }

  lemma RefineEmptyPop(s: State, t: Tid, seen: Option<Addr>)
    requires Inv(s) && t in s.threads && s.threads[t] == Revalidate(seen) && s.head == seen == None && SpecEnabled(Abs(s), t, Commit)
    ensures Abs(Recheck(s, t, seen)) == SpecNext(Abs(s), t, Commit)
  {
    hide Inv, Below, RecOk, ChainOk, NodeOk, ScanOk, ListOk, SlotsOk, ThreadOk;
    InvAt(s, t, 0, 0, 0);
    RefineLocal(s, Recheck(s, t, seen), t);
  }

  lemma RefineExit(s: State, t: Tid, c: Choice)
    requires Inv(s) && Enabled(s, t, c) && c.Continue? && Exiting(s.threads[t])
    ensures Abs(Next(s, t, c)) == Abs(s)
  {
    hide Inv, Below, RecOk, ChainOk, NodeOk, ScanOk, ListOk, LinkedOk;
    InvAt(s, t, 0, 0, 0);
    assert Abs(Next(s, t, c)).calls == Abs(s).calls;
  }

  /** The atomic stack's view of a run. */
  ghost function Trace(states: seq<State>): seq<Spec> {
    seq(|states|, i requires 0 <= i < |states| => Abs(states[i]))
  }

  ghost function Actions(states: seq<State>, who: seq<Tid>, how: seq<Choice>): seq<Action>
    requires Run(states, who, how)
  {
    seq(|who|, i requires 0 <= i < |who| =>
      if Enabled(states[i], who[i], how[i]) then ActionOf(states[i], who[i], how[i]) else Stutter)
  }

  /** Every run is linearizable: it is a run of the atomic stack. */
  lemma Linearizable(states: seq<State>, who: seq<Tid>, how: seq<Choice>)
    requires Run(states, who, how)
    ensures SpecRun(Trace(states), who, Actions(states, who, how))
  {
    hide Inv, Next, Enabled, ActionOf, SpecNext, SpecEnabled;
    var specs, what := Trace(states), Actions(states, who, how);
    assert specs[0] == Spec([], map[]) by { assert Abs(states[0]).calls == map[]; }
    hide Abs;
    forall i | 0 <= i < |who|
      ensures SpecEnabled(specs[i], who[i], what[i]) && specs[i + 1] == SpecNext(specs[i], who[i], what[i])
    {
      RunKeeps(states, who, how, i);
      assert Enabled(states[i], who[i], how[i]) && states[i + 1] == Next(states[i], who[i], how[i]);
      Refinement(states[i], who[i], how[i]);
    }
  }

  /** So no value is popped twice, or without having been pushed, in any run. */
  lemma ValuesConserved(states: seq<State>, who: seq<Tid>, how: seq<Choice>)
    requires Run(states, who, how)
    ensures
      var specs, what := Trace(states), Actions(states, who, how);
      AllPushed(specs, who, what, |who|) == AllPopped(specs, who, what, |who|) + multiset(Abs(states[|who|]).stack)
  {
    Linearizable(states, who, how);
    PoppedAtMostOnce(Trace(states), who, Actions(states, who, how), |who|);
  }
}
