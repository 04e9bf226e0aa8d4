/** The lock-free stack whose nodes are reclaimed by split reference counts.

    Every node carries an external count, kept beside the pointer that leads to it
    (in `head_` or in the `next_` of the node above), and an internal count of its own.
    The machine below takes one step per atomic access, per plain dereference and per
    allocation or release, for any number of threads; addresses may be reused as soon as
    they are released.  Touching or releasing an address that is not allocated raises
    `fault`, so safety is the claim that no reachable state has `fault` set. */
module SplitCountStack {
  import opened Options
  import opened AtomicStack

  type Addr = nat

  /** counted_node_ptr */
  datatype Counted = Counted(ext: int, ptr: Option<Addr>)

  /** Where a node stands in its life.  History information, read by no thread. */
  datatype Place =
    | Private(owner: Tid)   // allocated by a pusher, not yet published
    | Linked(depth: nat)    // on the stack, `depth` nodes below it
    | Popped(owner: Tid)    // unlinked, external count not yet transferred
    | Shared                // unlinked and transferred, other threads still hold it
    | Dying(owner: Tid)     // the last holder is about to release it

  datatype Node = Node(data: Option<Value>, internal: int, next: Counted, place: Place)

  /** The control point of a thread inside `push` or `pop`, with its live locals. */
  datatype Thread =
    | PushStart(v: Value)
    | PushLoad(n: Addr)
    | PushCas(n: Addr)
    | PopStart
    | Raise(exp: Counted)
    | Raised(exp: Counted)
    | NextRead(exp: Counted, next: Counted)
    | Won(exp: Counted)
    | Swapped(exp: Counted, res: Option<Value>)
    | Lost(p: Addr, seen: Counted)
    | FreeWon(p: Addr, res: Option<Value>)
    | FreeLost(p: Addr, seen: Counted)
    | Returning(res: Option<Value>)

  /** `chain` lists the linked nodes from the bottom; history information like `place`. */
  datatype State = State(
    head: Counted,
    heap: map<Addr, Node>,
    threads: map<Tid, Thread>,
    fault: bool,
    chain: seq<Addr>)

  /** What the environment decides in one step: a thread may begin an operation, or take
      its next step, in which an allocation may return any unused address and a weak
      compare-exchange may fail spuriously. */
  datatype Choice = BeginPush(v: Value) | BeginPop | Continue(addr: Addr, spurious: bool)

  ghost predicate Init(s: State) {
    && s.head.ptr == None
    && s.heap == map[]
    && s.threads == map[]
    && !s.fault
    && s.chain == []
  }

  ghost predicate Enabled(s: State, t: Tid, c: Choice) {
    match c
    case BeginPush(_) => t !in s.threads
    case BeginPop => t !in s.threads
    case Continue(a, _) => t in s.threads && (s.threads[t].PushStart? ==> a !in s.heap)
  }

  function At(s: State, t: Tid, th: Thread): State {
    s.(threads := s.threads[t := th])
  }

  /** One step of thread `t`. */
  ghost function Next(s: State, t: Tid, c: Choice): State
    requires Enabled(s, t, c)
  {
    match c
    case BeginPush(v) => At(s, t, PushStart(v))
    case BeginPop => At(s, t, PopStart)
    case Continue(a, spurious) =>
      match s.threads[t]
      case PushStart(v) => Allocate(s, t, v, a)
      case PushLoad(n) => SetNext(s, t, n)
      case PushCas(n) => Publish(s, t, n, spurious)
      case PopStart => At(s, t, Raise(s.head))
      case Raise(exp) => IncreaseHeadCount(s, t, exp)
      case Raised(exp) => ReadNext(s, t, exp)
      case NextRead(exp, next) => Unlink(s, t, exp, next)
      case Won(exp) => SwapData(s, t, exp)
      case Swapped(exp, res) => Transfer(s, t, exp, res)
      case Lost(p, seen) => DropReference(s, t, p, seen)
      case FreeWon(p, res) => At(Release(s, p), t, Returning(res))
      case FreeLost(p, seen) => At(Release(s, p), t, Raise(seen))
      case Returning(_) => s.(threads := s.threads - {t})
  }

  ghost function Allocate(s: State, t: Tid, v: Value, a: Addr): State {
    var garbage := Counted(0, None);
    At(s.(heap := s.heap[a := Node(Some(v), 0, garbage, Private(t))]), t, PushLoad(a))
  }

  /** new_node.ptr_->next_ = head_.load() */
  ghost function SetNext(s: State, t: Tid, n: Addr): State {
    if n !in s.heap then s.(fault := true) else
    At(s.(heap := s.heap[n := s.heap[n].(next := s.head)]), t, PushCas(n))
  }

  /** One round of the weak compare-exchange of `push`; a failure reloads next_. */
  ghost function Publish(s: State, t: Tid, n: Addr, spurious: bool): State {
    if n !in s.heap then s.(fault := true)
    else if s.head == s.heap[n].next && !spurious then
      var linked := s.heap[n].(place := Linked(|s.chain|));
      State(Counted(1, Some(n)), s.heap[n := linked], s.threads[t := Returning(None)], s.fault, s.chain + [n])
    else SetNext(s, t, n)
  }

  /** One round of increase_head_count. */
  ghost function IncreaseHeadCount(s: State, t: Tid, exp: Counted): State {
    if s.head == exp then
      var raised := Counted(exp.ext + 1, exp.ptr);
      At(s.(head := raised), t, if exp.ptr.None? then Returning(None) else Raised(raised))
    else At(s, t, Raise(s.head))
  }

  ghost function ReadNext(s: State, t: Tid, exp: Counted): State {
    if exp.ptr.None? || exp.ptr.value !in s.heap then s.(fault := true) else
    At(s, t, NextRead(exp, s.heap[exp.ptr.value].next))
  }

  /** head_.compare_exchange_strong(old_head, ptr->next_) */
  ghost function Unlink(s: State, t: Tid, exp: Counted, next: Counted): State {
    if exp.ptr.None? then s.(fault := true)
    else if s.head != exp then At(s, t, Lost(exp.ptr.value, s.head))
    else
      var p := exp.ptr.value;
      var heap := if p in s.heap then s.heap[p := s.heap[p].(place := Popped(t))] else s.heap;
      var chain := if s.chain == [] then [] else s.chain[..|s.chain| - 1];
      State(next, heap, s.threads[t := Won(exp)], s.fault, chain)
  }

  ghost function SwapData(s: State, t: Tid, exp: Counted): State {
    if exp.ptr.None? || exp.ptr.value !in s.heap then s.(fault := true) else
    var p := exp.ptr.value;
    At(s.(heap := s.heap[p := s.heap[p].(data := None)]), t, Swapped(exp, s.heap[p].data))
  }

  /** fetch_add of external_count_ - 2 into the internal count. */
  ghost function Transfer(s: State, t: Tid, exp: Counted, res: Option<Value>): State {
    if exp.ptr.None? || exp.ptr.value !in s.heap then s.(fault := true) else
    var p := exp.ptr.value;
    var increase := exp.ext - 2;
    var last := s.heap[p].internal == -increase;
    var node := s.heap[p].(internal := s.heap[p].internal + increase, place := if last then Dying(t) else Shared);
    At(s.(heap := s.heap[p := node]), t, if last then FreeWon(p, res) else Returning(res))
  }

  /** fetch_sub of one from the internal count after losing the race for the node. */
  ghost function DropReference(s: State, t: Tid, p: Addr, seen: Counted): State {
    if p !in s.heap then s.(fault := true) else
    var last := s.heap[p].internal == 1;
    var node := s.heap[p].(internal := s.heap[p].internal - 1, place := if last then Dying(t) else s.heap[p].place);
    At(s.(heap := s.heap[p := node]), t, if last then FreeLost(p, seen) else Raise(seen))
  }

  ghost function Release(s: State, p: Addr): State {
    if p !in s.heap then s.(fault := true) else s.(heap := s.heap - {p})
  }

  // ---------------------------------------------------------------------------------------
  // The invariant
  // ---------------------------------------------------------------------------------------

  /** Thread `th` has raised a count for node `p` and has not given it back. */
  predicate Holds(th: Thread, p: Addr) {
    match th
    case Raised(exp) => exp.ptr == Some(p)
    case NextRead(exp, _) => exp.ptr == Some(p)
    case Won(exp) => exp.ptr == Some(p)
    case Swapped(exp, _) => exp.ptr == Some(p)
    case Lost(q, _) => q == p
    case _ => false
  }

  function Holders(threads: map<Tid, Thread>, p: Addr): set<Tid> {
    set t | t in threads && Holds(threads[t], p)
  }

  function Count(threads: map<Tid, Thread>, p: Addr): nat {
    |Holders(threads, p)|
  }

  /** The link that leads to the node at height `i`; at the full height, `head_`. */
  function LinkAbove(s: State, i: nat): Counted {
    if i + 1 < |s.chain| && s.chain[i + 1] in s.heap then s.heap[s.chain[i + 1]].next else s.head
  }

  /** head_ and the next_ links run through exactly the nodes of `chain`, top to bottom. */
  ghost predicate ChainOk(s: State) {
    && (forall i :: 0 <= i < |s.chain| ==> s.chain[i] in s.heap && s.heap[s.chain[i]].place == Linked(i))
    && (forall a :: a in s.heap && s.heap[a].place.Linked? ==>
          s.heap[a].place.depth < |s.chain| && s.chain[s.heap[a].place.depth] == a)
    && (forall i :: 0 <= i < |s.chain| ==> LinkAbove(s, i).ptr == Some(s.chain[i]))
    && (s.chain == [] ==> s.head.ptr == None)
    && (s.chain != [] ==> s.heap[s.chain[0]].next.ptr == None)
  }

  /** The counting law of the protocol, by place. */
  ghost predicate NodeOk(s: State, a: Addr)
    requires a in s.heap
  {
    NodeLaw(s.heap[a], a, s.threads, if s.heap[a].place.Linked? then LinkAbove(s, s.heap[a].place.depth).ext else 0,
            Count(s.threads, a))
  }

  ghost predicate NodeLaw(node: Node, a: Addr, threads: map<Tid, Thread>, ext: int, holders: int) {
    match node.place
    case Private(t) => holders == 0 && node.internal == 0 && node.data.Some? && t in threads
                       && (threads[t] == PushLoad(a) || threads[t] == PushCas(a))
    case Linked(_) => node.data.Some? && node.internal <= 0 && ext - 1 + node.internal == holders
    case Popped(t) => t in threads && CarriedBy(threads[t]).ptr == Some(a)
                      && (threads[t].Won? ==> node.data.Some?)
                      && node.internal <= 0 && CarriedBy(threads[t]).ext - 1 + node.internal == holders
    case Shared => node.internal == holders && holders >= 1
    case Dying(t) => holders == 0 && t in threads
                     && (threads[t].FreeWon? || threads[t].FreeLost?) && threads[t].p == a
  }

  /** The counted pointer a winning thread carries from the unlinking to the transfer. */
  function CarriedBy(th: Thread): Counted {
    if th.Won? || th.Swapped? then th.exp else Counted(0, None)
  }

  ghost predicate ThreadOk(s: State, t: Tid)
    requires t in s.threads
  {
    match s.threads[t]
    case PushLoad(n) => n in s.heap && s.heap[n].place == Private(t)
    case PushCas(n) => n in s.heap && s.heap[n].place == Private(t)
    case Raised(exp) => exp.ptr.Some? && exp.ptr.value in s.heap
    case NextRead(exp, next) => exp.ptr.Some? && exp.ptr.value in s.heap && next == s.heap[exp.ptr.value].next
    case Won(exp) => exp.ptr.Some? && exp.ptr.value in s.heap && s.heap[exp.ptr.value].place == Popped(t)
    case Swapped(exp, res) => exp.ptr.Some? && exp.ptr.value in s.heap && s.heap[exp.ptr.value].place == Popped(t)
    case Lost(p, _) => p in s.heap
    case FreeWon(p, _) => p in s.heap && s.heap[p].place == Dying(t)
    case FreeLost(p, _) => p in s.heap && s.heap[p].place == Dying(t)
    case _ => true
  }

  ghost predicate Inv(s: State) {
    && !s.fault
    && ChainOk(s)
    && (forall a :: a in s.heap ==> NodeOk(s, a))
    && (forall t :: t in s.threads ==> ThreadOk(s, t))
  }

  // ---------------------------------------------------------------------------------------
  // Preservation, one lemma for each kind of step
  // ---------------------------------------------------------------------------------------

  function Weight(b: bool): int {
    if b then 1 else 0
  }

  predicate HeldBy(threads: map<Tid, Thread>, t: Tid, p: Addr) {
    t in threads && Holds(threads[t], p)
  }

  /** Moving thread `t` to `th` changes the holders of every node by `t` alone. */
  lemma HoldersMove(threads: map<Tid, Thread>, t: Tid, th: Thread, p: Addr)
    ensures Count(threads[t := th], p) == Count(threads, p) - Weight(HeldBy(threads, t, p)) + Weight(Holds(th, p))
  {
    MovedHolders(threads, t, th, p);
    Without(Holders(threads, p), t);
    Without(Holders(threads[t := th], p), t);
    hide Holders, Holds, HeldBy;
  }

  lemma MovedHolders(threads: map<Tid, Thread>, t: Tid, th: Thread, p: Addr)
    ensures Holders(threads[t := th], p) - {t} == Holders(threads, p) - {t}
    ensures t in Holders(threads[t := th], p) <==> Holds(th, p)
    ensures t in Holders(threads, p) <==> HeldBy(threads, t, p)
  {
    hide Holds;
  }

  lemma Without(s: set<Tid>, t: Tid)
    ensures |s| == |s - {t}| + if t in s then 1 else 0
  {
    if t in s { assert s == (s - {t}) + {t}; } else { assert s == s - {t}; }
  }

  /** Sole holders: if `t` is one of the holders of `p` and there is only one, it is `t`. */
  lemma HolderCounts(threads: map<Tid, Thread>, t: Tid, p: Addr)
    requires HeldBy(threads, t, p)
    ensures Count(threads, p) >= 1
    ensures Count(threads, p) == 1 ==> forall u :: HeldBy(threads, u, p) ==> u == t
  {
    var h := Holders(threads, p);
    assert h == {t} + (h - {t});
    forall u | HeldBy(threads, u, p) && u != t ensures Count(threads, p) > 1 {
      assert u in h - {t};
    }
  }

  /** No thread holds an address that is not allocated. */
  lemma UnheldAddress(s: State, a: Addr)
    requires Inv(s) && a !in s.heap
    ensures Count(s.threads, a) == 0
  {
    forall t | t in s.threads ensures !Holds(s.threads[t], a) {
      assert ThreadOk(s, t);
    }
    assert Holders(s.threads, a) == {};
  }

  function OwnerOf(place: Place): Option<Tid> {
    match place
    case Private(t) => Some(t)
    case Popped(t) => Some(t)
    case Dying(t) => Some(t)
    case _ => None
  }

  /** Thread `t` moved, and only node `a` can have changed, appeared or gone. */
  ghost predicate StepAt(s: State, s': State, t: Tid, a: Addr) {
    && !s'.fault
    && t in s'.threads && s'.threads == s.threads[t := s'.threads[t]]
    && (forall b :: b != a ==> (b in s.heap <==> b in s'.heap))
    && (forall b :: b != a && b in s.heap ==> s'.heap[b] == s.heap[b] && OwnerOf(s.heap[b].place) != Some(t))
    && (forall b :: b != a ==> (HeldBy(s.threads, t, b) <==> Holds(s'.threads[t], b)))
  }

  /** What the other threads rely on at `a`: no owner but `t` loses it, and as long as
      anybody else holds it, it stays and keeps its link. */
  ghost predicate RespectsOthers(s: State, s': State, t: Tid, a: Addr) {
    a in s.heap ==>
      && ((a in s'.heap && s'.heap[a].place == s.heap[a].place) || OwnerOf(s.heap[a].place) in {None, Some(t)})
      && ((a in s'.heap && s'.heap[a].next == s.heap[a].next)
          || Count(s.threads, a) == Weight(HeldBy(s.threads, t, a)))
  }

  ghost predicate LinksKept(s: State, s': State, a: Addr) {
    forall b :: b != a && b in s.heap && s.heap[b].place.Linked? ==>
      LinkAbove(s', s.heap[b].place.depth).ext == LinkAbove(s, s.heap[b].place.depth).ext
  }

  lemma KeepOtherNodes(s: State, s': State, t: Tid, a: Addr)
    requires Inv(s) && StepAt(s, s', t, a) && LinksKept(s, s', a)
    ensures forall b :: b in s'.heap && b != a ==> NodeOk(s', b)
  {
    hide Holders, Count, ChainOk, LinkAbove;
    forall b | b in s'.heap && b != a ensures NodeOk(s', b) {
      assert NodeOk(s, b);
      HoldersMove(s.threads, t, s'.threads[t], b);
    }
  }

  lemma KeepOtherThreads(s: State, s': State, t: Tid, a: Addr)
    requires Inv(s) && StepAt(s, s', t, a) && RespectsOthers(s, s', t, a)
    ensures forall u :: u in s'.threads && u != t ==> ThreadOk(s', u)
  {
    hide Holders, Count, ChainOk, LinkAbove, NodeOk;
    forall u | u in s'.threads && u != t ensures ThreadOk(s', u) {
      assert ThreadOk(s, u);
      if Holds(s.threads[u], a) {
        HolderCounts(s.threads, u, a);
        if HeldBy(s.threads, t, a) { HolderCounts(s.threads, t, a); }
      }
    }
  }

  /** The frame of every step: what remains to show is local to `a` and to `t`. */
  lemma KeepFrame(s: State, s': State, t: Tid, a: Addr)
    requires Inv(s) && StepAt(s, s', t, a) && RespectsOthers(s, s', t, a)
    requires ChainOk(s') && LinksKept(s, s', a)
    requires a in s'.heap ==> NodeOk(s', a)
    requires ThreadOk(s', t)
    ensures Inv(s')
  {
    hide Holders, Count, ChainOk, LinkAbove, NodeOk, ThreadOk;
    KeepOtherNodes(s, s', t, a);
    KeepOtherThreads(s, s', t, a);
  }

  /** head_ is null exactly on the empty stack, and otherwise leads to the top node. */
  lemma NullOrTop(s: State)
    requires ChainOk(s)
    ensures s.chain == [] <==> s.head.ptr.None?
    ensures
      s.chain != [] ==>
        var top := |s.chain| - 1;
        && s.head.ptr == Some(s.chain[top]) && LinkAbove(s, top) == s.head
        && s.chain[top] in s.heap && s.heap[s.chain[top]].place == Linked(top)
  {
    var top := if s.chain == [] then 0 else |s.chain| - 1;
    assert LinkAbove(s, top) == s.head;
  }

  /** The links of the chain survive a step that keeps place and link of every linked node. */
  lemma KeepChain(s: State, s': State, a: Addr)
    requires ChainOk(s) && s'.chain == s.chain && s'.head == s.head
    requires forall b :: b != a ==> (b in s.heap <==> b in s'.heap)
    requires forall b :: b != a && b in s.heap ==> s'.heap[b] == s.heap[b]
    requires a in s.heap && s.heap[a].place.Linked? ==>
      a in s'.heap && s'.heap[a].place == s.heap[a].place && s'.heap[a].next == s.heap[a].next
    requires a in s'.heap && s'.heap[a].place.Linked? ==> a in s.heap && s.heap[a].place.Linked?
    ensures ChainOk(s') && LinksKept(s, s', a)
    ensures a in s.heap && s.heap[a].place.Linked? ==>
      LinkAbove(s', s.heap[a].place.depth) == LinkAbove(s, s.heap[a].place.depth)
  {
    forall i | 0 <= i < |s.chain| ensures LinkAbove(s', i) == LinkAbove(s, i) {
      if i + 1 < |s.chain| { assert s.chain[i + 1] in s.heap; }
    }
  }

  /** The parts of the invariant that concern thread `t` and node `p`. */
  lemma InvAt(s: State, t: Tid, p: Addr)
    requires Inv(s)
    ensures !s.fault && ChainOk(s)
    ensures t in s.threads ==> ThreadOk(s, t)
    ensures p in s.heap ==> NodeOk(s, p)
  {
  }

  /** A thread between owning phases owns no node. */
  lemma OwnsNothing(s: State, t: Tid)
    requires Inv(s)
    requires t in s.threads ==>
      var th := s.threads[t];
      th.PushStart? || th.PopStart? || th.Raise? || th.Raised? || th.NextRead? || th.Lost? || th.Returning?
    ensures forall b :: b in s.heap ==> OwnerOf(s.heap[b].place) != Some(t)
  {
    hide Holders, Count, ChainOk, LinkAbove, ThreadOk;
    forall b | b in s.heap ensures OwnerOf(s.heap[b].place) != Some(t) { assert NodeOk(s, b); }
  }

  /** A thread in an owning phase owns the node it names and no other. */
  lemma OwnsOne(s: State, t: Tid, a: Addr)
    requires Inv(s) && t in s.threads
    requires
      var th := s.threads[t];
      th == PushLoad(a) || th == PushCas(a) || CarriedBy(th).ptr == Some(a)
      || ((th.FreeWon? || th.FreeLost?) && th.p == a)
    ensures forall b :: b in s.heap && b != a ==> OwnerOf(s.heap[b].place) != Some(t)
  {
    hide Holders, Count, ChainOk, LinkAbove, ThreadOk;
    forall b | b in s.heap && b != a ensures OwnerOf(s.heap[b].place) != Some(t) { assert NodeOk(s, b); }
  }

  /** A step that only moves thread `t` and changes no holding. */
  lemma KeepMove(s: State, t: Tid, th: Thread)
    requires Inv(s)
    requires forall p :: HeldBy(s.threads, t, p) <==> Holds(th, p)
    requires forall b :: b in s.heap ==> OwnerOf(s.heap[b].place) != Some(t)
    requires ThreadOk(At(s, t, th), t)
    ensures Inv(At(s, t, th))
  {
    hide Inv, Holders, Count, ChainOk, LinkAbove, LinksKept;
    InvAt(s, t, 0);
    var s' := At(s, t, th);
    KeepChain(s, s', 0);
    HoldersMove(s.threads, t, th, 0);
    KeepFrame(s, s', t, 0);
  }

  lemma KeepAllocate(s: State, t: Tid, v: Value, a: Addr)
    requires Inv(s) && t in s.threads && s.threads[t] == PushStart(v) && a !in s.heap
    ensures Inv(Allocate(s, t, v, a))
  {
    hide Inv, Holders, Count, ChainOk, LinkAbove, LinksKept;
    InvAt(s, t, a);
    var s' := Allocate(s, t, v, a);
    UnheldAddress(s, a);
    OwnsNothing(s, t);
    HoldersMove(s.threads, t, PushLoad(a), a);
    KeepChain(s, s', a);
    KeepFrame(s, s', t, a);
  }

  lemma KeepSetNext(s: State, t: Tid, n: Addr)
    requires Inv(s) && t in s.threads && (s.threads[t] == PushLoad(n) || s.threads[t] == PushCas(n))
    ensures Inv(SetNext(s, t, n))
  {
    hide Inv, Holders, Count, ChainOk, LinkAbove, LinksKept;
    InvAt(s, t, n);
    var s' := SetNext(s, t, n);
    OwnsOne(s, t, n);
    HoldersMove(s.threads, t, PushCas(n), n);
    KeepChain(s, s', n);
    KeepFrame(s, s', t, n);
  }

  /** Publishing puts the new node on top; the old head link becomes its next_. */
  lemma PublishChain(s: State, t: Tid, n: Addr)
    requires Inv(s) && t in s.threads && s.threads[t] == PushCas(n)
    requires n in s.heap && s.head == s.heap[n].next && s.heap[n].place == Private(t)
    ensures
      var s' := Publish(s, t, n, false);
      ChainOk(s') && LinksKept(s, s', n) && LinkAbove(s', |s.chain|) == s'.head
  {
    hide Holders, Count, NodeOk, ThreadOk, LinkAbove, Publish, ChainPlaces;
    var s' := Publish(s, t, n, false);
    NullOrTop(s);
    PublishPlaces(s, t, n);
    forall i | 0 <= i < |s'.chain| ensures i < |s.chain| ==> LinkAbove(s', i) == LinkAbove(s, i)
      ensures LinkAbove(s', i).ptr == Some(s'.chain[i])
    {
      PublishLink(s, t, n, i);
      if i < |s.chain| { assert s'.chain[i] == s.chain[i]; }
    }
    PublishLink(s, t, n, |s.chain|);
    hide ChainOk;
    ChainParts(s');
  }

  lemma PublishPlaces(s: State, t: Tid, n: Addr)
    requires ChainOk(s) && n in s.heap && s.head == s.heap[n].next && s.heap[n].place == Private(t)
    ensures
      var s' := Publish(s, t, n, false);
      ChainPlaces(s') && s'.chain == s.chain + [n]
      && forall b :: b in s.heap && s.heap[b].place.Linked? ==> s.heap[b].place.depth < |s.chain|
    ensures forall i :: 0 <= i < |s.chain| ==> s.chain[i] in s.heap && s.chain[i] != n
  {
    hide LinkAbove;
  }

  /** The link to the new node is head_; the one that was there is the new node's; the rest stay. */
  lemma PublishLink(s: State, t: Tid, n: Addr, i: nat)
    requires n in s.heap && s.head == s.heap[n].next && i <= |s.chain|
    requires forall j :: 0 <= j < |s.chain| ==> s.chain[j] in s.heap && s.chain[j] != n
    ensures
      var s' := Publish(s, t, n, false);
      if i < |s.chain| then LinkAbove(s', i) == LinkAbove(s, i) else LinkAbove(s', i) == s'.head == Counted(1, Some(n))
  {
  }

  lemma KeepPublish(s: State, t: Tid, n: Addr, spurious: bool)
    requires Inv(s) && t in s.threads && s.threads[t] == PushCas(n)
    ensures Inv(Publish(s, t, n, spurious))
  {
    hide Inv, Holders, Count, ChainOk, LinkAbove, LinksKept;
    InvAt(s, t, n);
    if s.head == s.heap[n].next && !spurious {
      var s' := Publish(s, t, n, spurious);
      OwnsOne(s, t, n);
      HoldersMove(s.threads, t, Returning(None), n);
      PublishChain(s, t, n);
      KeepFrame(s, s', t, n);
    } else {
      KeepSetNext(s, t, n);
    }
  }

  lemma KeepIncrease(s: State, t: Tid, exp: Counted)
    requires Inv(s) && t in s.threads && s.threads[t] == Raise(exp)
    ensures Inv(IncreaseHeadCount(s, t, exp))
  {
    hide Inv, Holders, Count, ChainOk, LinkAbove, LinksKept, NodeOk;
    OwnsNothing(s, t);
    if s.head == exp { KeepRaise(s, t, exp); } else { KeepMove(s, t, Raise(s.head)); }
  }

  lemma KeepRaise(s: State, t: Tid, exp: Counted)
    requires Inv(s) && t in s.threads && s.threads[t] == Raise(exp) && s.head == exp
    requires forall b :: b in s.heap ==> OwnerOf(s.heap[b].place) != Some(t)
    ensures Inv(IncreaseHeadCount(s, t, exp))
  {
    hide Inv, Holders, Count, ChainOk, LinkAbove, LinksKept;
    var s' := IncreaseHeadCount(s, t, exp);
    var top := if s.chain == [] then 0 else s.chain[|s.chain| - 1];
    InvAt(s, t, top);
    RaiseChain(s, exp.ext + 1, s');
    HoldersMove(s.threads, t, s'.threads[t], top);
    assert top in s'.heap ==> NodeOk(s', top);
    KeepFrame(s, s', t, top);
  }

  /** Raising the head count changes the external count of the top node only. */
  lemma RaiseChain(s: State, ext: int, s': State)
    requires ChainOk(s) && s'.heap == s.heap && s'.chain == s.chain && s'.head == Counted(ext, s.head.ptr)
    ensures ChainOk(s')
    ensures s.chain == [] ==> s.head.ptr == None && LinksKept(s, s', 0)
    ensures
      s.chain != [] ==>
        var top := |s.chain| - 1;
        && LinksKept(s, s', s.chain[top]) && s.head.ptr == Some(s.chain[top]) && s.chain[top] in s.heap
        && s.heap[s.chain[top]].place == Linked(top) && LinkAbove(s, top) == s.head && LinkAbove(s', top) == s'.head
  {
    NullOrTop(s);
    forall i | 0 <= i < |s.chain| - 1 ensures LinkAbove(s', i) == LinkAbove(s, i) {
      assert s.chain[i + 1] in s.heap;
    }
  }

  lemma KeepReadNext(s: State, t: Tid, exp: Counted)
    requires Inv(s) && t in s.threads && s.threads[t] == Raised(exp)
    ensures Inv(ReadNext(s, t, exp))
  {
    hide Holders, Count, ChainOk, LinkAbove, NodeOk;
    assert ThreadOk(s, t);
    OwnsNothing(s, t);
    KeepMove(s, t, NextRead(exp, s.heap[exp.ptr.value].next));
  }

  lemma UnlinkChain(s: State, t: Tid, exp: Counted)
    requires ChainOk(s) && exp == s.head && exp.ptr.Some? && exp.ptr.value in s.heap
    ensures
      var s' := Unlink(s, t, exp, s.heap[exp.ptr.value].next);
      ChainOk(s') && LinksKept(s, s', exp.ptr.value)
  {
    hide LinkAbove, Unlink;
    var s' := Unlink(s, t, exp, s.heap[exp.ptr.value].next);
    UnlinkLinks(s, t, exp);
    UnlinkPlaces(s, t, exp);
    assert forall i :: 0 <= i < |s'.chain| ==> LinkAbove(s, i).ptr == Some(s'.chain[i]);
    hide ChainOk;
    ChainParts(s');
  }

  lemma ChainParts(s: State)
    requires ChainPlaces(s) && forall i :: 0 <= i < |s.chain| ==> LinkAbove(s, i).ptr == Some(s.chain[i])
    ensures ChainOk(s)
  {
    hide LinkAbove;
  }

  /** The part of the chain's law that is about the nodes themselves. */
  ghost predicate ChainPlaces(s: State) {
    && (forall i :: 0 <= i < |s.chain| ==> s.chain[i] in s.heap && s.heap[s.chain[i]].place == Linked(i))
    && (forall a :: a in s.heap && s.heap[a].place.Linked? ==>
          s.heap[a].place.depth < |s.chain| && s.chain[s.heap[a].place.depth] == a)
    && (s.chain == [] ==> s.head.ptr == None)
    && (s.chain != [] ==> s.heap[s.chain[0]].next.ptr == None)
  }

  lemma UnlinkPlaces(s: State, t: Tid, exp: Counted)
    requires ChainOk(s) && exp == s.head && exp.ptr.Some? && exp.ptr.value in s.heap
    ensures
      var s' := Unlink(s, t, exp, s.heap[exp.ptr.value].next);
      ChainPlaces(s') && s.chain != [] && s'.chain == s.chain[..|s.chain| - 1]
      && forall b :: b != exp.ptr.value && b in s.heap && s.heap[b].place.Linked? ==> s.heap[b].place.depth < |s.chain| - 1
  {
    hide LinkAbove;
    NullOrTop(s);
  }

  lemma UnlinkLinks(s: State, t: Tid, exp: Counted)
    requires ChainOk(s) && exp == s.head && exp.ptr.Some? && exp.ptr.value in s.heap
    ensures
      var s' := Unlink(s, t, exp, s.heap[exp.ptr.value].next);
      forall i :: 0 <= i < |s.chain| - 1 ==> LinkAbove(s', i) == LinkAbove(s, i)
  {
    hide LinkAbove;
    NullOrTop(s);
    var s' := Unlink(s, t, exp, s.heap[exp.ptr.value].next);
    forall i | 0 <= i < |s.chain| - 1 ensures LinkAbove(s', i) == LinkAbove(s, i) {
      assert s.chain[i + 1] in s.heap;
      UnlinkLink(s, t, exp, i);
    }
  }

  lemma UnlinkLink(s: State, t: Tid, exp: Counted, i: nat)
    requires exp == s.head && exp.ptr.Some? && exp.ptr.value in s.heap
    requires i + 1 < |s.chain| && s.chain[i + 1] in s.heap && s.chain[|s.chain| - 1] == exp.ptr.value
    ensures LinkAbove(Unlink(s, t, exp, s.heap[exp.ptr.value].next), i) == LinkAbove(s, i)
  {
  }

  lemma KeepUnlink(s: State, t: Tid, exp: Counted, next: Counted)
    requires Inv(s) && t in s.threads && s.threads[t] == NextRead(exp, next)
    ensures Inv(Unlink(s, t, exp, next))
  {
    hide Inv, Holders, Count, ChainOk, LinkAbove, LinksKept;
    InvAt(s, t, if exp.ptr.Some? then exp.ptr.value else 0);
    OwnsNothing(s, t);
    if s.head != exp {
      KeepMove(s, t, Lost(exp.ptr.value, s.head));
    } else {
      var p := exp.ptr.value;
      NullOrTop(s);
      UnlinkChain(s, t, exp);
      HoldersMove(s.threads, t, Won(exp), p);
      KeepFrame(s, Unlink(s, t, exp, next), t, p);
    }
  }

  lemma KeepSwapData(s: State, t: Tid, exp: Counted)
    requires Inv(s) && t in s.threads && s.threads[t] == Won(exp)
    ensures Inv(SwapData(s, t, exp))
  {
    hide Inv, Holders, Count, ChainOk, LinkAbove, LinksKept;
    InvAt(s, t, if exp.ptr.Some? then exp.ptr.value else 0);
    var p := exp.ptr.value;
    var s' := SwapData(s, t, exp);
    OwnsOne(s, t, p);
    HoldersMove(s.threads, t, s'.threads[t], p);
    KeepChain(s, s', p);
    KeepFrame(s, s', t, p);
  }

  lemma KeepTransfer(s: State, t: Tid, exp: Counted, res: Option<Value>)
    requires Inv(s) && t in s.threads && s.threads[t] == Swapped(exp, res)
    ensures Inv(Transfer(s, t, exp, res))
  {
    hide Inv, Holders, Count, ChainOk, LinkAbove, LinksKept;
    InvAt(s, t, if exp.ptr.Some? then exp.ptr.value else 0);
    var p := exp.ptr.value;
    var s' := Transfer(s, t, exp, res);
    OwnsOne(s, t, p);
    HolderCounts(s.threads, t, p);
    HoldersMove(s.threads, t, s'.threads[t], p);
    KeepChain(s, s', p);
    KeepFrame(s, s', t, p);
  }

  lemma KeepDrop(s: State, t: Tid, p: Addr, seen: Counted)
    requires Inv(s) && t in s.threads && s.threads[t] == Lost(p, seen)
    ensures Inv(DropReference(s, t, p, seen))
  {
    hide Inv, Holders, Count, ChainOk, LinkAbove, LinksKept;
    InvAt(s, t, p);
    var s' := DropReference(s, t, p, seen);
    OwnsNothing(s, t);
    HolderCounts(s.threads, t, p);
    HoldersMove(s.threads, t, s'.threads[t], p);
    KeepChain(s, s', p);
    KeepFrame(s, s', t, p);
  }

  lemma KeepRelease(s: State, t: Tid, p: Addr, th: Thread)
    requires Inv(s) && t in s.threads
    requires (s.threads[t].FreeWon? && th.Returning?) || (s.threads[t].FreeLost? && th.Raise?)
    requires s.threads[t].p == p
    ensures Inv(At(Release(s, p), t, th))
  {
    hide Inv, Holders, Count, ChainOk, LinkAbove, LinksKept;
    InvAt(s, t, p);
    var s' := At(Release(s, p), t, th);
    OwnsOne(s, t, p);
    KeepChain(s, s', p);
    KeepFrame(s, s', t, p);
  }

  lemma KeepFinish(s: State, t: Tid)
    requires Inv(s) && t in s.threads && s.threads[t].Returning?
    ensures Inv(s.(threads := s.threads - {t}))
  {
    hide ChainOk, LinkAbove;
    var s' := s.(threads := s.threads - {t});
    OwnsNothing(s, t);
    assert ChainOk(s') by { KeepChain(s, s', 0); }
    forall b | b in s'.heap ensures NodeOk(s', b) {
      assert NodeOk(s, b);
      assert Holders(s'.threads, b) == Holders(s.threads, b);
      KeepChain(s, s', b);
    }
    forall u | u in s'.threads ensures ThreadOk(s', u) { assert ThreadOk(s, u); }
  }

  /** Every step of every thread keeps the counting law, and with it safety. */
  lemma Preservation(s: State, t: Tid, c: Choice)
    requires Inv(s) && Enabled(s, t, c)
    ensures Inv(Next(s, t, c))
  {
    hide Inv, Holders, Count, ChainOk, LinkAbove, NodeOk;
    match c
    case BeginPush(v) => OwnsNothing(s, t); KeepMove(s, t, PushStart(v));
    case BeginPop => OwnsNothing(s, t); KeepMove(s, t, PopStart);
    case Continue(a, spurious) =>
      match s.threads[t]
      case PushStart(v) => KeepAllocate(s, t, v, a);
      case PushLoad(n) => KeepSetNext(s, t, n);
      case PushCas(n) => KeepPublish(s, t, n, spurious);
      case PopStart => OwnsNothing(s, t); KeepMove(s, t, Raise(s.head));
      case Raise(exp) => KeepIncrease(s, t, exp);
      case Raised(exp) => KeepReadNext(s, t, exp);
      case NextRead(exp, next) => KeepUnlink(s, t, exp, next);
      case Won(exp) => KeepSwapData(s, t, exp);
      case Swapped(exp, res) => KeepTransfer(s, t, exp, res);
      case Lost(p, seen) => KeepDrop(s, t, p, seen);
      case FreeWon(p, res) => KeepRelease(s, t, p, Returning(res));
      case FreeLost(p, seen) => KeepRelease(s, t, p, Raise(seen));
      case Returning(_) => KeepFinish(s, t);
  }

  // ---------------------------------------------------------------------------------------
  // Safety over whole runs
  // ---------------------------------------------------------------------------------------

  /** A finite run: states joined by enabled steps, any threads interleaving in any order. */
  ghost predicate Run(states: seq<State>, who: seq<Tid>, how: seq<Choice>) {
    && |states| == |who| + 1 && |who| == |how|
    && Init(states[0])
    && forall i :: 0 <= i < |who| ==> Enabled(states[i], who[i], how[i]) && states[i + 1] == Next(states[i], who[i], how[i])
  }

  lemma {:induction false} RunKeeps(states: seq<State>, who: seq<Tid>, how: seq<Choice>, i: nat)
    requires Run(states, who, how) && i < |states|
    ensures Inv(states[i])
  {
    if i == 0 {
      assert states[0].heap == map[];
    } else {
      RunKeeps(states, who, how, i - 1);
      assert Enabled(states[i - 1], who[i - 1], how[i - 1]);
      Preservation(states[i - 1], who[i - 1], how[i - 1]);
    }
  }

  /** When the compare-exchanges go through. */
  ghost predicate Exchanges(s: State, s': State, t: Tid, spurious: bool) {
    t in s.threads && t in s'.threads && var th, th' := s.threads[t], s'.threads[t];
    && (th.PushCas? ==> th.n in s.heap && (th'.Returning? <==> !spurious && s.head == s.heap[th.n].next))
    && (th.Raise? ==> (th' == Returning(None) <==> s.head == th.exp && s.head.ptr.None?))
    && (th.Raise? ==> (th'.Raised? <==> s.head == th.exp && s.head.ptr.Some?))
    && (th.NextRead? ==> (th'.Won? <==> s.head == th.exp))
  }

  /** In every run the compare-exchange of `push`, of increase_head_count and of `pop` goes
      through exactly if head_ is what the thread read before, or, being weak, the first fails
      for no reason. */
  lemma ExchangeVerdict(states: seq<State>, who: seq<Tid>, how: seq<Choice>, i: nat)
    requires Run(states, who, how) && i < |who| && who[i] in states[i].threads
    requires var th := states[i].threads[who[i]]; th.PushCas? || th.Raise? || th.NextRead?
    ensures Exchanges(states[i], states[i + 1], who[i], how[i].Continue? && how[i].spurious)
  {
    hide Inv, Exchanges, SetNext, Publish, IncreaseHeadCount, Unlink;
    RunKeeps(states, who, how, i);
    var s, t, c := states[i], who[i], how[i];
    assert Enabled(s, t, c) && states[i + 1] == Next(s, t, c);
    hide Run;
    ThreadAt(s, t);
    match s.threads[t]
    case PushCas(n) => PushExchanges(s, t, n, c.spurious);
    case Raise(exp) => RaiseExchanges(s, t, exp, c.spurious);
    case NextRead(exp, next) => PopExchanges(s, t, exp, next, c.spurious);
  }

  lemma PushExchanges(s: State, t: Tid, n: Addr, spurious: bool)
    requires t in s.threads && s.threads[t] == PushCas(n) && n in s.heap
    ensures Exchanges(s, Publish(s, t, n, spurious), t, spurious)
  {
  }

  lemma RaiseExchanges(s: State, t: Tid, exp: Counted, spurious: bool)
    requires t in s.threads && s.threads[t] == Raise(exp)
    ensures Exchanges(s, IncreaseHeadCount(s, t, exp), t, spurious)
  {
  }

  lemma PopExchanges(s: State, t: Tid, exp: Counted, next: Counted, spurious: bool)
    requires t in s.threads && s.threads[t] == NextRead(exp, next) && exp.ptr.Some?
    ensures Exchanges(s, Unlink(s, t, exp, next), t, spurious)
  {
  }

  lemma ThreadAt(s: State, t: Tid)
    requires Inv(s) && t in s.threads
    ensures ThreadOk(s, t)
  {
  }

  /** No run ever touches or releases an unallocated address; and between any two
      consecutive states, a node that a thread goes on holding stays allocated, with its
      link unchanged, so what it reads is never a later tenant of the same address. */
  lemma NoUseAfterFree(states: seq<State>, who: seq<Tid>, how: seq<Choice>, i: nat)
    requires Run(states, who, how) && i < |who|
    ensures !states[i].fault && !states[i + 1].fault
    ensures forall u, p :: HeldBy(states[i].threads, u, p) && HeldBy(states[i + 1].threads, u, p) ==>
      p in states[i].heap && p in states[i + 1].heap && states[i + 1].heap[p].next == states[i].heap[p].next
    ensures forall p :: p in states[i].heap && p !in states[i + 1].heap ==>
      forall u :: !HeldBy(states[i].threads, u, p)
  {
    hide Holders, Count, ChainOk, LinkAbove, NodeOk;
    RunKeeps(states, who, how, i);
    RunKeeps(states, who, how, i + 1);
    var s, s' := states[i], states[i + 1];
    assert Enabled(s, who[i], how[i]) && s' == Next(s, who[i], how[i]);
    forall u, p | HeldBy(s.threads, u, p) && HeldBy(s'.threads, u, p)
      ensures p in s.heap && p in s'.heap && s'.heap[p].next == s.heap[p].next
    {
      assert ThreadOk(s, u) && ThreadOk(s', u);
      HeldIsNotPrivate(s, u, p);
    }
    forall p, u | p in s.heap && p !in s'.heap ensures !HeldBy(s.threads, u, p) {
      assert ThreadOk(s, who[i]);
      if HeldBy(s.threads, u, p) { HeldIsNotPrivate(s, u, p); }
    }
  }

  lemma HeldIsNotPrivate(s: State, u: Tid, p: Addr)
    requires Inv(s) && HeldBy(s.threads, u, p)
    ensures p in s.heap && !s.heap[p].place.Private? && !s.heap[p].place.Dying?
  {
    hide Holders, Count, ChainOk, LinkAbove;
    assert ThreadOk(s, u);
    HolderCounts(s.threads, u, p);
    assert NodeOk(s, p);
  }

  /** The counting law, spelled out: a linked node's external count less one, plus its
      internal count, is the number of threads holding it; once the winner has transferred
      its count, the internal count alone is that number. */
  lemma CountingLaw(states: seq<State>, who: seq<Tid>, how: seq<Choice>, i: nat, a: Addr)
    requires Run(states, who, how) && i < |states| && a in states[i].heap
    ensures var s := states[i]; var node := s.heap[a];
      && (node.place.Linked? ==> LinkAbove(s, node.place.depth).ext - 1 + node.internal == |Holders(s.threads, a)|)
      && (node.place.Popped? ==> node.place.owner in s.threads)
      && (node.place.Popped? ==>
            CarriedBy(s.threads[node.place.owner]).ext - 1 + node.internal == |Holders(s.threads, a)|)
      && (node.place.Shared? ==> node.internal == |Holders(s.threads, a)| > 0)
      && (node.place.Dying? || node.place.Private? ==> Holders(s.threads, a) == {})
  {
    hide ChainOk, LinkAbove;
    RunKeeps(states, who, how, i);
    assert NodeOk(states[i], a);
  }

  /** Nothing leaks: when no operation is under way, the allocated nodes are the linked ones. */
  lemma QuiescentHeap(states: seq<State>, who: seq<Tid>, how: seq<Choice>, i: nat)
    requires Run(states, who, how) && i < |states| && states[i].threads == map[]
    ensures states[i].heap.Keys == set a | a in states[i].chain
  {
    RunKeeps(states, who, how, i);
    var s := states[i];
    forall a | a in s.heap ensures a in s.chain {
      assert NodeOk(s, a);
      assert Holders(s.threads, a) == {};
    }
  }

  // ---------------------------------------------------------------------------------------
  // Refinement of an atomic stack
  // ---------------------------------------------------------------------------------------

  function DataAt(heap: map<Addr, Node>, a: Addr): Option<Value> {
    if a in heap then heap[a].data else None
  }

  ghost function CallOf(heap: map<Addr, Node>, th: Thread): Call {
    match th
    case PushStart(v) => Push(Some(v))
    case PushLoad(n) => Push(DataAt(heap, n))
    case PushCas(n) => Push(DataAt(heap, n))
    case Won(exp) => Done(if exp.ptr.Some? then DataAt(heap, exp.ptr.value) else None)
    case Swapped(_, res) => Done(res)
    case FreeWon(_, res) => Done(res)
    case Returning(res) => Done(res)
    case _ => Pop
  }

  ghost function Abs(s: State): Spec {
    Spec(seq(|s.chain|, i requires 0 <= i < |s.chain| => DataAt(s.heap, s.chain[i])),
         map t | t in s.threads :: CallOf(s.heap, s.threads[t]))
  }

  /** The step at which an operation takes effect: the successful compare-exchange of
      `push` and of `pop`, and the raise that finds a null head. */
  ghost function ActionOf(s: State, t: Tid, c: Choice): Action
    requires Enabled(s, t, c)
  {
    match c
    case BeginPush(v) => Begin(Push(Some(v)))
    case BeginPop => Begin(Pop)
    case Continue(_, spurious) =>
      match s.threads[t]
      case PushCas(n) => if n in s.heap && s.head == s.heap[n].next && !spurious then Commit else Stutter
      case Raise(exp) => if s.head == exp && exp.ptr.None? then Commit else Stutter
      case NextRead(exp, _) => if s.head == exp then Commit else Stutter
      case Returning(_) => End
      case _ => Stutter
  }

  /** Calls of other threads read only nodes that `t` does not own. */
  lemma SameCalls(s: State, heap: map<Addr, Node>, t: Tid)
    requires Inv(s)
    requires forall b :: b in s.heap && OwnerOf(s.heap[b].place) != Some(t) ==> DataAt(heap, b) == s.heap[b].data
    ensures forall u :: u in s.threads && u != t ==> CallOf(heap, s.threads[u]) == CallOf(s.heap, s.threads[u])
  {
    hide Holders, Count, ChainOk, LinkAbove, NodeOk;
    forall u | u in s.threads && u != t ensures CallOf(heap, s.threads[u]) == CallOf(s.heap, s.threads[u]) {
      assert ThreadOk(s, u);
    }
  }

  /** Steps that change no data a linked node or another thread's call depends on. */
  lemma RefineLocal(s: State, s': State, t: Tid)
    requires Inv(s) && t in s'.threads && s'.threads == s.threads[t := s'.threads[t]]
    requires s'.chain == s.chain
    requires forall b :: b in s.heap && OwnerOf(s.heap[b].place) != Some(t) ==> DataAt(s'.heap, b) == s.heap[b].data
    ensures Abs(s').stack == Abs(s).stack
    ensures Abs(s').calls == Abs(s).calls[t := CallOf(s'.heap, s'.threads[t])]
  {
    hide Holders, Count, LinkAbove, NodeOk;
    SameCalls(s, s'.heap, t);
  }

  /** Forward simulation: every step is the matching step of the atomic stack, and the
      value an operation returns is the one it was given at its commit. */
  lemma Refinement(s: State, t: Tid, c: Choice)
    requires Inv(s) && Enabled(s, t, c)
    ensures SpecEnabled(Abs(s), t, ActionOf(s, t, c))
    ensures Abs(Next(s, t, c)) == SpecNext(Abs(s), t, ActionOf(s, t, c))
    ensures ActionOf(s, t, c) == End ==> Abs(s).calls[t] == Done(s.threads[t].res)
  {
    hide Inv, Holders, Count, ChainOk, LinkAbove, NodeOk;
    match c
    case BeginPush(v) => RefineMove(s, t, PushStart(v));
    case BeginPop => RefineMove(s, t, PopStart);
    case Continue(_, _) =>
      match s.threads[t]
      case PopStart => RefineMove(s, t, Raise(s.head));
      case Raise(exp) => RefineIncrease(s, t, exp);
      case Raised(exp) => RefineQuiet(s, t, c);
      case PushCas(n) =>
        if ActionOf(s, t, c) == Commit { RefinePublish(s, t, n); } else { RefineQuiet(s, t, c); }
      case NextRead(exp, next) =>
        if s.head == exp { RefineUnlink(s, t, exp, next); } else { RefineQuiet(s, t, c); }
      case Returning(_) => assert Abs(Next(s, t, c)).calls == Abs(s).calls - {t};
      case _ => RefineQuiet(s, t, c);
  }

  lemma RefineMove(s: State, t: Tid, th: Thread)
    requires Inv(s)
    ensures Abs(At(s, t, th)).stack == Abs(s).stack
    ensures Abs(At(s, t, th)).calls == Abs(s).calls[t := CallOf(s.heap, th)]
    ensures t in s.threads && CallOf(s.heap, th) == CallOf(s.heap, s.threads[t]) ==> Abs(At(s, t, th)) == Abs(s)
  {
    hide Holders, Count, LinkAbove, NodeOk;
    RefineLocal(s, At(s, t, th), t);
  }

  lemma RefineIncrease(s: State, t: Tid, exp: Counted)
    requires Inv(s) && t in s.threads && s.threads[t] == Raise(exp)
    ensures
      var s' := IncreaseHeadCount(s, t, exp);
      Abs(s') == if s.head == exp && exp.ptr.None? then SpecNext(Abs(s), t, Commit) else Abs(s)
  {
    hide Holders, Count, LinkAbove, NodeOk;
    var s' := IncreaseHeadCount(s, t, exp);
    RefineLocal(s, s', t);
    if s.head == exp && exp.ptr.None? {
      NullOrTop(s);
    } else {
      assert Abs(s').calls == Abs(s).calls;
    }
  }

  /** Every other step leaves the atomic stack and all its calls as they were. */
  lemma RefineQuiet(s: State, t: Tid, c: Choice)
    requires Inv(s) && Enabled(s, t, c) && c.Continue? && ActionOf(s, t, c) == Stutter
    requires !s.threads[t].PopStart? && !s.threads[t].Raise?
    ensures Abs(Next(s, t, c)) == Abs(s)
  {
    hide Inv, Next, Abs, ActionOf;
    var th := s.threads[t];
    if th.PushStart? || th.PushLoad? || th.PushCas? {
      RefinePushing(s, t, c);
    } else if th.Won? || th.Swapped? || th.FreeWon? {
      RefineWinner(s, t, c);
    } else {
      Ended(s, t, c);
      RefineLoser(s, t, c);
    }
  }

  lemma Ended(s: State, t: Tid, c: Choice)
    requires Enabled(s, t, c) && c.Continue? && ActionOf(s, t, c) == Stutter
    ensures !s.threads[t].Returning?
  {
  }

  lemma RefinePushing(s: State, t: Tid, c: Choice)
    requires Inv(s) && Enabled(s, t, c) && c.Continue? && ActionOf(s, t, c) == Stutter
    requires var th := s.threads[t]; th.PushStart? || th.PushLoad? || th.PushCas?
    ensures Abs(Next(s, t, c)) == Abs(s)
  {
    hide Inv, Holders, Count, ChainOk, LinkAbove, NodeOk;
    var s' := Next(s, t, c);
    InvAt(s, t, 0);
    RefineLocal(s, s', t);
    assert Abs(s').calls == Abs(s).calls;
  }

  lemma RefineWinner(s: State, t: Tid, c: Choice)
    requires Inv(s) && Enabled(s, t, c) && c.Continue? && ActionOf(s, t, c) == Stutter
    requires var th := s.threads[t]; th.Won? || th.Swapped? || th.FreeWon?
    ensures Abs(Next(s, t, c)) == Abs(s)
  {
    hide Inv, Holders, Count, ChainOk, LinkAbove, NodeOk;
    var s' := Next(s, t, c);
    InvAt(s, t, 0);
    RefineLocal(s, s', t);
    assert Abs(s').calls == Abs(s).calls;
  }

  lemma RefineLoser(s: State, t: Tid, c: Choice)
    requires Inv(s) && Enabled(s, t, c) && c.Continue? && ActionOf(s, t, c) == Stutter
    requires var th := s.threads[t]; th.Raised? || th.NextRead? || th.Lost? || th.FreeLost?
    ensures Abs(Next(s, t, c)) == Abs(s)
  {
    hide Inv, Holders, Count, ChainOk, LinkAbove, NodeOk;
    var s' := Next(s, t, c);
    InvAt(s, t, 0);
    RefineLocal(s, s', t);
    assert Abs(s').calls == Abs(s).calls;
  }

  lemma RefinePublish(s: State, t: Tid, n: Addr)
    requires Inv(s) && t in s.threads && s.threads[t] == PushCas(n) && n in s.heap && s.head == s.heap[n].next
    ensures Abs(Publish(s, t, n, false)) == SpecNext(Abs(s), t, Commit)
  {
    hide Inv, Holders, Count, LinkAbove;
    InvAt(s, t, n);
    var s' := Publish(s, t, n, false);
    assert Abs(s').stack == Abs(s).stack + [s.heap[n].data];
    SameCalls(s, s'.heap, t);
    assert Abs(s').calls == Abs(s).calls[t := Done(None)];
  }

  lemma RefineUnlink(s: State, t: Tid, exp: Counted, next: Counted)
    requires Inv(s) && t in s.threads && s.threads[t] == NextRead(exp, next) && s.head == exp
    ensures Abs(Unlink(s, t, exp, next)) == SpecNext(Abs(s), t, Commit)
  {
    hide Inv, Holders, Count, LinkAbove;
    InvAt(s, t, if exp.ptr.Some? then exp.ptr.value else 0);
    NullOrTop(s);
    var s' := Unlink(s, t, exp, next);
    var n := |s.chain| - 1;
    assert Abs(s').stack == Abs(s).stack[..n];
    SameCalls(s, s'.heap, t);
    assert Abs(s').calls == Abs(s).calls[t := Done(Abs(s).stack[n])];
  }

  /** The atomic stack's view of a run. */
  ghost function Trace(states: seq<State>): seq<Spec> {
    seq(|states|, i requires 0 <= i < |states| => Abs(states[i]))
  }

  ghost function Actions(states: seq<State>, who: seq<Tid>, how: seq<Choice>): seq<Action>
    requires Run(states, who, how)
  {
    seq(|who|, i requires 0 <= i < |who| =>
      if Enabled(states[i], who[i], how[i]) then ActionOf(states[i], who[i], how[i]) else Stutter)
  }

  /** Every run is linearizable: it is a run of the atomic stack, in which each operation
      takes effect at one step of its own and returns what it was given there. */
  lemma Linearizable(states: seq<State>, who: seq<Tid>, how: seq<Choice>)
    requires Run(states, who, how)
    ensures SpecRun(Trace(states), who, Actions(states, who, how))
  {
    hide Inv, Next, Enabled, ActionOf, SpecNext, SpecEnabled;
    var specs, what := Trace(states), Actions(states, who, how);
    assert specs[0] == Spec([], map[]) by { assert Abs(states[0]).calls == map[]; }
    hide Abs;
    forall i | 0 <= i < |who|
      ensures SpecEnabled(specs[i], who[i], what[i]) && specs[i + 1] == SpecNext(specs[i], who[i], what[i])
    {
      RunKeeps(states, who, how, i);
      assert Enabled(states[i], who[i], how[i]) && states[i + 1] == Next(states[i], who[i], how[i]);
      Refinement(states[i], who[i], how[i]);
    }
  }

  /** So no value is popped twice, or without having been pushed, in any run. */
  lemma ValuesConserved(states: seq<State>, who: seq<Tid>, how: seq<Choice>)
    requires Run(states, who, how)
    ensures
      var specs, what := Trace(states), Actions(states, who, how);
      AllPushed(specs, who, what, |who|) == AllPopped(specs, who, what, |who|) + multiset(Abs(states[|who|]).stack)
  {
    Linearizable(states, who, how);
    PoppedAtMostOnce(Trace(states), who, Actions(states, who, how), |who|);
  }
}
