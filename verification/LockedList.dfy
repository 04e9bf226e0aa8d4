/** The singly linked list with one mutex for each node, traversed hand over hand.

    The machine takes one step per lock, unlock, allocation, release and access to a node,
    for any number of threads; a thread that waits for a mutex takes no step until the mutex
    is free.  Addresses may be reused as soon as they are released.  Raising `fault` are:
    touching an address that is not allocated, reading or writing a node of the list without
    holding its mutex, unlocking a mutex that the thread does not hold, and destroying a node
    whose mutex is held or awaited. */
module LockedList {
  import opened Options
  import opened AtomicStack
  import opened Seqs

  type Addr = nat

  /** The node inside the list object, which holds no element. */
  const HEAD: Addr := 0

  /** Where a node stands.  History information, read by no thread: `id` numbers the elements
      in the order in which they entered the list. */
  datatype Place = Head | Private(owner: Tid) | Linked(id: nat) | Unlinked(owner: Tid)

  datatype Node = Node(lock: Option<Tid>, data: Option<Value>, next: Option<Addr>, place: Place)

  /** What a traversal does; `f` is what the caller's function leaves of an element. */
  datatype Op = ForEach(f: Value -> Value) | FindFirstIf(p: Value -> bool) | RemoveIf(p: Value -> bool)

  datatype Visit = Visit(id: nat, seen: Value)

  /** A traversal: `bound` is above the ids of the elements in the list when it began, and
      `visited` lists what it has looked at; history information both. */
  datatype Walk = Walk(op: Op, bound: nat, visited: seq<Visit>)

  /** The control point of a thread, with its live locals. */
  datatype Thread =
    | PushStart(v: Value)
    | PushLock(n: Addr)
    | PushMove(n: Addr)
    | PushLink(n: Addr)
    | PushUnlock
    | Start(op: Op)
    | At(w: Walk, cur: Addr)
    | Want(w: Walk, cur: Addr, next: Addr)
    | Both(w: Walk, cur: Addr, next: Addr)
    | Ahead(w: Walk, next: Addr)
    | Found(w: Walk, next: Addr, v: Value)
    | Pass(w: Walk, cur: Addr, next: Addr)
    | Take(w: Walk, cur: Addr, next: Addr)
    | Splice(w: Walk, cur: Addr, next: Addr)
    | Drop(w: Walk, cur: Addr, next: Addr)
    | Free(w: Walk, cur: Addr, next: Addr)
    | Stop(w: Walk, cur: Addr)
    | Returning(res: Option<Value>)

  /** `chain` lists the nodes of the list from the head, and `nextId` counts the elements that
      have entered it; history information like `place`. */
  datatype State = State(heap: map<Addr, Node>, threads: map<Tid, Thread>, fault: bool, chain: seq<Addr>, nextId: nat)

  datatype Choice = BeginPush(v: Value) | Begin(op: Op) | Continue(addr: Addr)

  ghost predicate Init(s: State) {
    s == State(map[HEAD := Node(None, None, None, Head)], map[], false, [HEAD], 0)
  }

  /** The mutex a thread is about to lock. */
  function Waits(th: Thread): Option<Addr> {
    match th
    case PushLock(_) => Some(HEAD)
    case Start(_) => Some(HEAD)
    case Want(_, _, next) => Some(next)
    case _ => None
  }

  ghost predicate Enabled(s: State, t: Tid, c: Choice) {
    if c.Continue? then
      && t in s.threads
      && (s.threads[t].PushStart? ==> c.addr !in s.heap)
      && (Waits(s.threads[t]).Some? && Waits(s.threads[t]).value in s.heap ==> s.heap[Waits(s.threads[t]).value].lock == None)
    else t !in s.threads
  }

  function Move(s: State, t: Tid, th: Thread): State {
    s.(threads := s.threads[t := th])
  }

  function Fault(s: State): State {
    s.(fault := true)
  }

  function Set(s: State, a: Addr, node: Node): State {
    s.(heap := s.heap[a := node])
  }

  function Lock(s: State, t: Tid, a: Addr, th: Thread): State {
    if a !in s.heap then Fault(s) else Move(Set(s, a, s.heap[a].(lock := Some(t))), t, th)
  }

  function Unlock(s: State, t: Tid, a: Addr, th: Thread): State {
    if !Locked(s, t, a) then Fault(s) else Move(Set(s, a, s.heap[a].(lock := None)), t, th)
  }

  predicate Locked(s: State, t: Tid, a: Addr) {
    a in s.heap && s.heap[a].lock == Some(t)
  }

  /** One step of thread `t`. */
  ghost function Next(s: State, t: Tid, c: Choice): State
    requires Enabled(s, t, c)
  {
    match c
    case BeginPush(v) => Move(s, t, PushStart(v))
    case Begin(op) => Move(s, t, Start(op))
    case Continue(a) =>
      match s.threads[t]
      case PushStart(v) => Move(Set(s, a, Node(None, Some(v), None, Private(t))), t, PushLock(a))
      case PushLock(n) => Lock(s, t, HEAD, PushMove(n))
      case PushMove(n) => MoveNext(s, t, n)
      case PushLink(n) => LinkFirst(s, t, n)
      case PushUnlock => Unlock(s, t, HEAD, Returning(None))
      case Start(op) => Lock(s, t, HEAD, At(Walk(op, s.nextId, []), HEAD))
      case At(w, cur) => ReadNext(s, t, w, cur)
      case Want(w, cur, next) => Lock(s, t, next, Both(w, cur, next))
      case Both(w, cur, next) => if w.op.RemoveIf? then Test(s, t, w, cur, next) else Unlock(s, t, cur, Ahead(w, next))
      case Ahead(w, next) => Look(s, t, w, next)
      case Found(w, next, v) => Unlock(s, t, next, Returning(Some(v)))
      case Pass(w, cur, next) => Unlock(s, t, cur, At(w, next))
      case Take(w, cur, next) => TakeNext(s, t, w, cur, next)
      case Splice(w, cur, next) => SpliceOut(s, t, w, cur, next)
      case Drop(w, cur, next) => Unlock(s, t, next, Free(w, cur, next))
      case Free(w, cur, next) => Delete(s, t, w, cur, next)
      case Stop(w, cur) => Unlock(s, t, cur, Returning(None))
      case Returning(_) => s.(threads := s.threads - {t})
  }

  /** new_node->next_ = std::move(head_.next_) */
  ghost function MoveNext(s: State, t: Tid, n: Addr): State {
    if !Locked(s, t, HEAD) || n !in s.heap || n == HEAD then Fault(s) else
    Move(s.(heap := s.heap[n := s.heap[n].(next := s.heap[HEAD].next)][HEAD := s.heap[HEAD].(next := None)]), t, PushLink(n))
  }

  /** head_.next_ = std::move(new_node) */
  ghost function LinkFirst(s: State, t: Tid, n: Addr): State {
    if !Locked(s, t, HEAD) || n !in s.heap || n == HEAD then Fault(s) else
    var heap := s.heap[n := s.heap[n].(place := Linked(s.nextId))][HEAD := s.heap[HEAD].(next := Some(n))];
    var chain := if s.chain == [] then [n] else [s.chain[0], n] + s.chain[1..];
    State(heap, s.threads[t := PushUnlock], s.fault, chain, s.nextId + 1)
  }

  ghost function ReadNext(s: State, t: Tid, w: Walk, cur: Addr): State {
    if !Locked(s, t, cur) then Fault(s) else
    match s.heap[cur].next
    case None => Move(s, t, Stop(w, cur))
    case Some(next) => Move(s, t, Want(w, cur, next))
  }

  /** The walk after looking at a node. */
  function Visiting(w: Walk, node: Node): Walk {
    if node.place.Linked? && node.data.Some? then w.(visited := w.visited + [Visit(node.place.id, node.data.value)]) else w
  }

  /** The body of `for_each` and `find_first_if`: the caller's function or predicate. */
  ghost function Look(s: State, t: Tid, w: Walk, next: Addr): State {
    if !Locked(s, t, next) || s.heap[next].data.None? then Fault(s) else
    var node := s.heap[next];
    match w.op
    case ForEach(f) => Move(Set(s, next, node.(data := Some(f(node.data.value)))), t, At(Visiting(w, node), next))
    case FindFirstIf(p) =>
      Move(s, t, if p(node.data.value) then Found(Visiting(w, node), next, node.data.value) else At(Visiting(w, node), next))
    case RemoveIf(_) => Fault(s)
  }

  /** The predicate of `remove_if`, with both mutexes held. */
  ghost function Test(s: State, t: Tid, w: Walk, cur: Addr, next: Addr): State
    requires w.op.RemoveIf?
  {
    if !Locked(s, t, next) || s.heap[next].data.None? then Fault(s) else
    var node := s.heap[next];
    Move(s, t, if w.op.p(node.data.value) then Take(Visiting(w, node), cur, next) else Pass(Visiting(w, node), cur, next))
  }

  /** old_next = std::move(current->next_) */
  ghost function TakeNext(s: State, t: Tid, w: Walk, cur: Addr, next: Addr): State {
    if !Locked(s, t, cur) then Fault(s) else Move(Set(s, cur, s.heap[cur].(next := None)), t, Splice(w, cur, next))
  }

  /** current->next_ = std::move(next->next_) */
  ghost function SpliceOut(s: State, t: Tid, w: Walk, cur: Addr, next: Addr): State {
    if !Locked(s, t, cur) || !Locked(s, t, next) || cur == next then Fault(s) else
    var heap := s.heap[cur := s.heap[cur].(next := s.heap[next].next)][next := s.heap[next].(next := None, place := Unlinked(t))];
    State(heap, s.threads[t := Drop(w, cur, next)], s.fault, Without(s.chain, next), s.nextId)
  }

  /** The destruction of `old_next`. */
  ghost function Delete(s: State, t: Tid, w: Walk, cur: Addr, next: Addr): State {
    if next !in s.heap || s.heap[next].lock.Some? || Awaited(s, next) then Fault(s) else
    Move(s.(heap := s.heap - {next}), t, At(w, cur))
  }

  ghost predicate Awaited(s: State, a: Addr) {
    exists u :: u in s.threads && Waits(s.threads[u]) == Some(a)
  }

  function Without(chain: seq<Addr>, a: Addr): seq<Addr> {
    if chain == [] then [] else if chain[0] == a then chain[1..] else [chain[0]] + Without(chain[1..], a)
  }

  // ---------------------------------------------------------------------------------------
  // The invariant
  // ---------------------------------------------------------------------------------------

  predicate InList(place: Place) {
    place.Head? || place.Linked?
  }

  /** Keys fall along the list: the head's is above every id. */
  function Key(s: State, a: Addr): nat
    requires a in s.heap
  {
    if s.heap[a].place.Linked? then s.heap[a].place.id else s.nextId
  }

  function Succ(chain: seq<Addr>, i: nat): Option<Addr> {
    if i + 1 < |chain| then Some(chain[i + 1]) else None
  }

  /** The link out of node `a` is being changed by the thread that holds its mutex. */
  predicate MidAt(th: Thread, a: Addr) {
    (th.PushLink? && a == HEAD) || (th.Splice? && th.cur == a)
  }

  ghost predicate Mid(s: State, a: Addr) {
    a in s.heap && s.heap[a].lock.Some? && s.heap[a].lock.value in s.threads && MidAt(s.threads[s.heap[a].lock.value], a)
  }

  /** The nodes of the list, the head first, are those of `chain`, in falling order of their
      keys, linked one to the next. */
  ghost predicate ChainOk(s: State) {
    && |s.chain| > 0 && s.chain[0] == HEAD
    && (forall i :: 0 <= i < |s.chain| ==> s.chain[i] in s.heap && InList(s.heap[s.chain[i]].place))
    && (forall a :: a in s.heap ==> (s.heap[a].place.Head? <==> a == HEAD) && (InList(s.heap[a].place) ==> a in s.chain))
    && (forall i, j :: 0 <= i < j < |s.chain| ==> Key(s, s.chain[i]) > Key(s, s.chain[j]))
    && (forall i :: 0 <= i < |s.chain| && !Mid(s, s.chain[i]) ==> s.heap[s.chain[i]].next == Succ(s.chain, i))
  }

  /** Thread `th` holds the mutex of `a`. */
  predicate Holds(th: Thread, a: Addr) {
    match th
    case PushMove(_) => a == HEAD
    case PushLink(_) => a == HEAD
    case PushUnlock => a == HEAD
    case At(_, cur) => a == cur
    case Want(_, cur, _) => a == cur
    case Both(_, cur, next) => a == cur || a == next
    case Ahead(_, next) => a == next
    case Found(_, next, _) => a == next
    case Pass(_, cur, next) => a == cur || a == next
    case Take(_, cur, next) => a == cur || a == next
    case Splice(_, cur, next) => a == cur || a == next
    case Drop(_, cur, next) => a == cur || a == next
    case Free(_, cur, _) => a == cur
    case Stop(_, cur) => a == cur
    case _ => false
  }

  predicate Pushes(th: Thread, n: Addr) {
    th == PushLock(n) || th == PushMove(n) || th == PushLink(n)
  }

  predicate Removes(th: Thread, a: Addr) {
    (th.Drop? || th.Free?) && th.next == a
  }

  /** A mutex that is locked is held by a thread that knows, and a node outside the list
      belongs to a thread that knows. */
  ghost predicate NodeLaw(s: State, a: Addr)
    requires a in s.heap
  {
    var node := s.heap[a];
    && (node.lock.Some? ==> node.lock.value in s.threads && Holds(s.threads[node.lock.value], a))
    && (node.place.Linked? ==> node.data.Some?)
    && (node.place.Private? ==>
          node.lock == None && node.data.Some? && node.place.owner in s.threads && Pushes(s.threads[node.place.owner], a))
    && (node.place.Unlinked? ==>
          node.lock in {None, Some(node.place.owner)} && node.place.owner in s.threads && Removes(s.threads[node.place.owner], a))
  }

  /** The predicate of a traversal has turned down what was seen. */
  predicate TurnedDown(op: Op, v: Value) {
    match op
    case ForEach(_) => true
    case FindFirstIf(p) => !p(v)
    case RemoveIf(p) => !p(v)
  }

  predicate Passed(w: Walk, id: nat) {
    exists k :: 0 <= k < |w.visited| && w.visited[k].id == id && TurnedDown(w.op, w.visited[k].seen)
  }

  /** Of the elements that were in the list when the walk began, those now in the list with
      keys from `k` up have been visited and turned down. */
  ghost predicate PassedDownTo(s: State, w: Walk, k: nat) {
    && w.bound <= s.nextId
    && forall a :: a in s.heap && s.heap[a].place.Linked? && k <= s.heap[a].place.id < w.bound ==> Passed(w, s.heap[a].place.id)
  }

  /** Node `a` is in the list and its mutex is held by `t`. */
  ghost predicate Here(s: State, t: Tid, a: Addr) {
    Locked(s, t, a) && InList(s.heap[a].place)
  }

  ghost predicate Owns(s: State, t: Tid, n: Addr) {
    n in s.heap && s.heap[n].place == Private(t) && s.heap[n].lock == None && s.heap[n].data.Some?
  }

  ghost predicate Adjacent(chain: seq<Addr>, a: Addr, b: Addr) {
    exists i :: 0 <= i < |chain| - 1 && chain[i] == a && chain[i + 1] == b
  }

  ghost predicate WalkedTo(s: State, t: Tid, w: Walk, cur: Addr) {
    Here(s, t, cur) && PassedDownTo(s, w, Key(s, cur))
  }

  ghost predicate BothHere(s: State, t: Tid, w: Walk, cur: Addr, next: Addr) {
    WalkedTo(s, t, w, cur) && Here(s, t, next) && s.heap[next].place.Linked?
  }

  ghost predicate Matches(s: State, w: Walk, next: Addr) {
    w.op.RemoveIf? && next in s.heap && s.heap[next].data.Some? && w.op.p(s.heap[next].data.value)
  }

  ghost predicate ThreadLaw(s: State, t: Tid)
    requires t in s.threads
  {
    match s.threads[t]
    case PushLock(n) => Owns(s, t, n)
    case PushMove(n) => Owns(s, t, n) && Here(s, t, HEAD)
    case PushLink(n) => Owns(s, t, n) && Here(s, t, HEAD) && s.heap[n].next == Succ(s.chain, 0)
    case PushUnlock => Here(s, t, HEAD)
    case At(w, cur) => WalkedTo(s, t, w, cur)
    case Want(w, cur, next) => WalkedTo(s, t, w, cur) && s.heap[cur].next == Some(next)
    case Both(w, cur, next) => BothHere(s, t, w, cur, next) && s.heap[cur].next == Some(next)
    case Ahead(w, next) => Here(s, t, next) && s.heap[next].place.Linked? && PassedDownTo(s, w, Key(s, next) + 1) && !w.op.RemoveIf?
    case Found(w, next, v) =>
      Here(s, t, next) && w.op.FindFirstIf? && w.op.p(v) && s.heap[next].data == Some(v)
    case Pass(w, cur, next) => BothHere(s, t, w, cur, next) && s.heap[cur].next == Some(next) && PassedDownTo(s, w, Key(s, next))
    case Take(w, cur, next) => BothHere(s, t, w, cur, next) && s.heap[cur].next == Some(next) && Matches(s, w, next)
    case Splice(w, cur, next) => BothHere(s, t, w, cur, next) && Adjacent(s.chain, cur, next) && Matches(s, w, next)
    case Drop(w, cur, next) => WalkedTo(s, t, w, cur) && Locked(s, t, next) && s.heap[next].place == Unlinked(t)
    case Free(w, cur, next) => WalkedTo(s, t, w, cur) && next in s.heap && s.heap[next].lock == None && s.heap[next].place == Unlinked(t)
    case Stop(w, cur) => WalkedTo(s, t, w, cur) && s.heap[cur].next == None
    case _ => true
  }

  ghost predicate Inv(s: State) {
    && !s.fault && ChainOk(s)
    && (forall a :: a in s.heap ==> NodeLaw(s, a))
    && (forall t :: t in s.threads ==> ThreadLaw(s, t))
  }

  // ---------------------------------------------------------------------------------------
  // Preservation
  // ---------------------------------------------------------------------------------------

  /** A node that another thread than `t` has in its charge. */
  predicate Foreign(node: Node, t: Tid) {
    || (node.lock.Some? && node.lock.value != t)
    || (node.place.Private? && node.place.owner != t)
    || (node.place.Unlinked? && node.place.owner != t)
  }

  ghost predicate LockedByOther(s: State, t: Tid, a: Addr) {
    a in s.heap && s.heap[a].lock.Some? && s.heap[a].lock.value != t
  }

  /** Thread `t` has taken a step that leaves to the other threads what is theirs. */
  ghost predicate Frame(s: State, s': State, t: Tid) {
    && !s'.fault && s.nextId <= s'.nextId
    && (forall u :: u != t ==> (u in s'.threads <==> u in s.threads))
    && (forall u :: u != t && u in s.threads ==> s'.threads[u] == s.threads[u])
    && (forall a :: a in s.heap && Foreign(s.heap[a], t) ==> a in s'.heap && s'.heap[a] == s.heap[a])
    && (forall a :: a in s'.heap && s'.heap[a].place.Linked? && s'.heap[a].place.id < s.nextId ==>
          a in s.heap && s.heap[a].place == s'.heap[a].place)
    && (LockedByOther(s, t, HEAD) ==> Succ(s'.chain, 0) == Succ(s.chain, 0))
    && (forall a, b :: Adjacent(s.chain, a, b) && LockedByOther(s, t, a) && LockedByOther(s, t, b) ==> Adjacent(s'.chain, a, b))
  }

  lemma {:induction false} PassedKept(s: State, s': State, t: Tid, w: Walk, k: nat)
    requires Frame(s, s', t) && PassedDownTo(s, w, k)
    ensures PassedDownTo(s', w, k)
  {
    hide Passed, Foreign, Adjacent;
  }

  lemma {:induction false} WalkKept(s: State, s': State, t: Tid, u: Tid, w: Walk, cur: Addr)
    requires Frame(s, s', t) && u != t && WalkedTo(s, u, w, cur)
    ensures WalkedTo(s', u, w, cur) && s'.heap[cur] == s.heap[cur]
  {
    hide PassedDownTo, Adjacent;
    assert Foreign(s.heap[cur], t);
    PassedKept(s, s', t, w, Key(s, cur));
    PassedHigher(s', w, Key(s, cur), Key(s', cur));
  }

  lemma {:induction false} PassedHigher(s: State, w: Walk, k: nat, k': nat)
    requires PassedDownTo(s, w, k) && k <= k'
    ensures PassedDownTo(s, w, k')
  {
  }

  lemma {:induction false} LawKept(s: State, s': State, t: Tid, u: Tid)
    requires Frame(s, s', t) && u != t && u in s.threads && ThreadLaw(s, u)
    ensures u in s'.threads && ThreadLaw(s', u)
  {
    hide PassedDownTo, Adjacent, Passed, Succ;
    match s.threads[u]
    case PushLock(n) => assert Foreign(s.heap[n], t);
    case PushMove(n) => assert Foreign(s.heap[n], t) && Foreign(s.heap[HEAD], t);
    case PushLink(n) => assert Foreign(s.heap[n], t) && Foreign(s.heap[HEAD], t);
    case PushUnlock => assert Foreign(s.heap[HEAD], t);
    case At(w, cur) => WalkKept(s, s', t, u, w, cur);
    case Want(w, cur, next) => WalkKept(s, s', t, u, w, cur);
    case Both(w, cur, next) => WalkKept(s, s', t, u, w, cur); assert Foreign(s.heap[next], t);
    case Ahead(w, next) => assert Foreign(s.heap[next], t); PassedKept(s, s', t, w, Key(s, next) + 1);
    case Found(w, next, v) => assert Foreign(s.heap[next], t);
    case Pass(w, cur, next) => WalkKept(s, s', t, u, w, cur); assert Foreign(s.heap[next], t); PassedKept(s, s', t, w, Key(s, next));
    case Take(w, cur, next) => WalkKept(s, s', t, u, w, cur); assert Foreign(s.heap[next], t);
    case Splice(w, cur, next) => WalkKept(s, s', t, u, w, cur); assert Foreign(s.heap[next], t); assert LockedByOther(s, t, cur) && LockedByOther(s, t, next);
    case Drop(w, cur, next) => WalkKept(s, s', t, u, w, cur); assert Foreign(s.heap[next], t);
    case Free(w, cur, next) => WalkKept(s, s', t, u, w, cur); assert Foreign(s.heap[next], t);
    case Stop(w, cur) => WalkKept(s, s', t, u, w, cur);
    case _ => { }
  }

  /** What a step of thread `t` has to see to: the nodes it changes or has in its charge. */
  ghost predicate NodesSeenTo(s: State, s': State, t: Tid) {
    forall a :: a in s'.heap && !(a in s.heap && Foreign(s.heap[a], t)) ==> NodeLaw(s', a)
  }

  lemma {:induction false} ForeignLaw(s: State, s': State, t: Tid, a: Addr)
    requires Frame(s, s', t) && a in s.heap && Foreign(s.heap[a], t) && NodeLaw(s, a)
    ensures a in s'.heap && NodeLaw(s', a)
  {
    hide Adjacent;
  }

  lemma {:induction false} KeepInv(s: State, s': State, t: Tid)
    requires Inv(s) && Frame(s, s', t) && ChainOk(s') && NodesSeenTo(s, s', t) && (t in s'.threads ==> ThreadLaw(s', t))
    ensures Inv(s')
  {
    hide ChainOk, NodeLaw, ThreadLaw, Frame, Foreign;
    forall a | a in s'.heap ensures NodeLaw(s', a) {
      if a in s.heap && Foreign(s.heap[a], t) { ForeignLaw(s, s', t, a); }
    }
    SameThreads(s, s', t);
    forall u | u in s'.threads ensures ThreadLaw(s', u) {
      if u != t { LawKept(s, s', t, u); }
    }
  }

  lemma {:induction false} SameThreads(s: State, s': State, t: Tid)
    requires Frame(s, s', t)
    ensures !s'.fault && forall u :: u != t && u in s'.threads ==> u in s.threads
  {
    hide Adjacent, Foreign;
  }

  /** A step that leaves the places, the elements' order and every link alone. */
  ghost predicate Steady(s: State, s': State, t: Tid) {
    && !s'.fault && s'.chain == s.chain && s'.nextId == s.nextId
    && (forall u :: u != t ==> (u in s'.threads <==> u in s.threads))
    && (forall u :: u != t && u in s.threads ==> s'.threads[u] == s.threads[u])
    && (forall a :: a in s'.heap && InList(s'.heap[a].place) ==>
          a in s.heap && s'.heap[a].place == s.heap[a].place && s'.heap[a].next == s.heap[a].next)
    && (forall a :: a in s.heap && (InList(s.heap[a].place) || Foreign(s.heap[a], t)) ==> a in s'.heap)
    && (forall a :: a in s.heap && Foreign(s.heap[a], t) ==> s'.heap[a] == s.heap[a])
    && (forall a :: a in s.heap && a in s'.heap && InList(s.heap[a].place) ==> InList(s'.heap[a].place))
    && (t in s.threads ==> forall a :: !MidAt(s.threads[t], a))
    && (t in s'.threads ==> forall a :: !MidAt(s'.threads[t], a))
  }

  lemma {:induction false} SteadyFrame(s: State, s': State, t: Tid)
    requires Steady(s, s', t)
    ensures Frame(s, s', t)
  {
    hide Adjacent, Succ, MidAt;
  }

  lemma {:induction false} SteadyMid(s: State, s': State, t: Tid, a: Addr)
    requires Steady(s, s', t) && Mid(s, a)
    ensures Mid(s', a)
  {
    assert Foreign(s.heap[a], t);
  }

  lemma {:induction false} SteadyChain(s: State, s': State, t: Tid)
    requires ChainOk(s) && Steady(s, s', t) && HEAD in s'.heap && forall a :: a in s'.heap ==> (s'.heap[a].place.Head? <==> a == HEAD)
    ensures ChainOk(s')
  {
    hide Mid, Succ;
    forall i | 0 <= i < |s'.chain| && !Mid(s', s'.chain[i]) ensures s'.heap[s'.chain[i]].next == Succ(s'.chain, i) {
      var a := s.chain[i];
      if Mid(s, a) { SteadyMid(s, s', t, a); }
    }
  }

  lemma {:induction false} KeepSteady(s: State, s': State, t: Tid)
    requires Inv(s) && Steady(s, s', t) && NodesSeenTo(s, s', t) && (t in s'.threads ==> ThreadLaw(s', t))
    requires HEAD in s'.heap && forall a :: a in s'.heap ==> (s'.heap[a].place.Head? <==> a == HEAD)
    ensures Inv(s')
  {
    hide ChainOk, NodesSeenTo, ThreadLaw, Frame, Steady, NodeLaw;
    SteadyChain(s, s', t);
    SteadyFrame(s, s', t);
    KeepInv(s, s', t);
  }

  lemma {:induction false} InvAt(s: State, t: Tid, a: Addr)
    requires Inv(s)
    ensures !s.fault && ChainOk(s) && HEAD in s.heap && s.heap[HEAD].place.Head?
    ensures t in s.threads ==> ThreadLaw(s, t)
    ensures a in s.heap ==> NodeLaw(s, a) && (s.heap[a].place.Linked? ==> s.heap[a].data.Some?)
  {
  }

  /** Thread `t` of course still has what it had in its charge before. */
  ghost predicate Carries(th: Thread, th': Thread) {
    forall a :: (Holds(th, a) ==> Holds(th', a)) && (Pushes(th, a) ==> Pushes(th', a)) && (Removes(th, a) ==> Removes(th', a))
  }

  predicate Between(th: Thread) {
    th.PushLink? || th.Splice?
  }

  /** A step that changes no node. */
  lemma {:induction false} KeepMove(s: State, t: Tid, th: Thread)
    requires Inv(s) && (t in s.threads ==> !Between(s.threads[t]) && Carries(s.threads[t], th)) && !Between(th)
    requires ThreadLaw(Move(s, t, th), t)
    ensures Inv(Move(s, t, th))
  {
    hide ChainOk, ThreadLaw, Holds, Pushes, Removes;
    var s' := Move(s, t, th);
    InvAt(s, t, HEAD);
    SameHeads(s);
    assert Steady(s, s', t);
    KeepSteady(s, s', t);
  }

  lemma {:induction false} SameHeads(s: State)
    requires ChainOk(s)
    ensures HEAD in s.heap && forall a :: a in s.heap ==> (s.heap[a].place.Head? <==> a == HEAD)
  {
  }

  /** Only the mutex of `a` changes, and thread `t`. */
  lemma {:induction false} KeepMutex(s: State, t: Tid, a: Addr, lock: Option<Tid>, th: Thread)
    requires Inv(s) && t in s.threads && a in s.heap && !Foreign(s.heap[a], t) && (lock == None || lock == Some(t))
    requires !Between(s.threads[t]) && !Between(th)
    requires forall b :: b != a ==> (Holds(s.threads[t], b) ==> Holds(th, b))
    requires lock == Some(t) ==> Holds(th, a)
    requires forall b :: (Pushes(s.threads[t], b) ==> Pushes(th, b)) && (Removes(s.threads[t], b) ==> Removes(th, b))
    requires lock == Some(t) ==> InList(s.heap[a].place)
    requires ThreadLaw(Move(Set(s, a, s.heap[a].(lock := lock)), t, th), t)
    ensures Inv(Move(Set(s, a, s.heap[a].(lock := lock)), t, th))
  {
    hide Inv, ChainOk, ThreadLaw, NodeLaw, NodesSeenTo, Steady, Holds, Pushes, Removes;
    var s' := Move(Set(s, a, s.heap[a].(lock := lock)), t, th);
    InvAt(s, t, a);
    SameHeads(s);
    AllNodes(s);
    MutexNodes(s, s', t, a, lock, th);
    MutexSteady(s, s', t, a, lock, th);
    KeepSteady(s, s', t);
  }

  lemma {:induction false} MutexNodes(s: State, s': State, t: Tid, a: Addr, lock: Option<Tid>, th: Thread)
    requires t in s.threads && a in s.heap && (lock == None || lock == Some(t)) && forall b :: b in s.heap ==> NodeLaw(s, b)
    requires s' == Move(Set(s, a, s.heap[a].(lock := lock)), t, th)
    requires forall b :: b != a ==> (Holds(s.threads[t], b) ==> Holds(th, b))
    requires lock == Some(t) ==> Holds(th, a) && InList(s.heap[a].place)
    requires forall b :: (Pushes(s.threads[t], b) ==> Pushes(th, b)) && (Removes(s.threads[t], b) ==> Removes(th, b))
    ensures NodesSeenTo(s, s', t)
  {
    hide Holds, Pushes, Removes;
    forall b | b in s'.heap && !(b in s.heap && Foreign(s.heap[b], t)) ensures NodeLaw(s', b) {
      assert NodeLaw(s, b);
    }
  }

  lemma {:induction false} MutexSteady(s: State, s': State, t: Tid, a: Addr, lock: Option<Tid>, th: Thread)
    requires !s.fault && t in s.threads && a in s.heap && !Foreign(s.heap[a], t) && !Between(s.threads[t]) && !Between(th)
    requires s' == Move(Set(s, a, s.heap[a].(lock := lock)), t, th)
    ensures Steady(s, s', t)
  {
  }

  /** A mutex change does not move the walks. */
  lemma {:induction false} MutexPassed(s: State, t: Tid, a: Addr, lock: Option<Tid>, th: Thread, w: Walk, k: nat)
    requires a in s.heap && PassedDownTo(s, w, k)
    ensures PassedDownTo(Move(Set(s, a, s.heap[a].(lock := lock)), t, th), w, k)
  {
    hide Passed;
  }

  /** The node after the one a thread holds is in the list, and nothing is between them. */
  lemma {:induction false} NextInList(s: State, t: Tid, cur: Addr, next: Addr)
    requires ChainOk(s) && Here(s, t, cur) && t in s.threads && !Between(s.threads[t]) && s.heap[cur].next == Some(next)
    ensures next in s.heap && s.heap[next].place.Linked? && Adjacent(s.chain, cur, next) && Key(s, next) < Key(s, cur)
    ensures forall a :: a in s.heap && s.heap[a].place.Linked? && s.heap[a].place.id > Key(s, next) ==> s.heap[a].place.id >= Key(s, cur)
  {
    assert !Mid(s, cur);
    var i :| 0 <= i < |s.chain| && s.chain[i] == cur;
    assert s.heap[s.chain[i]].next == Succ(s.chain, i);
    forall a | a in s.heap && s.heap[a].place.Linked? && s.heap[a].place.id > Key(s, next) ensures s.heap[a].place.id >= Key(s, cur) {
      var j :| 0 <= j < |s.chain| && s.chain[j] == a;
      if j < i { assert Key(s, s.chain[j]) > Key(s, s.chain[i]); }
    }
  }

  /** Past the next node, or up to it, once it has been looked at. */
  lemma {:induction false} PassedNext(s: State, t: Tid, w: Walk, cur: Addr, next: Addr)
    requires ChainOk(s) && WalkedTo(s, t, w, cur) && t in s.threads && !Between(s.threads[t]) && s.heap[cur].next == Some(next)
    ensures next in s.heap && s.heap[next].place.Linked? && PassedDownTo(s, w, Key(s, next) + 1)
  {
    hide ChainOk, Passed;
    NextInList(s, t, cur, next);
  }

  lemma {:induction false} LookedAt(s: State, w: Walk, next: Addr)
    requires next in s.heap && s.heap[next].place.Linked? && s.heap[next].data.Some? && PassedDownTo(s, w, Key(s, next) + 1)
    ensures PassedDownTo(s, Visiting(w, s.heap[next]), Key(s, next) + 1)
    ensures TurnedDown(w.op, s.heap[next].data.value) ==> PassedDownTo(s, Visiting(w, s.heap[next]), Key(s, next))
  {
    var w' := Visiting(w, s.heap[next]);
    forall id | Passed(w, id) ensures Passed(w', id) { VisitKept(w, s.heap[next], id); }
    if TurnedDown(w.op, s.heap[next].data.value) { assert w'.visited[|w.visited|].id == s.heap[next].place.id; assert Passed(w', s.heap[next].place.id); }
  }

  lemma {:induction false} VisitKept(w: Walk, node: Node, id: nat)
    requires Passed(w, id)
    ensures Passed(Visiting(w, node), id)
  {
    var k :| 0 <= k < |w.visited| && w.visited[k].id == id && TurnedDown(w.op, w.visited[k].seen);
    assert Visiting(w, node).visited[k] == w.visited[k];
  }

  lemma {:induction false} KeepBegin(s: State, t: Tid, th: Thread)
    requires Inv(s) && t !in s.threads && (th.PushStart? || th.Start?)
    ensures Inv(Move(s, t, th))
  {
    KeepMove(s, t, th);
  }

  lemma {:induction false} KeepAllocate(s: State, t: Tid, v: Value, a: Addr)
    requires Inv(s) && t in s.threads && s.threads[t] == PushStart(v) && a !in s.heap
    ensures Inv(Move(Set(s, a, Node(None, Some(v), None, Private(t))), t, PushLock(a)))
  {
    hide Inv, ChainOk, NodesSeenTo, NodeLaw, Steady;
    var s' := Move(Set(s, a, Node(None, Some(v), None, Private(t))), t, PushLock(a));
    InvAt(s, t, HEAD);
    SameHeads(s);
    AllNodes(s);
    AllocateNodes(s, s', t, v, a);
    AllocateSteady(s, s', t, v, a);
    KeepSteady(s, s', t);
  }

  lemma {:induction false} AllocateSteady(s: State, s': State, t: Tid, v: Value, a: Addr)
    requires !s.fault && t in s.threads && s.threads[t] == PushStart(v) && a !in s.heap
    requires s' == Move(Set(s, a, Node(None, Some(v), None, Private(t))), t, PushLock(a))
    ensures Steady(s, s', t)
  {
  }

  lemma {:induction false} AllocateNodes(s: State, s': State, t: Tid, v: Value, a: Addr)
    requires t in s.threads && s.threads[t] == PushStart(v) && a !in s.heap && forall b :: b in s.heap ==> NodeLaw(s, b)
    requires s' == Move(Set(s, a, Node(None, Some(v), None, Private(t))), t, PushLock(a))
    ensures NodesSeenTo(s, s', t)
  {
    forall b | b in s'.heap && !(b in s.heap && Foreign(s.heap[b], t)) ensures NodeLaw(s', b) {
      if b != a { assert NodeLaw(s, b); }
    }
  }

  lemma {:induction false} KeepReturn(s: State, t: Tid)
    requires Inv(s) && t in s.threads && s.threads[t].Returning?
    ensures Inv(s.(threads := s.threads - {t}))
  {
    hide Inv, ChainOk, ThreadLaw;
    AllNodes(s);
    var s' := s.(threads := s.threads - {t});
    InvAt(s, t, HEAD);
    SameHeads(s);
    assert Steady(s, s', t);
    KeepSteady(s, s', t);
  }

  // Steps of push_front that only lock or unlock.

  lemma {:induction false} KeepPushLock(s: State, t: Tid, n: Addr)
    requires Inv(s) && t in s.threads && s.threads[t] == PushLock(n) && HEAD in s.heap && s.heap[HEAD].lock == None
    ensures Inv(Lock(s, t, HEAD, PushMove(n)))
  {
    hide Inv, ChainOk, NodeLaw, PassedDownTo, Adjacent;
    InvAt(s, t, HEAD);
    KeepMutex(s, t, HEAD, Some(t), PushMove(n));
  }

  lemma {:induction false} KeepPushUnlock(s: State, t: Tid)
    requires Inv(s) && t in s.threads && s.threads[t] == PushUnlock
    ensures Inv(Unlock(s, t, HEAD, Returning(None)))
  {
    hide Inv, ChainOk, NodeLaw, PassedDownTo, Adjacent;
    InvAt(s, t, HEAD);
    KeepMutex(s, t, HEAD, None, Returning(None));
  }

  // Steps of a traversal that only lock or unlock.

  lemma {:induction false} KeepStart(s: State, t: Tid, op: Op)
    requires Inv(s) && t in s.threads && s.threads[t] == Start(op) && HEAD in s.heap && s.heap[HEAD].lock == None
    ensures Inv(Lock(s, t, HEAD, At(Walk(op, s.nextId, []), HEAD)))
  {
    hide Inv, ChainOk, NodeLaw, PassedDownTo, Adjacent;
    InvAt(s, t, HEAD);
    FreshWalk(Move(Set(s, HEAD, s.heap[HEAD].(lock := Some(t))), t, At(Walk(op, s.nextId, []), HEAD)), op);
    KeepMutex(s, t, HEAD, Some(t), At(Walk(op, s.nextId, []), HEAD));
  }

  lemma {:induction false} FreshWalk(s: State, op: Op)
    ensures PassedDownTo(s, Walk(op, s.nextId, []), s.nextId)
  {
  }

  lemma {:induction false} KeepReadNext(s: State, t: Tid, w: Walk, cur: Addr)
    requires Inv(s) && t in s.threads && s.threads[t] == At(w, cur)
    ensures Inv(ReadNext(s, t, w, cur))
  {
    hide Inv, ChainOk, NodeLaw, PassedDownTo, Adjacent;
    InvAt(s, t, cur);
    var th := if s.heap[cur].next == None then Stop(w, cur) else Want(w, cur, s.heap[cur].next.value);
    SamePassed(s, t, th, w, Key(s, cur));
    KeepMove(s, t, th);
  }

  lemma {:induction false} SamePassed(s: State, t: Tid, th: Thread, w: Walk, k: nat)
    requires PassedDownTo(s, w, k)
    ensures PassedDownTo(Move(s, t, th), w, k)
  {
    hide Passed;
  }

  lemma {:induction false} KeepWant(s: State, t: Tid, w: Walk, cur: Addr, next: Addr)
    requires Inv(s) && t in s.threads && s.threads[t] == Want(w, cur, next) && (next in s.heap ==> s.heap[next].lock == None)
    ensures Inv(Lock(s, t, next, Both(w, cur, next)))
  {
    hide Inv, ChainOk, NodeLaw, PassedDownTo, Adjacent;
    InvAt(s, t, cur);
    NextInList(s, t, cur, next);
    MutexPassed(s, t, next, Some(t), Both(w, cur, next), w, Key(s, cur));
    KeepMutex(s, t, next, Some(t), Both(w, cur, next));
  }

  lemma {:induction false} KeepLeave(s: State, t: Tid, w: Walk, cur: Addr, next: Addr)
    requires Inv(s) && t in s.threads && s.threads[t] == Both(w, cur, next) && !w.op.RemoveIf?
    ensures Inv(Unlock(s, t, cur, Ahead(w, next)))
  {
    hide Inv, ChainOk, NodeLaw, PassedDownTo, Adjacent;
    InvAt(s, t, cur);
    NextInList(s, t, cur, next);
    PassedNext(s, t, w, cur, next);
    MutexPassed(s, t, cur, None, Ahead(w, next), w, Key(s, next) + 1);
    KeepMutex(s, t, cur, None, Ahead(w, next));
  }

  lemma {:induction false} KeepPass(s: State, t: Tid, w: Walk, cur: Addr, next: Addr)
    requires Inv(s) && t in s.threads && s.threads[t] == Pass(w, cur, next)
    ensures Inv(Unlock(s, t, cur, At(w, next)))
  {
    hide Inv, ChainOk, NodeLaw, PassedDownTo, Adjacent;
    InvAt(s, t, cur);
    NextInList(s, t, cur, next);
    MutexPassed(s, t, cur, None, At(w, next), w, Key(s, next));
    KeepMutex(s, t, cur, None, At(w, next));
  }

  lemma {:induction false} KeepFound(s: State, t: Tid, w: Walk, next: Addr, v: Value)
    requires Inv(s) && t in s.threads && s.threads[t] == Found(w, next, v)
    ensures Inv(Unlock(s, t, next, Returning(Some(v))))
  {
    hide Inv, ChainOk, NodeLaw, PassedDownTo, Adjacent;
    InvAt(s, t, next);
    KeepMutex(s, t, next, None, Returning(Some(v)));
  }

  lemma {:induction false} KeepStop(s: State, t: Tid, w: Walk, cur: Addr)
    requires Inv(s) && t in s.threads && s.threads[t] == Stop(w, cur)
    ensures Inv(Unlock(s, t, cur, Returning(None)))
  {
    hide Inv, ChainOk, NodeLaw, PassedDownTo, Adjacent;
    InvAt(s, t, cur);
    KeepMutex(s, t, cur, None, Returning(None));
  }

  lemma {:induction false} KeepDrop(s: State, t: Tid, w: Walk, cur: Addr, next: Addr)
    requires Inv(s) && t in s.threads && s.threads[t] == Drop(w, cur, next)
    ensures Inv(Unlock(s, t, next, Free(w, cur, next)))
  {
    hide Inv, ChainOk, NodeLaw, PassedDownTo, Adjacent;
    InvAt(s, t, cur);
    MutexPassed(s, t, next, None, Free(w, cur, next), w, Key(s, cur));
    KeepMutex(s, t, next, None, Free(w, cur, next));
  }

  // Steps that look at an element.

  lemma {:induction false} KeepTest(s: State, t: Tid, w: Walk, cur: Addr, next: Addr)
    requires Inv(s) && t in s.threads && s.threads[t] == Both(w, cur, next) && w.op.RemoveIf?
    ensures Inv(Test(s, t, w, cur, next))
  {
    hide Inv, ChainOk, NodeLaw, PassedDownTo, Adjacent;
    InvAt(s, t, next);
    NextInList(s, t, cur, next);
    PassedNext(s, t, w, cur, next);
    LookedAt(s, w, next);
    var w' := Visiting(w, s.heap[next]);
    StillPassed(s, w, s.heap[next], Key(s, cur));
    var th := if w.op.p(s.heap[next].data.value) then Take(w', cur, next) else Pass(w', cur, next);
    SamePassed(s, t, th, w', Key(s, cur));
    if !w.op.p(s.heap[next].data.value) { SamePassed(s, t, th, w', Key(s, next)); }
    KeepMove(s, t, th);
  }

  lemma {:induction false} StillPassed(s: State, w: Walk, node: Node, k: nat)
    requires PassedDownTo(s, w, k)
    ensures PassedDownTo(s, Visiting(w, node), k)
  {
    hide Passed;
    forall id | Passed(w, id) ensures Passed(Visiting(w, node), id) { VisitKept(w, node, id); }
  }

  lemma {:induction false} KeepLook(s: State, t: Tid, w: Walk, next: Addr)
    requires Inv(s) && t in s.threads && s.threads[t] == Ahead(w, next)
    ensures Inv(Look(s, t, w, next))
  {
    hide Inv, ChainOk, NodeLaw, PassedDownTo, Adjacent;
    InvAt(s, t, next);
    LookedAt(s, w, next);
    var w' := Visiting(w, s.heap[next]);
    match w.op
    case ForEach(f) =>
      KeepChange(s, t, w', next, f(s.heap[next].data.value));
    case FindFirstIf(p) =>
      var th := if p(s.heap[next].data.value) then Found(w', next, s.heap[next].data.value) else At(w', next);
      if !p(s.heap[next].data.value) { SamePassed(s, t, th, w', Key(s, next)); }
      KeepMove(s, t, th);
  }

  lemma {:induction false} KeepChange(s: State, t: Tid, w: Walk, next: Addr, v: Value)
    requires Inv(s) && t in s.threads && s.threads[t].Ahead? && s.threads[t].next == next
    requires Here(s, t, next) && s.heap[next].place.Linked? && PassedDownTo(s, w, Key(s, next))
    ensures Inv(Move(Set(s, next, s.heap[next].(data := Some(v))), t, At(w, next)))
  {
    hide Inv, ChainOk, NodeLaw, PassedDownTo, Adjacent, ThreadLaw, NodesSeenTo;
    var s' := Move(Set(s, next, s.heap[next].(data := Some(v))), t, At(w, next));
    InvAt(s, t, next);
    SameHeads(s);
    ChangePassed(s, w, next, v, t, At(w, next), Key(s, next));
    AllNodes(s);
    ChangeNodes(s, s', t, w, next, v);
    ChangeLaw(s', t, w, next);
    assert Steady(s, s', t);
    KeepSteady(s, s', t);
  }

  lemma {:induction false} ChangePassed(s: State, w: Walk, a: Addr, v: Value, t: Tid, th: Thread, k: nat)
    requires a in s.heap && PassedDownTo(s, w, k)
    ensures PassedDownTo(Move(Set(s, a, s.heap[a].(data := Some(v))), t, th), w, k)
  {
    hide Passed;
  }

  lemma {:induction false} AllNodes(s: State)
    requires Inv(s)
    ensures forall a :: a in s.heap ==> NodeLaw(s, a)
  {
    hide NodeLaw, ChainOk, ThreadLaw;
  }

  lemma {:induction false} ChangeLaw(s: State, t: Tid, w: Walk, next: Addr)
    requires t in s.threads && s.threads[t] == At(w, next) && Here(s, t, next) && PassedDownTo(s, w, Key(s, next))
    ensures ThreadLaw(s, t)
  {
  }

  lemma {:induction false} ChangeNodes(s: State, s': State, t: Tid, w: Walk, next: Addr, v: Value)
    requires t in s.threads && s.threads[t].Ahead? && s.threads[t].next == next && next in s.heap && forall b :: b in s.heap ==> NodeLaw(s, b)
    requires s' == Move(Set(s, next, s.heap[next].(data := Some(v))), t, At(w, next))
    ensures NodesSeenTo(s, s', t)
  {
    forall b | b in s'.heap && !(b in s.heap && Foreign(s.heap[b], t)) ensures NodeLaw(s', b) {
      assert NodeLaw(s, b);
    }
  }

  // The destruction of a node.

  /** A node that has been taken out of the list is neither locked nor awaited by anyone. */
  lemma {:induction false} RemovedAlone(s: State, t: Tid, a: Addr)
    requires Inv(s) && a in s.heap && s.heap[a].place == Unlinked(t)
    ensures s.heap[a].lock in {None, Some(t)}
    ensures !Awaited(s, a)
    ensures forall u :: u in s.threads && u != t ==> !Holds(s.threads[u], a)
  {
    hide Inv, ChainOk, NodeLaw, PassedDownTo, Adjacent;
    InvAt(s, t, a);
    forall u | u in s.threads ensures Waits(s.threads[u]) != Some(a) {
      InvAt(s, u, a);
      match s.threads[u]
      case Want(w, cur, next) => NextInList(s, u, cur, next);
      case _ => { }
    }
    forall u | u in s.threads && u != t ensures !Holds(s.threads[u], a) {
      if Holds(s.threads[u], a) { HeldInList(s, u, a); }
    }
  }

  /** A thread that holds a mutex holds one of a node in the list, or of a node it is removing. */
  lemma {:induction false} HeldInList(s: State, u: Tid, a: Addr)
    requires Inv(s) && u in s.threads && Holds(s.threads[u], a)
    ensures Locked(s, u, a) && (InList(s.heap[a].place) || s.heap[a].place == Unlinked(u))
  {
    InvAt(s, u, a);
  }

  lemma {:induction false} KeepDelete(s: State, t: Tid, w: Walk, cur: Addr, next: Addr)
    requires Inv(s) && t in s.threads && s.threads[t] == Free(w, cur, next)
    ensures Inv(Delete(s, t, w, cur, next))
  {
    hide Inv, ChainOk, NodeLaw, PassedDownTo, Adjacent, NodesSeenTo, Awaited, Steady;
    InvAt(s, t, next);
    RemovedAlone(s, t, next);
    SameHeads(s);
    var s' := Delete(s, t, w, cur, next);
    DeletePassed(s, w, next, Key(s, cur), t, At(w, cur));
    AllNodes(s);
    DeleteNodes(s, s', t, w, cur, next);
    DeleteSteady(s, s', t, w, cur, next);
    KeepSteady(s, s', t);
  }

  lemma {:induction false} DeleteSteady(s: State, s': State, t: Tid, w: Walk, cur: Addr, next: Addr)
    requires !s.fault && t in s.threads && s.threads[t] == Free(w, cur, next)
    requires next in s.heap && s.heap[next].lock == None && s.heap[next].place == Unlinked(t)
    requires s' == Move(s.(heap := s.heap - {next}), t, At(w, cur))
    ensures Steady(s, s', t)
  {
  }

  lemma {:induction false} DeletePassed(s: State, w: Walk, a: Addr, k: nat, t: Tid, th: Thread)
    requires PassedDownTo(s, w, k)
    ensures PassedDownTo(Move(s.(heap := s.heap - {a}), t, th), w, k)
  {
    hide Passed;
  }

  lemma {:induction false} DeleteNodes(s: State, s': State, t: Tid, w: Walk, cur: Addr, next: Addr)
    requires t in s.threads && s.threads[t] == Free(w, cur, next) && forall b :: b in s.heap ==> NodeLaw(s, b)
    requires s' == Move(s.(heap := s.heap - {next}), t, At(w, cur))
    ensures NodesSeenTo(s, s', t)
  {
    forall b | b in s'.heap && !(b in s.heap && Foreign(s.heap[b], t)) ensures NodeLaw(s', b) {
      assert NodeLaw(s, b);
    }
  }

  // The links that change: a node enters the list.

  lemma {:induction false} HeadLink(s: State, t: Tid)
    requires ChainOk(s) && Locked(s, t, HEAD) && t in s.threads && !Between(s.threads[t])
    ensures s.heap[HEAD].next == Succ(s.chain, 0)
  {
    assert !Mid(s, s.chain[0]);
  }

  lemma {:induction false} KeepMoveNext(s: State, t: Tid, n: Addr)
    requires Inv(s) && t in s.threads && s.threads[t] == PushMove(n)
    ensures Inv(MoveNext(s, t, n))
  {
    hide Inv, ChainOk, NodeLaw, NodesSeenTo, Frame, Succ;
    InvAt(s, t, n);
    HeadLink(s, t);
    AllNodes(s);
    var s' := MoveNext(s, t, n);
    MoveNextFrame(s, s', t, n);
    MoveNextNodes(s, s', t, n);
    MoveNextChain(s, s', t, n);
    KeepInv(s, s', t);
  }

  lemma {:induction false} MoveNextFrame(s: State, s': State, t: Tid, n: Addr)
    requires !s.fault && t in s.threads && s.threads[t] == PushMove(n) && Owns(s, t, n) && Here(s, t, HEAD) && n != HEAD && s' == MoveNext(s, t, n)
    ensures Frame(s, s', t)
  {
    hide Adjacent, Succ;
  }

  lemma {:induction false} MoveNextNodes(s: State, s': State, t: Tid, n: Addr)
    requires t in s.threads && s.threads[t] == PushMove(n) && Owns(s, t, n) && Here(s, t, HEAD) && n != HEAD && s' == MoveNext(s, t, n)
    requires forall b :: b in s.heap ==> NodeLaw(s, b)
    ensures NodesSeenTo(s, s', t)
  {
    forall b | b in s'.heap && !(b in s.heap && Foreign(s.heap[b], t)) ensures NodeLaw(s', b) {
      assert NodeLaw(s, b);
    }
  }

  /** While a thread holds the mutex of `a`, the links out of all other nodes stay what they are. */
  lemma {:induction false} MidElsewhere(s: State, s': State, t: Tid, a: Addr)
    requires a in s.heap && Mid(s, a) && t in s.threads && !Between(s.threads[t])
    requires a in s'.heap && s'.heap[a].lock == s.heap[a].lock && forall u :: u in s.threads && u != t ==> u in s'.threads && s'.threads[u] == s.threads[u]
    ensures Mid(s', a)
  {
  }

  /** Thread `t` has begun to change the link out of node `m`, and no other link. */
  ghost predicate OneMid(s: State, s': State, t: Tid, m: Addr) {
    && t in s.threads && !Between(s.threads[t]) && Mid(s', m)
    && s'.chain == s.chain && s'.nextId == s.nextId
    && (forall u :: u in s.threads && u != t ==> u in s'.threads && s'.threads[u] == s.threads[u])
    && (forall a :: a in s.heap <==> a in s'.heap)
    && (forall a :: a in s.heap ==> s'.heap[a].place == s.heap[a].place && s'.heap[a].lock == s.heap[a].lock)
    && (forall a :: a in s.heap && InList(s.heap[a].place) && a != m ==> s'.heap[a].next == s.heap[a].next)
  }

  lemma {:induction false} MidChain(s: State, s': State, t: Tid, m: Addr)
    requires ChainOk(s) && OneMid(s, s', t, m)
    ensures ChainOk(s')
  {
    hide Mid, Succ;
    forall i | 0 <= i < |s'.chain| && !Mid(s', s'.chain[i]) ensures s'.heap[s'.chain[i]].next == Succ(s'.chain, i) {
      var a := s.chain[i];
      if Mid(s, a) { MidElsewhere(s, s', t, a); }
    }
  }

  lemma {:induction false} MoveNextChain(s: State, s': State, t: Tid, n: Addr)
    requires ChainOk(s) && t in s.threads && s.threads[t] == PushMove(n) && Owns(s, t, n) && Here(s, t, HEAD) && n != HEAD && s' == MoveNext(s, t, n)
    ensures ChainOk(s')
  {
    hide ChainOk;
    MidChain(s, s', t, HEAD);
  }

  lemma {:induction false} KeepLinkFirst(s: State, t: Tid, n: Addr)
    requires Inv(s) && t in s.threads && s.threads[t] == PushLink(n)
    ensures Inv(LinkFirst(s, t, n))
  {
    hide Inv, ChainOk, NodeLaw, NodesSeenTo, Frame, Succ;
    InvAt(s, t, n);
    AllNodes(s);
    var s' := LinkFirst(s, t, n);
    LinkFirstFrame(s, s', t, n);
    LinkFirstNodes(s, s', t, n);
    LinkFirstChain(s, s', t, n);
    KeepInv(s, s', t);
  }

  /** The chain with `n` after its first. */
  function AfterFirst(chain: seq<Addr>, n: Addr): seq<Addr>
    requires |chain| > 0
  {
    InsertAt(chain, 1, n)
  }

  lemma {:induction false} LinkedChain(s: State, t: Tid, n: Addr)
    requires |s.chain| > 0 && Locked(s, t, HEAD) && n in s.heap && n != HEAD
    ensures LinkFirst(s, t, n).chain == AfterFirst(s.chain, n)
  {
  }

  lemma {:induction false} AfterFirstAt(chain: seq<Addr>, n: Addr, i: nat)
    requires |chain| > 0 && i < |chain| + 1
    ensures |AfterFirst(chain, n)| == |chain| + 1
    ensures AfterFirst(chain, n)[i] == if i == 0 then chain[0] else if i == 1 then n else chain[i - 1]
    ensures i > 1 ==> Succ(AfterFirst(chain, n), i) == Succ(chain, i - 1)
    ensures i == 1 ==> Succ(AfterFirst(chain, n), i) == Succ(chain, 0)
  {
  }

  lemma {:induction false} LinkFirstFrame(s: State, s': State, t: Tid, n: Addr)
    requires Inv(s) && t in s.threads && s.threads[t] == PushLink(n) && s' == LinkFirst(s, t, n)
    ensures Frame(s, s', t)
  {
    hide Inv, NodeLaw, ChainOk, Succ;
    InvAt(s, t, n);
    HeadFirst(s);
    LinkFirstAdjacent(s, s', t, n);
    hide Adjacent;
  }

  lemma {:induction false} HeadFirst(s: State)
    requires ChainOk(s)
    ensures |s.chain| > 0 && s.chain[0] == HEAD
  {
  }

  lemma {:induction false} LinkFirstAdjacent(s: State, s': State, t: Tid, n: Addr)
    requires |s.chain| > 0 && s.chain[0] == HEAD && Locked(s, t, HEAD) && n in s.heap && n != HEAD && s' == LinkFirst(s, t, n)
    ensures forall a, b :: Adjacent(s.chain, a, b) && LockedByOther(s, t, a) && LockedByOther(s, t, b) ==> Adjacent(s'.chain, a, b)
  {
    LinkedChain(s, t, n);
    hide AfterFirst, LinkFirst, Succ;
    forall a, b | Adjacent(s.chain, a, b) && LockedByOther(s, t, a) && LockedByOther(s, t, b) ensures Adjacent(s'.chain, a, b) {
      var i :| 0 <= i < |s.chain| - 1 && s.chain[i] == a && s.chain[i + 1] == b;
      AfterFirstAt(s.chain, n, i + 1);
      AfterFirstAt(s.chain, n, i + 2);
      assert s'.chain[i + 1] == a && s'.chain[i + 1 + 1] == b;
    }
  }

  lemma {:induction false} LinkFirstNodes(s: State, s': State, t: Tid, n: Addr)
    requires t in s.threads && s.threads[t] == PushLink(n) && Owns(s, t, n) && Here(s, t, HEAD) && n != HEAD && s' == LinkFirst(s, t, n)
    requires forall b :: b in s.heap ==> NodeLaw(s, b)
    ensures NodesSeenTo(s, s', t)
  {
    forall b | b in s'.heap && !(b in s.heap && Foreign(s.heap[b], t)) ensures NodeLaw(s', b) {
      assert NodeLaw(s, b);
    }
  }

  lemma {:induction false} LinkFirstChain(s: State, s': State, t: Tid, n: Addr)
    requires Inv(s) && t in s.threads && s.threads[t] == PushLink(n) && s' == LinkFirst(s, t, n)
    ensures ChainOk(s')
  {
    InvAt(s, t, n);
    hide Inv, NodeLaw, Mid, Succ;
    LinkedChain(s, t, n);
    forall i | 0 <= i < |s'.chain| ensures s'.chain[i] == if i == 0 then s.chain[0] else if i == 1 then n else s.chain[i - 1] {
      AfterFirstAt(s.chain, n, i);
    }
    AfterFirstAt(s.chain, n, 0);
    LinkFirstKeys(s, s', t, n);
    LinkFirstLinks(s, s', t, n);
    LinkFirstMembers(s, s', t, n);
  }

  ghost predicate Shifted(s: State, s': State, n: Addr) {
    && |s.chain| > 0 && |s'.chain| == |s.chain| + 1
    && forall i :: 0 <= i < |s'.chain| ==> s'.chain[i] == if i == 0 then s.chain[0] else if i == 1 then n else s.chain[i - 1]
  }

  lemma {:induction false} LinkFirstMembers(s: State, s': State, t: Tid, n: Addr)
    requires ChainOk(s) && Owns(s, t, n) && Here(s, t, HEAD) && n != HEAD && s' == LinkFirst(s, t, n) && Shifted(s, s', n)
    ensures forall i :: 0 <= i < |s'.chain| ==> s'.chain[i] in s'.heap && InList(s'.heap[s'.chain[i]].place)
    ensures forall a :: a in s'.heap ==> (s'.heap[a].place.Head? <==> a == HEAD) && (InList(s'.heap[a].place) ==> a in s'.chain)
  {
    hide Mid, Succ;
    forall a | a in s'.heap ensures (s'.heap[a].place.Head? <==> a == HEAD) && (InList(s'.heap[a].place) ==> a in s'.chain) {
      if a == n {
        assert s'.chain[1] == n;
      } else if InList(s.heap[a].place) {
        var i :| 0 <= i < |s.chain| && s.chain[i] == a;
        assert s'.chain[if i == 0 then 0 else i + 1] == a;
      }
    }
  }

  lemma {:induction false} LinkFirstKeys(s: State, s': State, t: Tid, n: Addr)
    requires ChainOk(s) && Owns(s, t, n) && Here(s, t, HEAD) && n != HEAD && s' == LinkFirst(s, t, n) && Shifted(s, s', n)
    ensures forall i :: 0 <= i < |s'.chain| ==> s'.chain[i] in s'.heap
    ensures forall i, j :: 0 <= i < j < |s'.chain| ==> Key(s', s'.chain[i]) > Key(s', s'.chain[j])
  {
    hide Mid, Succ;
    assert s'.nextId == s.nextId + 1;
    forall i, j | 0 <= i < j < |s'.chain| ensures Key(s', s'.chain[i]) > Key(s', s'.chain[j]) {
      if j > 1 {
        assert Key(s', s'.chain[j]) == Key(s, s.chain[j - 1]) < Key(s, s.chain[0]) == s.nextId;
        if i > 1 { assert Key(s, s.chain[i - 1]) > Key(s, s.chain[j - 1]); }
      }
    }
  }

  lemma {:induction false} LinkFirstLinks(s: State, s': State, t: Tid, n: Addr)
    requires ChainOk(s) && t in s.threads && s.threads[t] == PushLink(n) && Owns(s, t, n) && Here(s, t, HEAD) && n != HEAD
    requires s.heap[n].next == Succ(s.chain, 0) && s' == LinkFirst(s, t, n) && Shifted(s, s', n)
    ensures forall i :: 0 <= i < |s'.chain| && s'.chain[i] in s'.heap && !Mid(s', s'.chain[i]) ==> s'.heap[s'.chain[i]].next == Succ(s'.chain, i)
  {
    forall i | 0 <= i < |s'.chain| && s'.chain[i] in s'.heap && !Mid(s', s'.chain[i]) ensures s'.heap[s'.chain[i]].next == Succ(s'.chain, i) {
      if i > 1 {
        var a := s.chain[i - 1];
        assert a != HEAD && a != n;
        assert Mid(s, a) ==> Mid(s', a);
        assert Succ(s'.chain, i) == Succ(s.chain, i - 1);
      }
    }
  }

  // A node leaves the list.

  lemma {:induction false} KeepTakeNext(s: State, t: Tid, w: Walk, cur: Addr, next: Addr)
    requires Inv(s) && t in s.threads && s.threads[t] == Take(w, cur, next)
    ensures Inv(TakeNext(s, t, w, cur, next))
  {
    hide Inv, ChainOk, NodeLaw, NodesSeenTo, Frame, Succ, PassedDownTo, Adjacent;
    InvAt(s, t, cur);
    NextInList(s, t, cur, next);
    AllNodes(s);
    var s' := TakeNext(s, t, w, cur, next);
    TakeNextFrame(s, s', t, w, cur, next);
    TakeNextNodes(s, s', t, w, cur, next);
    TakeNextChain(s, s', t, w, cur, next);
    PassedKept(s, s', t, w, Key(s, cur));
    KeepInv(s, s', t);
  }

  lemma {:induction false} TakeNextFrame(s: State, s': State, t: Tid, w: Walk, cur: Addr, next: Addr)
    requires !s.fault && Here(s, t, cur) && s' == TakeNext(s, t, w, cur, next)
    ensures Frame(s, s', t)
  {
    hide Adjacent, Succ;
  }

  lemma {:induction false} TakeNextNodes(s: State, s': State, t: Tid, w: Walk, cur: Addr, next: Addr)
    requires t in s.threads && s.threads[t] == Take(w, cur, next) && Here(s, t, cur) && s' == TakeNext(s, t, w, cur, next)
    requires forall b :: b in s.heap ==> NodeLaw(s, b)
    ensures NodesSeenTo(s, s', t)
  {
    forall b | b in s'.heap && !(b in s.heap && Foreign(s.heap[b], t)) ensures NodeLaw(s', b) {
      assert NodeLaw(s, b);
    }
  }

  lemma {:induction false} TakeNextChain(s: State, s': State, t: Tid, w: Walk, cur: Addr, next: Addr)
    requires ChainOk(s) && t in s.threads && s.threads[t] == Take(w, cur, next) && Here(s, t, cur) && s' == TakeNext(s, t, w, cur, next)
    ensures ChainOk(s')
  {
    hide ChainOk;
    MidChain(s, s', t, cur);
  }

  lemma {:induction false} WithoutAt(chain: seq<Addr>, k: nat)
    requires k < |chain| && forall i, j :: 0 <= i < j < |chain| ==> chain[i] != chain[j]
    ensures Without(chain, chain[k]) == DropAt(chain, k)
  {
    if k > 0 {
      assert chain[0] != chain[k];
      var rest := chain[1..];
      assert forall i, j :: 0 <= i < j < |rest| ==> rest[i] != rest[j] by {
        forall i, j | 0 <= i < j < |rest| ensures rest[i] != rest[j] { assert chain[i + 1] != chain[j + 1]; }
      }
      WithoutAt(rest, k - 1);
      hide Without;
      assert [chain[0]] + DropAt(rest, k - 1) == DropAt(chain, k);
    }
  }

  lemma {:induction false} Distinct(s: State)
    requires ChainOk(s)
    ensures forall i, j :: 0 <= i < j < |s.chain| ==> s.chain[i] != s.chain[j]
  {
    forall i, j | 0 <= i < j < |s.chain| ensures s.chain[i] != s.chain[j] { assert Key(s, s.chain[i]) > Key(s, s.chain[j]); }
  }

  /** `chain'` is `chain` without the node at `k`. */
  ghost predicate Dropped(chain: seq<Addr>, chain': seq<Addr>, k: nat) {
    && k < |chain| && |chain'| == |chain| - 1
    && forall i :: 0 <= i < |chain'| ==> chain'[i] == chain[if i < k then i else i + 1]
  }

  ghost predicate Splicing(s: State, s': State, t: Tid, w: Walk, cur: Addr, next: Addr, k: nat) {
    && t in s.threads && s.threads[t] == Splice(w, cur, next) && Here(s, t, cur) && Here(s, t, next) && cur != next
    && s' == SpliceOut(s, t, w, cur, next)
    && 0 < k < |s.chain| && s.chain[k - 1] == cur && s.chain[k] == next && Dropped(s.chain, s'.chain, k)
  }

  lemma {:induction false} DroppedAt(chain: seq<Addr>, k: nat)
    requires k < |chain|
    ensures Dropped(chain, DropAt(chain, k), k)
  {
  }

  lemma {:induction false} SpliceAt(s: State, t: Tid, w: Walk, cur: Addr, next: Addr) returns (k: nat)
    requires Inv(s) && t in s.threads && s.threads[t] == Splice(w, cur, next)
    ensures Splicing(s, SpliceOut(s, t, w, cur, next), t, w, cur, next, k)
  {
    hide Inv, NodeLaw, PassedDownTo, Succ, Mid, ChainOk, Dropped, Without, DropAt, Key;
    InvAt(s, t, cur);
    Distinct(s);
    var i :| 0 <= i < |s.chain| - 1 && s.chain[i] == cur && s.chain[i + 1] == next;
    k := i + 1;
    WithoutAt(s.chain, k);
    DroppedAt(s.chain, k);
    assert cur != next;
  }

  lemma {:induction false} SpliceAdjacent(s: State, s': State, t: Tid, w: Walk, cur: Addr, next: Addr, k: nat)
    requires Splicing(s, s', t, w, cur, next, k)
    ensures forall a, b :: Adjacent(s.chain, a, b) && LockedByOther(s, t, a) && LockedByOther(s, t, b) ==> Adjacent(s'.chain, a, b)
  {
    hide SpliceOut;
    forall a, b | Adjacent(s.chain, a, b) && LockedByOther(s, t, a) && LockedByOther(s, t, b) ensures Adjacent(s'.chain, a, b) {
      var i :| 0 <= i < |s.chain| - 1 && s.chain[i] == a && s.chain[i + 1] == b;
      var j := if i < k then i else i - 1;
      assert s'.chain[j] == a && s'.chain[j + 1] == b;
    }
  }

  lemma {:induction false} SpliceFrame(s: State, s': State, t: Tid, w: Walk, cur: Addr, next: Addr, k: nat)
    requires Splicing(s, s', t, w, cur, next, k) && !s.fault && |s.chain| > 0 && s.chain[0] == HEAD
    ensures Frame(s, s', t)
  {
    SpliceAdjacent(s, s', t, w, cur, next, k);
    hide Adjacent;
  }

  lemma {:induction false} SpliceNodes(s: State, s': State, t: Tid, w: Walk, cur: Addr, next: Addr, k: nat)
    requires Splicing(s, s', t, w, cur, next, k) && s.heap[next].place.Linked?
    requires forall b :: b in s.heap ==> NodeLaw(s, b)
    ensures NodesSeenTo(s, s', t)
  {
    hide Dropped;
    forall b | b in s'.heap && !(b in s.heap && Foreign(s.heap[b], t)) ensures NodeLaw(s', b) {
      assert NodeLaw(s, b);
    }
  }

  /** What the splicing leaves of the nodes. */
  lemma {:induction false} SplicedHeap(s: State, s': State, t: Tid, w: Walk, cur: Addr, next: Addr, k: nat)
    requires Splicing(s, s', t, w, cur, next, k)
    ensures Dropped(s.chain, s'.chain, k) && s.chain[k] == next && next in s'.heap && s'.heap[next].place == Unlinked(t) && s'.nextId == s.nextId
    ensures forall a :: a in s.heap <==> a in s'.heap
    ensures forall a :: a in s.heap && a != next ==> s'.heap[a].place == s.heap[a].place
  {
    hide Dropped;
  }

  lemma {:induction false} SpliceMembers(s: State, s': State, t: Tid, w: Walk, cur: Addr, next: Addr, k: nat)
    requires ChainOk(s) && Splicing(s, s', t, w, cur, next, k)
    ensures |s'.chain| > 0 && s'.chain[0] == HEAD
    ensures forall i :: 0 <= i < |s'.chain| ==> s'.chain[i] in s'.heap && InList(s'.heap[s'.chain[i]].place)
    ensures forall a :: a in s'.heap ==> (s'.heap[a].place.Head? <==> a == HEAD) && (InList(s'.heap[a].place) ==> a in s'.chain)
  {
    assert 0 < k;
    hide Mid, Succ, Splicing, Key;
    Distinct(s);
    SplicedHeap(s, s', t, w, cur, next, k);
    SplicedIn(s, s', next, k);
    forall i | 0 <= i < |s'.chain| ensures s'.chain[i] in s'.heap && InList(s'.heap[s'.chain[i]].place) {
      var j := if i < k then i else i + 1;
      assert s.chain[j] in s.heap && InList(s.heap[s.chain[j]].place) && s.chain[j] != next;
    }
  }

  lemma {:induction false} SplicedIn(s: State, s': State, next: Addr, k: nat)
    requires ChainOk(s) && Dropped(s.chain, s'.chain, k) && s.chain[k] == next && k > 0 && next in s'.heap && s'.heap[next].place.Unlinked?
    requires forall i, j :: 0 <= i < j < |s.chain| ==> s.chain[i] != s.chain[j]
    requires forall a :: a in s.heap <==> a in s'.heap
    requires forall a :: a in s.heap && a != next ==> s'.heap[a].place == s.heap[a].place
    ensures forall a :: a in s'.heap ==> (s'.heap[a].place.Head? <==> a == HEAD) && (InList(s'.heap[a].place) ==> a in s'.chain)
  {
    assert next != HEAD by { assert s.chain[0] != s.chain[k]; }
    hide Mid, Succ, Key, Dropped;
    forall a | a in s'.heap && InList(s'.heap[a].place) ensures a in s'.chain { StaysIn(s.chain, s'.chain, k, a); }
  }

  lemma {:induction false} StaysIn(chain: seq<Addr>, chain': seq<Addr>, k: nat, a: Addr)
    requires Dropped(chain, chain', k) && a in chain && a != chain[k]
    ensures a in chain'
  {
    var i :| 0 <= i < |chain| && chain[i] == a;
    assert chain'[if i < k then i else i - 1] == a;
  }

  lemma {:induction false} SpliceKeys(s: State, s': State, t: Tid, w: Walk, cur: Addr, next: Addr, k: nat)
    requires ChainOk(s) && Splicing(s, s', t, w, cur, next, k)
    ensures forall i :: 0 <= i < |s'.chain| ==> s'.chain[i] in s'.heap
    ensures forall i, j :: 0 <= i < j < |s'.chain| ==> Key(s', s'.chain[i]) > Key(s', s'.chain[j])
  {
    hide Mid, Succ, Splicing;
    Distinct(s);
    SplicedHeap(s, s', t, w, cur, next, k);
    forall i, j | 0 <= i < j < |s'.chain| ensures Key(s', s'.chain[i]) > Key(s', s'.chain[j]) {
      var i', j' := if i < k then i else i + 1, if j < k then j else j + 1;
      assert Key(s, s.chain[i']) > Key(s, s.chain[j']);
    }
  }

  lemma {:induction false} SpliceLinks(s: State, s': State, t: Tid, w: Walk, cur: Addr, next: Addr, k: nat)
    requires ChainOk(s) && Splicing(s, s', t, w, cur, next, k)
    ensures forall i :: 0 <= i < |s'.chain| && s'.chain[i] in s'.heap && !Mid(s', s'.chain[i]) ==> s'.heap[s'.chain[i]].next == Succ(s'.chain, i)
  {
    Distinct(s);
    NextLinked(s, s', t, w, cur, next, k);
    forall i | 0 <= i < |s'.chain| && s'.chain[i] in s'.heap && !Mid(s', s'.chain[i]) ensures s'.heap[s'.chain[i]].next == Succ(s'.chain, i) {
      if i != k - 1 { FarLinked(s, s', t, w, cur, next, k, i); }
    }
  }

  lemma {:induction false} NextLinked(s: State, s': State, t: Tid, w: Walk, cur: Addr, next: Addr, k: nat)
    requires ChainOk(s) && Splicing(s, s', t, w, cur, next, k)
    ensures cur in s'.heap && s'.chain[k - 1] == cur && s'.heap[cur].next == Succ(s'.chain, k - 1)
  {
    assert !Mid(s, next);
    assert s.heap[s.chain[k]].next == Succ(s.chain, k);
  }

  /** A node away from the gap goes on leading where it led. */
  lemma {:induction false} FarLinked(s: State, s': State, t: Tid, w: Walk, cur: Addr, next: Addr, k: nat, i: nat)
    requires ChainOk(s) && Splicing(s, s', t, w, cur, next, k) && i < |s'.chain| && i != k - 1
    requires forall i, j :: 0 <= i < j < |s.chain| ==> s.chain[i] != s.chain[j]
    requires s'.chain[i] in s'.heap && !Mid(s', s'.chain[i])
    ensures s'.heap[s'.chain[i]].next == Succ(s'.chain, i)
  {
    hide Key;
    var j := if i < k then i else i + 1;
    var a := s.chain[j];
    assert a != cur && a != next;
    assert Mid(s, a) ==> Mid(s', a);
    assert s.heap[s.chain[j]].next == Succ(s.chain, j);
  }

  lemma {:induction false} KeepSpliceOut(s: State, t: Tid, w: Walk, cur: Addr, next: Addr)
    requires Inv(s) && t in s.threads && s.threads[t] == Splice(w, cur, next)
    ensures Inv(SpliceOut(s, t, w, cur, next))
  {
    var s' := SpliceOut(s, t, w, cur, next);
    hide Inv, ChainOk, NodeLaw, NodesSeenTo, Frame, PassedDownTo, Adjacent, Dropped;
    InvAt(s, t, cur);
    AllNodes(s);
    HeadFirst(s);
    var k := SpliceAt(s, t, w, cur, next);
    SpliceFrame(s, s', t, w, cur, next, k);
    SpliceNodes(s, s', t, w, cur, next, k);
    SpliceChain(s, s', t, w, cur, next, k);
    PassedKept(s, s', t, w, Key(s, cur));
    KeepInv(s, s', t);
  }

  lemma {:induction false} SpliceChain(s: State, s': State, t: Tid, w: Walk, cur: Addr, next: Addr, k: nat)
    requires ChainOk(s) && Splicing(s, s', t, w, cur, next, k)
    ensures ChainOk(s')
  {
    hide Splicing, Mid, Succ;
    SpliceMembers(s, s', t, w, cur, next, k);
    SpliceKeys(s, s', t, w, cur, next, k);
    SpliceLinks(s, s', t, w, cur, next, k);
  }

  /** Every step of every thread keeps the invariant. */
  lemma {:induction false} KeepNext(s: State, t: Tid, c: Choice)
    requires Inv(s) && Enabled(s, t, c)
    ensures Inv(Next(s, t, c))
  {
    hide Inv, Lock, Unlock, ReadNext, Test, Look, MoveNext, LinkFirst, TakeNext, SpliceOut, Delete;
    InvAt(s, t, HEAD);
    hide ThreadLaw, ChainOk, NodeLaw;
    match c
    case BeginPush(v) => KeepBegin(s, t, PushStart(v));
    case Begin(op) => KeepBegin(s, t, Start(op));
    case Continue(a) => KeepContinue(s, t, a);
  }

  lemma {:induction false} KeepContinue(s: State, t: Tid, a: Addr)
    requires Inv(s) && Enabled(s, t, Continue(a))
    ensures Inv(Next(s, t, Continue(a)))
  {
    hide Inv, Lock, Unlock, ReadNext, Test, Look, MoveNext, LinkFirst, TakeNext, SpliceOut, Delete, ThreadLaw, ChainOk, NodeLaw, Move, Set;
    InvAt(s, t, HEAD);
    match s.threads[t]
    case PushStart(v) => KeepAllocate(s, t, v, a);
    case PushLock(n) => KeepPushLock(s, t, n);
    case PushMove(n) => KeepMoveNext(s, t, n);
    case PushLink(n) => KeepLinkFirst(s, t, n);
    case PushUnlock => KeepPushUnlock(s, t);
    case Start(op) => KeepStart(s, t, op);
    case At(w, cur) => KeepReadNext(s, t, w, cur);
    case Want(w, cur, next) => KeepWant(s, t, w, cur, next);
    case Both(w, cur, next) => if w.op.RemoveIf? { KeepTest(s, t, w, cur, next); } else { KeepLeave(s, t, w, cur, next); }
    case Ahead(w, next) => KeepLook(s, t, w, next);
    case Found(w, next, v) => KeepFound(s, t, w, next, v);
    case Pass(w, cur, next) => KeepPass(s, t, w, cur, next);
    case Take(w, cur, next) => KeepTakeNext(s, t, w, cur, next);
    case Splice(w, cur, next) => KeepSpliceOut(s, t, w, cur, next);
    case Drop(w, cur, next) => KeepDrop(s, t, w, cur, next);
    case Free(w, cur, next) => KeepDelete(s, t, w, cur, next);
    case Stop(w, cur) => KeepStop(s, t, w, cur);
    case Returning(_) => KeepReturn(s, t);
  }
}