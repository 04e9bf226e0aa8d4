/** What holds in every run of the hand-over-hand list: no fault, no deadlock, complete
    traversals, and a list that changes by whole elements. */
module LockedListRuns {
  import opened Options
  import opened AtomicStack
  import opened Seqs
  import opened LockedList

  // ---------------------------------------------------------------------------------------
  // Runs
  // ---------------------------------------------------------------------------------------

  /** A run from the empty list, thread `who[i]` taking step `how[i]`. */
  ghost predicate Run(states: seq<State>, who: seq<Tid>, how: seq<Choice>) {
    && |states| == |who| + 1 && |who| == |how|
    && Init(states[0])
    && forall i :: 0 <= i < |who| ==> Enabled(states[i], who[i], how[i]) && states[i + 1] == Next(states[i], who[i], how[i])
  }

  lemma {:induction false} InitHolds(s: State)
    requires Init(s)
    ensures Inv(s)
  {
  }

  /** In no run does any thread touch a node that has been released, or one whose mutex it
      does not hold. */
  lemma {:induction false} RunKeeps(states: seq<State>, who: seq<Tid>, how: seq<Choice>, i: nat)
    requires Run(states, who, how) && i < |states|
    ensures Inv(states[i]) && !states[i].fault
  {
    hide Inv, Next, Enabled, Init;
    if i == 0 {
      InitHolds(states[0]);
    } else {
      RunKeeps(states, who, how, i - 1);
      assert Enabled(states[i - 1], who[i - 1], how[i - 1]) && states[i - 1 + 1] == Next(states[i - 1], who[i - 1], how[i - 1]);
      KeepNext(states[i - 1], who[i - 1], how[i - 1]);
    }
    NoFault(states[i]);
  }

  lemma {:induction false} NoFault(s: State)
    requires Inv(s)
    ensures !s.fault
  {
  }

  // ---------------------------------------------------------------------------------------
  // Freedom from deadlock
  // ---------------------------------------------------------------------------------------

  ghost predicate CanStep(s: State, t: Tid) {
    exists c: Choice :: c.Continue? && Enabled(s, t, c)
  }

  /** A waiting thread waits further down the list than anything it holds. */
  lemma {:induction false} WaitsForward(s: State, t: Tid, a: Addr, k: nat)
    requires Inv(s) && t in s.threads && k < |s.chain| && Holds(s.threads[t], s.chain[k]) && Waits(s.threads[t]) == Some(a)
    ensures k + 1 < |s.chain| && a == s.chain[k + 1]
  {
    hide Inv, PassedDownTo, NodeLaw, Succ, Mid;
    InvAt(s, t, s.chain[k]);
    Distinct(s);
    hide ChainOk;
    match s.threads[t]
    case Want(w, cur, next) =>
      NextInList(s, t, cur, next);
    case _ => { }
  }

  /** If a thread waits for the node at `k`, some thread can take a step. */
  lemma {:induction false} SomeoneBeyond(s: State, t: Tid, k: nat) returns (u: Tid)
    requires Inv(s) && t in s.threads && k < |s.chain| && Waits(s.threads[t]) == Some(s.chain[k])
    ensures u in s.threads && CanStep(s, u)
    decreases |s.chain| - k
  {
    hide Inv, ThreadLaw, ChainOk;
    var a := s.chain[k];
    InvAt(s, t, a);
    if a !in s.heap || s.heap[a].lock == None {
      assert Enabled(s, t, Continue(0));
      u := t;
    } else {
      u := s.heap[a].lock.value;
      hide NodeLaw, Holds, Enabled;
      u := FromHolder(s, u, k);
    }
  }

  lemma {:induction false} FromHolder(s: State, h: Tid, k: nat) returns (u: Tid)
    requires Inv(s) && h in s.threads && k < |s.chain| && Holds(s.threads[h], s.chain[k])
    ensures u in s.threads && CanStep(s, u)
    decreases |s.chain| - k, 0
  {
    hide Inv, Holds, CanStep, Waits;
    if Waits(s.threads[h]) == None {
      RunsOn(s, h);
      u := h;
    } else {
      WaitsForward(s, h, Waits(s.threads[h]).value, k);
      u := SomeoneBeyond(s, h, k + 1);
    }
  }

  lemma {:induction false} RunsOn(s: State, t: Tid)
    requires Inv(s) && t in s.threads && Waits(s.threads[t]) == None
    ensures CanStep(s, t)
  {
    hide Inv;
    var a := Unused(s.heap.Keys);
    assert a !in s.heap.Keys;
    assert Enabled(s, t, Continue(a));
  }

  /** Some address is above all those in use. */
  lemma {:induction false} Unused(addrs: set<Addr>) returns (a: Addr)
    ensures forall b :: b in addrs ==> b < a
  {
    if addrs == {} {
      a := 0;
    } else {
      var c :| c in addrs;
      var rest := addrs - {c};
      a := Unused(rest);
      assert forall b :: b in addrs ==> b == c || b in rest;
      if a <= c { a := c + 1; }
    }
  }

  /** No reachable state is a deadlock: as long as an operation is unfinished, some thread in
      the middle of one can take its next step. */
  lemma {:induction false} NoDeadlock(states: seq<State>, who: seq<Tid>, how: seq<Choice>, i: nat, t: Tid) returns (u: Tid)
    requires Run(states, who, how) && i < |states| && t in states[i].threads
    ensures u in states[i].threads && CanStep(states[i], u)
  {
    hide Run;
    RunKeeps(states, who, how, i);
    u := SomeoneSteps(states[i], t);
  }

  lemma {:induction false} SomeoneSteps(s: State, t: Tid) returns (u: Tid)
    requires Inv(s) && t in s.threads
    ensures u in s.threads && CanStep(s, u)
  {
    if Waits(s.threads[t]) == None {
      RunsOn(s, t);
      u := t;
    } else {
      var k := WaitsInList(s, t);
      u := SomeoneBeyond(s, t, k);
    }
  }

  lemma {:induction false} WaitsInList(s: State, t: Tid) returns (k: nat)
    requires Inv(s) && t in s.threads && Waits(s.threads[t]).Some?
    ensures k < |s.chain| && Waits(s.threads[t]) == Some(s.chain[k])
  {
    hide Inv, PassedDownTo, NodeLaw, Succ, Mid;
    InvAt(s, t, HEAD);
    HeadFirst(s);
    k := 0;
    if s.threads[t].Want? {
      NextInList(s, t, s.threads[t].cur, s.threads[t].next);
      var i :| 0 <= i < |s.chain| - 1 && s.chain[i] == s.threads[t].cur && s.chain[i + 1] == s.threads[t].next;
      k := i + 1;
    }
  }

  // ---------------------------------------------------------------------------------------
  // Traversals
  // ---------------------------------------------------------------------------------------

  /** The traversal a thread is in, once it has the mutex of the head. */
  function WalkOf(th: Thread): Option<Walk> {
    match th
    case At(w, _) => Some(w)
    case Want(w, _, _) => Some(w)
    case Both(w, _, _) => Some(w)
    case Ahead(w, _) => Some(w)
    case Found(w, _, _) => Some(w)
    case Pass(w, _, _) => Some(w)
    case Take(w, _, _) => Some(w)
    case Splice(w, _, _) => Some(w)
    case Drop(w, _, _) => Some(w)
    case Free(w, _, _) => Some(w)
    case Stop(w, _) => Some(w)
    case _ => None
  }

  ghost predicate Walking(s: State, t: Tid) {
    t in s.threads && WalkOf(s.threads[t]).Some?
  }

  /** A step moves no thread but its own. */
  lemma {:induction false} OthersStand(s: State, t: Tid, c: Choice, u: Tid)
    requires Enabled(s, t, c) && u != t
    ensures u in Next(s, t, c).threads <==> u in s.threads
    ensures u in s.threads ==> Next(s, t, c).threads[u] == s.threads[u]
  {
    hide Awaited, Without, Visiting, Locked, Enabled;
    if c.Continue? { OthersStandContinue(s, t, c, u); }
  }

  lemma {:induction false} OthersStandContinue(s: State, t: Tid, c: Choice, u: Tid)
    requires Enabled(s, t, c) && c.Continue? && u != t
    ensures u in Next(s, t, c).threads <==> u in s.threads
    ensures u in s.threads ==> Next(s, t, c).threads[u] == s.threads[u]
  {
    hide Awaited, Without, Visiting, Locked;
    match s.threads[t]
    case PushStart(_) => { }
    case Returning(_) => { }
    case _ => { }
  }

  /** A walk goes on under the terms on which it began. */
  ghost predicate SameTerms(w: Walk, w': Walk) {
    w'.op == w.op && w'.bound == w.bound
  }

  lemma {:induction false} WalkStep(s: State, t: Tid, c: Choice, u: Tid)
    requires Enabled(s, t, c) && Walking(s, u) && Walking(Next(s, t, c), u)
    ensures SameTerms(WalkOf(s.threads[u]).value, WalkOf(Next(s, t, c).threads[u]).value)
  {
    hide Next, WalkOf;
    if u != t { OthersStand(s, t, c, u); } else { OwnWalkStep(s, t, c); }
  }

  lemma {:induction false} OwnWalkStep(s: State, t: Tid, c: Choice)
    requires Enabled(s, t, c) && Walking(s, t) && Walking(Next(s, t, c), t)
    ensures SameTerms(WalkOf(s.threads[t]).value, WalkOf(Next(s, t, c).threads[t]).value)
  {
    hide Awaited, Without, Visiting;
    match s.threads[t]
    case Both(w, _, next) => VisitTerms(w, s, next);
    case Ahead(w, next) => VisitTerms(w, s, next);
    case _ => { }
  }

  lemma {:induction false} VisitTerms(w: Walk, s: State, a: Addr)
    ensures a in s.heap ==> SameTerms(w, Visiting(w, s.heap[a]))
  {
  }

  /** The element numbered `id` is in the list. */
  ghost predicate Present(s: State, id: nat) {
    exists a :: a in s.heap && s.heap[a].place == Linked(id)
  }

  lemma {:induction false} PresentBelow(s: State, id: nat)
    requires Inv(s) && Present(s, id)
    ensures id < s.nextId
  {
    InvAt(s, 0, HEAD);
    hide Inv, NodeLaw, Mid, Succ;
    var a :| a in s.heap && s.heap[a].place == Linked(id);
    var i :| 0 <= i < |s.chain| && s.chain[i] == a;
    assert Key(s, s.chain[0]) > Key(s, s.chain[i]);
  }

  /** At the end of the list everything still in it has been passed. */
  lemma {:induction false} EndOfWalk(s: State, t: Tid, w: Walk, cur: Addr, id: nat)
    requires Inv(s) && t in s.threads && s.threads[t] == Stop(w, cur) && Present(s, id) && id < w.bound
    ensures Passed(w, id)
  {
    hide Inv, NodeLaw, Succ, Mid, ChainOk, PassedDownTo;
    InvAt(s, t, cur);
    var a :| a in s.heap && s.heap[a].place == Linked(id);
    LastKey(s, t, w, cur, a);
    PassedAt(s, w, Key(s, cur), a);
  }

  lemma {:induction false} LastKey(s: State, t: Tid, w: Walk, cur: Addr, a: Addr)
    requires ChainOk(s) && t in s.threads && s.threads[t] == Stop(w, cur) && Here(s, t, cur) && s.heap[cur].next == None
    requires a in s.heap && s.heap[a].place.Linked?
    ensures s.heap[a].place.id >= Key(s, cur)
  {
    assert !Mid(s, cur);
    var i :| 0 <= i < |s.chain| && s.chain[i] == cur;
    var j :| 0 <= j < |s.chain| && s.chain[j] == a;
    assert s.heap[s.chain[i]].next == Succ(s.chain, i);
    if j < i { assert Key(s, s.chain[j]) > Key(s, s.chain[i]); }
  }

  lemma {:induction false} PassedAt(s: State, w: Walk, k: nat, a: Addr)
    requires PassedDownTo(s, w, k) && a in s.heap && s.heap[a].place.Linked? && k <= s.heap[a].place.id < w.bound
    ensures Passed(w, s.heap[a].place.id)
  {
    hide Passed;
  }

  /** Thread `t` locks the head for `op` in step `i`, and is still in that traversal at `j`. */
  ghost predicate Traversal(states: seq<State>, who: seq<Tid>, how: seq<Choice>, t: Tid, op: Op, i: nat, j: nat) {
    && Run(states, who, how) && i < j < |states|
    && who[i] == t && how[i].Continue? && t in states[i].threads && states[i].threads[t] == Start(op)
    && forall k :: i < k <= j ==> Walking(states[k], t)
  }

  lemma {:induction false} TraversalKeeps(states: seq<State>, who: seq<Tid>, how: seq<Choice>, t: Tid, op: Op, i: nat, j: nat)
    requires Traversal(states, who, how, t, op, i, j)
    ensures Walking(states[j], t)
    ensures WalkOf(states[j].threads[t]).value.op == op && WalkOf(states[j].threads[t]).value.bound == states[i].nextId
  {
    hide Next, Enabled, Init, WalkOf;
    if j == i + 1 {
      assert Enabled(states[i], who[i], how[i]) && states[i + 1] == Next(states[i], who[i], how[i]);
      RunKeeps(states, who, how, i);
      WalkBegins(states[i], t, op, how[i]);
    } else {
      TraversalKeeps(states, who, how, t, op, i, j - 1);
      assert Enabled(states[j - 1], who[j - 1], how[j - 1]) && states[j - 1 + 1] == Next(states[j - 1], who[j - 1], how[j - 1]);
      WalkStep(states[j - 1], who[j - 1], how[j - 1], t);
    }
  }

  lemma {:induction false} WalkBegins(s: State, t: Tid, op: Op, c: Choice)
    requires Inv(s) && Enabled(s, t, c) && c.Continue? && s.threads[t] == Start(op)
    ensures Next(s, t, c).threads[t] == At(Walk(op, s.nextId, []), HEAD)
    ensures WalkOf(Next(s, t, c).threads[t]) == Some(Walk(op, s.nextId, []))
  {
    hide Inv, ChainOk, NodeLaw, ThreadLaw;
    InvAt(s, t, HEAD);
  }

  /** A traversal that reaches the end of the list has looked at, and turned down, every
      element that was in the list when it began and is in the list when it ends, whatever
      the other threads have inserted and removed meanwhile.  So `for_each` skips none,
      `find_first_if` returns nothing only if none of them matched, and `remove_if` leaves
      none of them that matched. */
  lemma {:induction false} TraversalIsComplete(
      states: seq<State>, who: seq<Tid>, how: seq<Choice>, t: Tid, op: Op, i: nat, j: nat, id: nat)
    requires Traversal(states, who, how, t, op, i, j) && states[j].threads[t].Stop?
    requires Present(states[i], id) && Present(states[j], id)
    ensures Passed(states[j].threads[t].w, id) && states[j].threads[t].w.op == op
  {
    TraversalKeeps(states, who, how, t, op, i, j);
    RunKeeps(states, who, how, i);
    RunKeeps(states, who, how, j);
    hide Inv, Present, Traversal;
    PresentBelow(states[i], id);
    EndOfWalk(states[j], t, states[j].threads[t].w, states[j].threads[t].cur, id);
  }

  /** What `find_first_if` is about to return matches, and is in the list at that moment. */
  lemma {:induction false} FoundMatches(states: seq<State>, who: seq<Tid>, how: seq<Choice>, i: nat, t: Tid)
    requires Run(states, who, how) && i < |states| && t in states[i].threads && states[i].threads[t].Found?
    ensures
      var s := states[i];
      var th := s.threads[t];
      && th.w.op.FindFirstIf? && th.w.op.p(th.v)
      && th.next in s.chain && th.next in s.heap && s.heap[th.next].data == Some(th.v)
  {
    RunKeeps(states, who, how, i);
    hide Run, NodeLaw, Mid, Succ, PassedDownTo;
    assert ThreadLaw(states[i], t);
  }

  // ---------------------------------------------------------------------------------------
  // Contents
  // ---------------------------------------------------------------------------------------

  datatype Element = Element(id: nat, data: Option<Value>)

  function ElementAt(heap: map<Addr, Node>, a: Addr): Element {
    if a in heap && heap[a].place.Linked? then Element(heap[a].place.id, heap[a].data) else Element(0, None)
  }

  /** The elements of the list, first to last. */
  function Elements(s: State): (es: seq<Element>)
    ensures |s.chain| > 0 ==> |es| == |s.chain| - 1
  {
    if s.chain == [] then [] else seq(|s.chain| - 1, i requires 0 <= i < |s.chain| - 1 => ElementAt(s.heap, s.chain[i + 1]))
  }

  lemma {:induction false} ElementOf(s: State, k: nat)
    requires |s.chain| > 0 && k < |Elements(s)|
    ensures Elements(s)[k] == ElementAt(s.heap, s.chain[k + 1])
  {
  }

  predicate Inserted(es: seq<Element>, es': seq<Element>, e: Element) {
    es' == [e] + es
  }

  ghost predicate Removed(es: seq<Element>, es': seq<Element>, id: nat, p: Value -> bool) {
    exists k :: 0 <= k < |es| && es[k].id == id && es[k].data.Some? && p(es[k].data.value) && es' == DropAt(es, k)
  }

  ghost predicate Changed(es: seq<Element>, es': seq<Element>, id: nat, f: Value -> Value) {
    exists k :: 0 <= k < |es| && es[k].id == id && es[k].data.Some? && es' == es[k := Element(id, Some(f(es[k].data.value)))]
  }

  /** What a step does to the list, by where the thread stands. */
  ghost predicate Effect(s: State, t: Tid, c: Choice)
    requires Enabled(s, t, c)
  {
    var es, es' := Elements(s), Elements(Next(s, t, c));
    if !c.Continue? then es' == es
    else
      match s.threads[t]
      case PushLink(n) => n in s.heap && Inserted(es, es', Element(s.nextId, s.heap[n].data))
      case Splice(w, cur, next) => w.op.RemoveIf? && next in s.heap && s.heap[next].place.Linked? && Removed(es, es', s.heap[next].place.id, w.op.p)
      case Ahead(w, next) =>
        if w.op.ForEach? then next in s.heap && s.heap[next].place.Linked? && Changed(es, es', s.heap[next].place.id, w.op.f) else es' == es
      case _ => es' == es
  }

  /** The nodes of the list stand and hold what they did. */
  ghost predicate SameNodes(s: State, s': State) {
    && s'.chain == s.chain && s'.nextId == s.nextId
    && forall a :: a in s.heap && InList(s.heap[a].place) ==> a in s'.heap && s'.heap[a].place == s.heap[a].place && s'.heap[a].data == s.heap[a].data
  }

  lemma {:induction false} SameElements(s: State, s': State)
    requires ChainOk(s) && SameNodes(s, s')
    ensures Elements(s') == Elements(s)
  {
    hide Mid, Key, Succ;
    forall k | 0 <= k < |Elements(s)| ensures Elements(s')[k] == Elements(s)[k] {
      assert s.chain[k + 1] in s.heap && InList(s.heap[s.chain[k + 1]].place);
      ElementOf(s, k);
      ElementOf(s', k);
    }
  }

  predicate Quiet(th: Thread) {
    !th.PushLink? && !th.Splice? && !th.Ahead?
  }

  lemma {:induction false} QuietStep(s: State, t: Tid, c: Choice)
    requires Inv(s) && Enabled(s, t, c) && (c.Continue? ==> Quiet(s.threads[t]))
    ensures SameNodes(s, Next(s, t, c))
  {
    hide Inv, Awaited, Without, Visiting, ChainOk, NodeLaw, PassedDownTo, Adjacent, ThreadLaw;
    if c.Continue? {
      InvAt(s, t, HEAD);
      match s.threads[t]
      case PushMove(n) => QuietMove(s, t, n);
      case Free(w, cur, next) => QuietDelete(s, t, w, cur, next);
      case _ => { }
    }
  }

  lemma {:induction false} QuietMove(s: State, t: Tid, n: Addr)
    requires t in s.threads && s.threads[t] == PushMove(n) && ThreadLaw(s, t)
    ensures SameNodes(s, MoveNext(s, t, n))
  {
  }

  lemma {:induction false} QuietDelete(s: State, t: Tid, w: Walk, cur: Addr, next: Addr)
    requires t in s.threads && s.threads[t] == Free(w, cur, next) && ThreadLaw(s, t)
    ensures SameNodes(s, Delete(s, t, w, cur, next))
  {
    hide PassedDownTo, Awaited;
  }

  lemma {:induction false} LookStep(s: State, t: Tid, w: Walk, next: Addr)
    requires Inv(s) && t in s.threads && s.threads[t] == Ahead(w, next)
    ensures !w.op.ForEach? ==> SameNodes(s, Look(s, t, w, next))
    ensures w.op.ForEach? ==> next in s.heap && s.heap[next].place.Linked? && Changed(Elements(s), Elements(Look(s, t, w, next)), s.heap[next].place.id, w.op.f)
  {
    hide Inv, NodeLaw, PassedDownTo, Visiting, ChainOk, Elements;
    InvAt(s, t, next);
    if w.op.ForEach? {
      var k := Position(s, next);
      ChangedElements(s, Look(s, t, w, next), next, k, w.op.f);
    }
  }

  lemma {:induction false} Position(s: State, a: Addr) returns (k: nat)
    requires ChainOk(s) && a in s.heap && s.heap[a].place.Linked?
    ensures k + 1 < |s.chain| && s.chain[k + 1] == a && (forall i, j :: 0 <= i < j < |s.chain| ==> s.chain[i] != s.chain[j])
    ensures forall i :: 0 <= i < |s.chain| ==> s.chain[i] in s.heap
  {
    Distinct(s);
    hide Mid, Key, Succ;
    var i :| 0 <= i < |s.chain| && s.chain[i] == a;
    k := i - 1;
  }

  lemma {:induction false} ChangedElements(s: State, s': State, a: Addr, k: nat, f: Value -> Value)
    requires k + 1 < |s.chain| && s.chain[k + 1] == a && (forall i, j :: 0 <= i < j < |s.chain| ==> s.chain[i] != s.chain[j])
    requires forall i :: 0 <= i < |s.chain| ==> s.chain[i] in s.heap
    requires a in s.heap && s.heap[a].place.Linked? && s.heap[a].data.Some?
    requires s'.chain == s.chain && s'.heap == s.heap[a := s.heap[a].(data := Some(f(s.heap[a].data.value)))]
    ensures Changed(Elements(s), Elements(s'), s.heap[a].place.id, f)
  {
    var es, es' := Elements(s), Elements(s');
    ElementOf(s, k);
    forall j | 0 <= j < |es| ensures es'[j] == es[k := Element(es[k].id, Some(f(es[k].data.value)))][j] {
      ElementOf(s, j);
      ElementOf(s', j);
      assert s.chain[j + 1] in s.heap;
    }
    assert es' == es[k := Element(es[k].id, Some(f(es[k].data.value)))];
  }

  lemma {:induction false} LinkStep(s: State, t: Tid, n: Addr)
    requires Inv(s) && t in s.threads && s.threads[t] == PushLink(n)
    ensures n in s.heap && s.heap[n].data.Some? && Inserted(Elements(s), Elements(LinkFirst(s, t, n)), Element(s.nextId, s.heap[n].data))
  {
    hide Inv, NodeLaw, PassedDownTo, Elements, Inserted, ChainOk, Succ, AfterFirst;
    InvAt(s, t, n);
    ChainNodes(s);
    OutsideChain(s, n);
    LinkedChain(s, t, n);
    LinkedElements(s, LinkFirst(s, t, n), n);
  }

  lemma {:induction false} OutsideChain(s: State, n: Addr)
    requires ChainOk(s) && n in s.heap && !InList(s.heap[n].place)
    ensures n !in s.chain && n != HEAD
  {
    hide Mid, Key, Succ;
  }

  lemma {:induction false} LinkedElements(s: State, s': State, n: Addr)
    requires |s.chain| > 0 && s'.chain == AfterFirst(s.chain, n) && n !in s.chain && n in s.heap && n in s'.heap
    requires forall i :: 0 <= i < |s.chain| ==> s.chain[i] in s.heap
    requires s'.heap[n].place == Linked(s.nextId) && s'.heap[n].data == s.heap[n].data
    requires forall a :: a in s.heap && a != n ==> a in s'.heap && s'.heap[a].place == s.heap[a].place && s'.heap[a].data == s.heap[a].data
    ensures Inserted(Elements(s), Elements(s'), Element(s.nextId, s.heap[n].data))
  {
    var es := [Element(s.nextId, s.heap[n].data)] + Elements(s);
    forall k | 0 <= k < |es| ensures Elements(s')[k] == es[k] {
      AfterFirstAt(s.chain, n, k + 1);
      ElementOf(s', k);
      if k > 0 {
        assert s.chain[k] in s.heap;
        ElementOf(s, k - 1);
      }
    }
  }

  lemma {:induction false} SpliceStep(s: State, t: Tid, w: Walk, cur: Addr, next: Addr)
    requires Inv(s) && t in s.threads && s.threads[t] == Splice(w, cur, next)
    ensures w.op.RemoveIf? && next in s.heap && s.heap[next].place.Linked?
    ensures Removed(Elements(s), Elements(SpliceOut(s, t, w, cur, next)), s.heap[next].place.id, w.op.p)
  {
    var s' := SpliceOut(s, t, w, cur, next);
    hide Inv, NodeLaw, PassedDownTo, Mid, Succ, SpliceOut, ChainOk, Splicing, Adjacent, Elements, DropAt;
    InvAt(s, t, next);
    Distinct(s);
    var k := SpliceAt(s, t, w, cur, next);
    SplicedData(s, s', t, w, cur, next, k);
    ChainNodes(s);
    SplicedElements(s, s', next, k);
    ElementOf(s, k - 1);
  }

  lemma {:induction false} ChainNodes(s: State)
    requires ChainOk(s)
    ensures |s.chain| > 0 && forall i :: 0 <= i < |s.chain| ==> s.chain[i] in s.heap
  {
  }

  lemma {:induction false} SplicedElements(s: State, s': State, next: Addr, k: nat)
    requires 0 < k && Dropped(s.chain, s'.chain, k) && s.chain[k] == next
    requires forall i :: 0 <= i < |s.chain| ==> s.chain[i] in s.heap
    requires forall i, j :: 0 <= i < j < |s.chain| ==> s.chain[i] != s.chain[j]
    requires forall a :: a in s.heap && a != next ==> a in s'.heap && s'.heap[a].place == s.heap[a].place && s'.heap[a].data == s.heap[a].data
    ensures |Elements(s)| == |s.chain| - 1 && Elements(s') == DropAt(Elements(s), k - 1)
  {
    var es, es' := Elements(s), Elements(s');
    forall i | 0 <= i < |es'| ensures es'[i] == DropAt(es, k - 1)[i] {
      var j := if i + 1 < k then i + 1 else i + 2;
      assert s.chain[j] in s.heap;
      ElementOf(s, j - 1);
      ElementOf(s', i);
    }
  }

  lemma {:induction false} SplicedData(s: State, s': State, t: Tid, w: Walk, cur: Addr, next: Addr, k: nat)
    requires Splicing(s, s', t, w, cur, next, k)
    ensures 0 < k && Dropped(s.chain, s'.chain, k) && s.chain[k] == next
    ensures forall a :: a in s.heap && a != next ==> a in s'.heap && s'.heap[a].place == s.heap[a].place && s'.heap[a].data == s.heap[a].data
  {
    hide Dropped;
  }

  /** The list changes only in these ways, each by one thread in one step: an element enters
      at the front; a matching element leaves, wherever it stands; the caller's function
      changes one element.  The rest stays as it is, in its order. */
  lemma {:induction false} StepEffect(s: State, t: Tid, c: Choice)
    requires Inv(s) && Enabled(s, t, c)
    ensures Effect(s, t, c)
  {
    hide Inv, Elements, Inserted, Removed, Changed, Look, LinkFirst, SpliceOut, ChainOk, ThreadLaw, NodeLaw;
    InvAt(s, t, HEAD);
    if !c.Continue? || Quiet(s.threads[t]) {
      hide Next;
      QuietStep(s, t, c);
      SameElements(s, Next(s, t, c));
    } else {
      match s.threads[t]
      case PushLink(n) => LinkStep(s, t, n);
      case Splice(w, cur, next) => SpliceStep(s, t, w, cur, next);
      case Ahead(w, next) =>
        LookStep(s, t, w, next);
        if !w.op.ForEach? { SameElements(s, Look(s, t, w, next)); }
    }
  }

  /** The removals among the first `i` steps. */
  function Removals(states: seq<State>, who: seq<Tid>, how: seq<Choice>, i: nat): nat
    requires i <= |who| <= |how| && |who| <= |states|
  {
    if i == 0 then 0
    else
      var s, t := states[i - 1], who[i - 1];
      Removals(states, who, how, i - 1) + (if how[i - 1].Continue? && t in s.threads && s.threads[t].Splice? then 1 else 0)
  }

  lemma {:induction false} CountStep(s: State, t: Tid, c: Choice)
    requires Inv(s) && Enabled(s, t, c)
    ensures
      var removal := c.Continue? && s.threads[t].Splice?;
      |Elements(Next(s, t, c))| - Next(s, t, c).nextId == |Elements(s)| - s.nextId - (if removal then 1 else 0)
  {
    hide Inv, Elements, Look, LinkFirst, SpliceOut, ChainOk, ThreadLaw, NodeLaw, Next, Enabled;
    StepEffect(s, t, c);
    IdStep(s, t, c);
  }

  /** Only the entry of an element uses up an id. */
  lemma {:induction false} IdStep(s: State, t: Tid, c: Choice)
    requires Inv(s) && Enabled(s, t, c)
    ensures Next(s, t, c).nextId == s.nextId + if c.Continue? && s.threads[t].PushLink? then 1 else 0
  {
    hide Inv, ChainOk, NodeLaw, Awaited, Without, Visiting, PassedDownTo, Adjacent;
    if !c.Continue? || Quiet(s.threads[t]) {
      hide Next;
      QuietStep(s, t, c);
    } else {
      InvAt(s, t, HEAD);
    }
  }

  /** In every run the elements that have entered the list are as many as those in it and the
      removals together. */
  lemma {:induction false} ElementsCounted(states: seq<State>, who: seq<Tid>, how: seq<Choice>, i: nat)
    requires Run(states, who, how) && i <= |who|
    ensures states[i].nextId == |Elements(states[i])| + Removals(states, who, how, i)
  {
    hide Inv, Next, Enabled, Elements;
    if i == 0 {
      NoElements(states[0]);
    } else {
      ElementsCounted(states, who, how, i - 1);
      RunKeeps(states, who, how, i - 1);
      assert Enabled(states[i - 1], who[i - 1], how[i - 1]) && states[i - 1 + 1] == Next(states[i - 1], who[i - 1], how[i - 1]);
      CountStep(states[i - 1], who[i - 1], how[i - 1]);
      Enabling(states[i - 1], who[i - 1], how[i - 1]);
    }
  }

  lemma {:induction false} NoElements(s: State)
    requires Init(s)
    ensures Elements(s) == [] && s.nextId == 0
  {
  }

  lemma {:induction false} Enabling(s: State, t: Tid, c: Choice)
    requires Enabled(s, t, c)
    ensures c.Continue? ==> t in s.threads
  {
  }

  predicate HasId(es: seq<Element>, id: nat) {
    exists k :: 0 <= k < |es| && es[k].id == id
  }

  predicate IdsDistinct(es: seq<Element>) {
    forall i, j :: 0 <= i < j < |es| ==> es[i].id != es[j].id
  }

  /** The step takes the element with this id out of the list. */
  ghost predicate TakesOut(s: State, t: Tid, c: Choice, id: nat) {
    c.Continue? && t in s.threads && s.threads[t].Splice? && s.threads[t].next in s.heap && s.heap[s.threads[t].next].place == Linked(id)
  }

  ghost predicate Enters(s: State, t: Tid, c: Choice, id: nat) {
    c.Continue? && t in s.threads && s.threads[t].PushLink? && id == s.nextId
  }

  lemma {:induction false} IdsApart(s: State)
    requires Inv(s)
    ensures IdsDistinct(Elements(s))
  {
    InvAt(s, 0, HEAD);
    hide Inv, Mid, Succ, NodeLaw;
    var es := Elements(s);
    forall i, j | 0 <= i < j < |es| ensures es[i].id != es[j].id {
      ElementOf(s, i);
      ElementOf(s, j);
      assert Key(s, s.chain[i + 1]) > Key(s, s.chain[j + 1]);
      assert Key(s, s.chain[0]) > Key(s, s.chain[i + 1]);
      assert s.chain[i + 1] != HEAD && s.chain[j + 1] != HEAD;
    }
  }

  lemma IdInserted(es: seq<Element>, es': seq<Element>, e: Element, id: nat)
    requires Inserted(es, es', e)
    ensures HasId(es', id) <==> HasId(es, id) || id == e.id
  {
    if HasId(es, id) { var k :| 0 <= k < |es| && es[k].id == id; assert es'[k + 1].id == id; }
    if HasId(es', id) { var k :| 0 <= k < |es'| && es'[k].id == id; if k > 0 { assert es[k - 1].id == id; } }
    assert es'[0] == e;
  }

  lemma IdRemoved(es: seq<Element>, es': seq<Element>, out: nat, p: Value -> bool, id: nat)
    requires IdsDistinct(es) && Removed(es, es', out, p)
    ensures HasId(es, out) && (HasId(es', id) <==> HasId(es, id) && id != out)
  {
    var k :| 0 <= k < |es| && es[k].id == out && es' == DropAt(es, k);
    if HasId(es, id) && id != out {
      var j :| 0 <= j < |es| && es[j].id == id;
      assert es'[if j < k then j else j - 1].id == id;
    }
    if HasId(es', id) {
      var j :| 0 <= j < |es'| && es'[j].id == id;
      assert es[if j < k then j else j + 1].id == id;
    }
  }

  lemma IdChanged(es: seq<Element>, es': seq<Element>, at: nat, f: Value -> Value, id: nat)
    requires Changed(es, es', at, f)
    ensures HasId(es', id) <==> HasId(es, id)
  {
    assert |es'| == |es| && forall k :: 0 <= k < |es| ==> es'[k].id == es[k].id;
    if HasId(es, id) { var k :| 0 <= k < |es| && es[k].id == id; assert es'[k].id == id; }
    if HasId(es', id) { var k :| 0 <= k < |es'| && es'[k].id == id; assert es[k].id == id; }
  }

  /** An element comes in only by its entry, and goes only by its removal. */
  lemma {:induction false} IdEffect(s: State, t: Tid, c: Choice, id: nat)
    requires Inv(s) && Enabled(s, t, c)
    ensures TakesOut(s, t, c, id) ==> HasId(Elements(s), id)
    ensures HasId(Elements(Next(s, t, c)), id) <==> (HasId(Elements(s), id) && !TakesOut(s, t, c, id)) || Enters(s, t, c, id)
  {
    hide Inv, Elements, Inserted, Removed, Changed, HasId, IdsDistinct, Next;
    StepEffect(s, t, c);
    IdsApart(s);
    var es, es' := Elements(s), Elements(Next(s, t, c));
    if c.Continue? {
      match s.threads[t]
      case PushLink(n) => IdInserted(es, es', Element(s.nextId, s.heap[n].data), id);
      case Splice(w, cur, next) => IdRemoved(es, es', s.heap[next].place.id, w.op.p, id);
      case Ahead(w, next) => if w.op.ForEach? { IdChanged(es, es', s.heap[next].place.id, w.op.f, id); }
      case _ =>
    }
  }

  /** In every run each element that has entered the list is in it still, or was removed by
      exactly one step so far, and never both. */
  lemma {:induction false} ElementsAccounted(states: seq<State>, who: seq<Tid>, how: seq<Choice>, i: nat, id: nat)
    requires Run(states, who, how) && i <= |who|
    ensures HasId(Elements(states[i]), id) <==>
      id < states[i].nextId && forall j :: 0 <= j < i ==> !TakesOut(states[j], who[j], how[j], id)
    ensures forall j :: 0 <= j < i && TakesOut(states[j], who[j], how[j], id) ==> id < states[i].nextId
    ensures forall j, k :: 0 <= j < i && 0 <= k < i && TakesOut(states[j], who[j], how[j], id) && TakesOut(states[k], who[k], how[k], id) ==> j == k
  {
    hide Inv, Next, Enabled, Elements, HasId, TakesOut;
    if i == 0 {
      NoElements(states[0]);
      NoIds(id);
    } else {
      var s, t, c := states[i - 1], who[i - 1], how[i - 1];
      ElementsAccounted(states, who, how, i - 1, id);
      RunKeeps(states, who, how, i - 1);
      assert Enabled(s, t, c) && states[i - 1 + 1] == Next(s, t, c);
      IdEffect(s, t, c, id);
      IdStep(s, t, c);
      Enabling(s, t, c);
      NotBothWays(s, t, c, id);
    }
  }

  lemma NoIds(id: nat)
    ensures !HasId([], id)
  {
  }

  lemma NotBothWays(s: State, t: Tid, c: Choice, id: nat)
    ensures TakesOut(s, t, c, id) ==> !(c.Continue? && t in s.threads && s.threads[t].PushLink?)
  {
  }

  /** Between operations nothing is allocated but the nodes of the list. */
  lemma {:induction false} NothingLeaks(s: State, a: Addr)
    requires Inv(s) && s.threads == map[] && a in s.heap
    ensures a in s.chain && s.heap[a].lock == None
  {
    assert NodeLaw(s, a);
  }
}
