/** Every traversal of the list meets each element at most once: the elements it has looked at
    were looked at in the order of the list, whatever the other threads did meanwhile. */
module LockedListVisits {
  import opened Options
  import opened AtomicStack
  import opened Seqs
  import opened LockedList
  import opened LockedListRuns

  /** The ids of what has been looked at fall strictly. */
  predicate Falling(visited: seq<Visit>) {
    forall i, j :: 0 <= i < j < |visited| ==> visited[i].id > visited[j].id
  }

  /** Where the rest of a traversal begins: it will only look at elements with smaller ids. */
  function Frontier(s: State, th: Thread): nat {
    match th
    case At(_, cur) => KeyAt(s, cur)
    case Want(_, cur, _) => KeyAt(s, cur)
    case Both(_, cur, _) => KeyAt(s, cur)
    case Ahead(_, next) => KeyAt(s, next) + 1
    case Pass(_, _, next) => KeyAt(s, next)
    case Take(_, _, next) => KeyAt(s, next)
    case Splice(_, _, next) => KeyAt(s, next)
    case Drop(_, cur, _) => KeyAt(s, cur)
    case Free(_, cur, _) => KeyAt(s, cur)
    case Stop(_, cur) => KeyAt(s, cur)
    case _ => 0
  }

  function KeyAt(s: State, a: Addr): nat {
    if a in s.heap then Key(s, a) else 0
  }

  /** Every element of the list with an id below `f` comes after all that has been visited. */
  ghost predicate Unvisited(s: State, visited: seq<Visit>, f: nat) {
    forall id: nat, k :: HasId(Elements(s), id) && id < f && 0 <= k < |visited| ==> visited[k].id > id
  }

  ghost predicate Ordered(s: State, t: Tid) {
    Walking(s, t) ==>
      var w := WalkOf(s.threads[t]).value;
      Falling(w.visited) && Unvisited(s, w.visited, Frontier(s, s.threads[t]))
  }

  // ---------------------------------------------------------------------------------------
  // What one thread's step leaves to the others
  // ---------------------------------------------------------------------------------------

  /** A node whose mutex another thread holds keeps its place. */
  lemma {:induction false} LockedStands(s: State, t: Tid, c: Choice, a: Addr, u: Tid)
    requires Enabled(s, t, c) && Locked(s, u, a) && u != t && !(c.Continue? && s.threads[t].PushLink? && s.threads[t].n == a)
    ensures a in Next(s, t, c).heap && Next(s, t, c).heap[a].place == s.heap[a].place
  {
    hide Awaited, Without, Visiting;
    if c.Continue? {
      match s.threads[t]
      case PushStart(_) => { }
      case Returning(_) => { }
      case _ => { }
    }
  }

  /** The node a thread's frontier is at. */
  function Post(th: Thread): Option<Addr> {
    match th
    case At(_, cur) => Some(cur)
    case Want(_, cur, _) => Some(cur)
    case Both(_, cur, _) => Some(cur)
    case Ahead(_, next) => Some(next)
    case Pass(_, _, next) => Some(next)
    case Take(_, _, next) => Some(next)
    case Splice(_, _, next) => Some(next)
    case Drop(_, cur, _) => Some(cur)
    case Free(_, cur, _) => Some(cur)
    case Stop(_, cur) => Some(cur)
    case _ => None
  }

  lemma {:induction false} AtPost(s: State, u: Tid)
    requires Inv(s) && u in s.threads && Post(s.threads[u]).Some?
    ensures var a := Post(s.threads[u]).value;
      Locked(s, u, a) && InList(s.heap[a].place) && Key(s, a) <= s.nextId && (s.threads[u].Ahead? ==> Key(s, a) < s.nextId)
  {
    hide PassedDownTo, Adjacent, Succ, Mid, NodeLaw, ChainOk;
    assert ThreadLaw(s, u);
    var a := Post(s.threads[u]).value;
    if s.heap[a].place.Linked? { PresentBelow(s, s.heap[a].place.id); }
  }

  lemma {:induction false} PostFrontier(s: State, th: Thread)
    requires Post(th).Some?
    ensures Frontier(s, th) == KeyAt(s, Post(th).value) + if th.Ahead? then 1 else 0
  {
  }

  lemma {:induction false} OthersOrdered(s: State, t: Tid, c: Choice, u: Tid)
    requires Inv(s) && Enabled(s, t, c) && u != t && Ordered(s, u)
    ensures Ordered(Next(s, t, c), u)
  {
    hide Inv, Next, Elements, HasId, Frontier, Post, TakesOut;
    var s' := Next(s, t, c);
    OthersStand(s, t, c, u);
    if Walking(s, u) && Post(s.threads[u]).Some? {
      FrontierStands(s, t, c, u);
      var w, f := WalkOf(s.threads[u]).value, Frontier(s, s.threads[u]);
      forall id: nat, k | HasId(Elements(s'), id) && id < f && 0 <= k < |w.visited| ensures w.visited[k].id > id {
        IdEffect(s, t, c, id);
      }
    } else if Walking(s, u) {
      NoFrontier(s, s', s.threads[u]);
    }
  }

  lemma {:induction false} NoFrontier(s: State, s': State, th: Thread)
    requires Post(th) == None
    ensures Frontier(s, th) == 0 == Frontier(s', th)
  {
  }

  lemma {:induction false} FrontierStands(s: State, t: Tid, c: Choice, u: Tid)
    requires Inv(s) && Enabled(s, t, c) && u != t && u in s.threads && Post(s.threads[u]).Some?
    ensures Frontier(Next(s, t, c), s.threads[u]) == Frontier(s, s.threads[u]) <= s.nextId
  {
    hide Inv, Next, Elements, HasId, Enabled, Frontier, Post;
    AtPost(s, u);
    PostFrontier(s, s.threads[u]);
    PostFrontier(Next(s, t, c), s.threads[u]);
    InvAt(s, t, HEAD);
    InvAt(s, t, Post(s.threads[u]).value);
    IdStep(s, t, c);
    Enabling(s, t, c);
    var a := Post(s.threads[u]).value;
    if c.Continue? && s.threads[t].PushLink? { PusherAlone(s, t, u, a); }
    LockedStands(s, t, c, a, u);
  }

  /** While a thread is linking a node in, no other holds the head, or that node. */
  lemma {:induction false} PusherAlone(s: State, t: Tid, u: Tid, a: Addr)
    requires Inv(s) && t in s.threads && s.threads[t].PushLink? && u != t && Locked(s, u, a)
    ensures a != HEAD && a != s.threads[t].n
  {
    hide PassedDownTo, Adjacent, Succ, Mid, NodeLaw, ChainOk;
    assert ThreadLaw(s, t);
  }

  // ---------------------------------------------------------------------------------------
  // What a thread's own step does to its traversal
  // ---------------------------------------------------------------------------------------

  lemma {:induction false} HasLinked(s: State, a: Addr)
    requires ChainOk(s) && a in s.heap && s.heap[a].place.Linked?
    ensures HasId(Elements(s), s.heap[a].place.id)
  {
    var k := Position(s, a);
    hide ChainOk;
    ElementOf(s, k);
    assert Elements(s)[k].id == s.heap[a].place.id;
  }

  lemma {:induction false} LinkedOf(s: State, id: nat) returns (a: Addr)
    requires ChainOk(s) && HasId(Elements(s), id)
    ensures a in s.chain && a in s.heap && s.heap[a].place == Linked(id)
  {
    hide Mid, Succ, Key;
    var k :| 0 <= k < |Elements(s)| && Elements(s)[k].id == id;
    ElementOf(s, k);
    a := s.chain[k + 1];
    Distinct(s);
    assert a != HEAD;
  }

  lemma UnvisitedBelow(s: State, visited: seq<Visit>, f: nat, f': nat)
    requires Unvisited(s, visited, f) && f' <= f
    ensures Unvisited(s, visited, f')
  {
    hide HasId, Elements;
  }

  /** The list has lost elements, if anything. */
  lemma UnvisitedKept(s: State, s': State, visited: seq<Visit>, f: nat)
    requires Unvisited(s, visited, f) && forall id: nat :: HasId(Elements(s'), id) ==> HasId(Elements(s), id)
    ensures Unvisited(s', visited, f)
  {
    hide HasId, Elements;
  }

  /** Looking at an element that is still to come, and going on behind it. */
  lemma OneMoreVisit(s: State, visited: seq<Visit>, f: nat, v: Visit)
    requires Falling(visited) && Unvisited(s, visited, f) && HasId(Elements(s), v.id) && v.id < f
    ensures Falling(visited + [v]) && Unvisited(s, visited + [v], v.id)
  {
    hide HasId, Elements;
    forall id: nat, k | HasId(Elements(s), id) && id < v.id && 0 <= k < |visited + [v]| ensures (visited + [v])[k].id > id {
      if k < |visited| { assert (visited + [v])[k] == visited[k]; }
    }
  }

  /** The elements of the list stay, unless this step removes one. */
  lemma {:induction false} OwnIds(s: State, t: Tid, c: Choice)
    requires Inv(s) && Enabled(s, t, c) && c.Continue? && !s.threads[t].PushLink?
    ensures forall id: nat :: HasId(Elements(Next(s, t, c)), id) ==> HasId(Elements(s), id)
    ensures s.threads[t].Splice? ==>
      forall id: nat :: HasId(Elements(Next(s, t, c)), id) ==> !TakesOut(s, t, c, id)
  {
    hide Inv, Next, Elements, HasId, TakesOut;
    forall id: nat | HasId(Elements(Next(s, t, c)), id)
      ensures HasId(Elements(s), id) && (s.threads[t].Splice? ==> !TakesOut(s, t, c, id))
    {
      IdEffect(s, t, c, id);
      NotLinking(s, t, c, id);
    }
  }

  lemma NotLinking(s: State, t: Tid, c: Choice, id: nat)
    requires c.Continue? && t in s.threads && !s.threads[t].PushLink?
    ensures !Enters(s, t, c, id)
  {
  }

  /** Steps that look at nothing: what has been visited stays, and the frontier does not rise. */
  predicate Coasting(th: Thread) {
    th.At? || th.Want? || (th.Both? && !th.w.op.RemoveIf?) || th.Pass? || th.Take? || th.Drop? || th.Free?
  }

  lemma {:induction false} CoastKeys(s: State, t: Tid, c: Choice)
    requires Inv(s) && Enabled(s, t, c) && c.Continue? && t in s.threads && Coasting(s.threads[t]) && Walking(Next(s, t, c), t)
    ensures WalkOf(Next(s, t, c).threads[t]) == WalkOf(s.threads[t])
    ensures Frontier(Next(s, t, c), Next(s, t, c).threads[t]) <= Frontier(s, s.threads[t])
  {
    hide Inv, ChainOk, NodeLaw, ThreadLaw, Next, Frontier, WalkOf;
    var th := s.threads[t];
    if th.At? || th.Want? || th.Both? { CoastAhead(s, t, c); } else { CoastBehind(s, t, c); }
  }

  lemma {:induction false} CoastAhead(s: State, t: Tid, c: Choice)
    requires Inv(s) && Enabled(s, t, c) && c.Continue? && t in s.threads && Walking(Next(s, t, c), t)
    requires var th := s.threads[t]; th.At? || th.Want? || (th.Both? && !th.w.op.RemoveIf?)
    ensures WalkOf(Next(s, t, c).threads[t]) == WalkOf(s.threads[t])
    ensures Frontier(Next(s, t, c), Next(s, t, c).threads[t]) <= Frontier(s, s.threads[t])
  {
    hide Inv, ChainOk, NodeLaw, PassedDownTo, Awaited, Adjacent;
    InvAt(s, t, HEAD);
    if s.threads[t].Both? { NextInList(s, t, s.threads[t].cur, s.threads[t].next); }
  }

  lemma {:induction false} CoastBehind(s: State, t: Tid, c: Choice)
    requires Inv(s) && Enabled(s, t, c) && c.Continue? && t in s.threads && Walking(Next(s, t, c), t)
    requires var th := s.threads[t]; th.Pass? || th.Take? || th.Drop? || th.Free?
    ensures WalkOf(Next(s, t, c).threads[t]) == WalkOf(s.threads[t])
    ensures Frontier(Next(s, t, c), Next(s, t, c).threads[t]) <= Frontier(s, s.threads[t])
  {
    hide Inv, ChainOk, NodeLaw, PassedDownTo, Awaited, Adjacent;
    InvAt(s, t, HEAD);
    if s.threads[t].Free? { NotAwaited(s, t, s.threads[t].next); }
  }

  lemma {:induction false} NotAwaited(s: State, t: Tid, next: Addr)
    requires Inv(s) && next in s.heap && s.heap[next].place == Unlinked(t)
    ensures !Awaited(s, next)
  {
    RemovedAlone(s, t, next);
  }

  lemma {:induction false} Coast(s: State, t: Tid, c: Choice)
    requires Inv(s) && Enabled(s, t, c) && c.Continue? && t in s.threads && Coasting(s.threads[t]) && Ordered(s, t)
    ensures Ordered(Next(s, t, c), t)
  {
    hide Inv, Next, Frontier, Elements, HasId, Enabled;
    var s' := Next(s, t, c);
    if Walking(s', t) {
      CoastKeys(s, t, c);
      CoastWalks(s, t);
      OwnIds(s, t, c);
      var w := WalkOf(s.threads[t]).value;
      UnvisitedBelow(s, w.visited, Frontier(s, s.threads[t]), Frontier(s', s'.threads[t]));
      UnvisitedKept(s, s', w.visited, Frontier(s', s'.threads[t]));
    }
  }

  lemma CoastWalks(s: State, t: Tid)
    requires t in s.threads && Coasting(s.threads[t])
    ensures Walking(s, t) && !s.threads[t].PushLink? && !s.threads[t].Splice?
  {
  }

  /** Looking at the node after the last one. */
  lemma {:induction false} LookKeys(s: State, t: Tid, c: Choice)
    requires Inv(s) && Enabled(s, t, c) && c.Continue?
    requires s.threads[t].Ahead? || (s.threads[t].Both? && s.threads[t].w.op.RemoveIf?)
    ensures
      var th, th' := s.threads[t], Next(s, t, c).threads[t];
      && th.next in s.heap && s.heap[th.next].place.Linked? && Key(s, th.next) < Frontier(s, th) && ChainOk(s)
      && t in Next(s, t, c).threads && WalkOf(th').Some? && s.heap[th.next].data.Some?
      && WalkOf(th').value.visited == th.w.visited + [Visit(s.heap[th.next].place.id, s.heap[th.next].data.value)]
      && Frontier(Next(s, t, c), th') <= s.heap[th.next].place.id
  {
    hide Inv, NodeLaw, PassedDownTo, Awaited, Adjacent, ChainOk;
    InvAt(s, t, HEAD);
    InvAt(s, t, s.threads[t].next);
    if s.threads[t].Both? { NextInList(s, t, s.threads[t].cur, s.threads[t].next); }
  }

  lemma {:induction false} LookOrdered(s: State, t: Tid, c: Choice)
    requires Inv(s) && Enabled(s, t, c) && c.Continue? && t in s.threads && Ordered(s, t)
    requires s.threads[t].Ahead? || (s.threads[t].Both? && s.threads[t].w.op.RemoveIf?)
    ensures Ordered(Next(s, t, c), t)
  {
    hide Inv, ChainOk, Next, Frontier, Elements, HasId, Enabled, Falling, Unvisited;
    var s', th := Next(s, t, c), s.threads[t];
    LookKeys(s, t, c);
    HasLinked(s, th.next);
    var v := Visit(s.heap[th.next].place.id, s.heap[th.next].data.value);
    OneMoreVisit(s, th.w.visited, Frontier(s, th), v);
    OwnIds(s, t, c);
    UnvisitedBelow(s, th.w.visited + [v], v.id, Frontier(s', s'.threads[t]));
    UnvisitedKept(s, s', th.w.visited + [v], Frontier(s', s'.threads[t]));
  }

  /** Nothing stands between two neighbours. */
  lemma {:induction false} NothingBetween(s: State, cur: Addr, next: Addr, b: Addr)
    requires ChainOk(s) && Adjacent(s.chain, cur, next) && b in s.chain
    requires cur in s.heap && next in s.heap && b in s.heap && Key(s, b) < Key(s, cur)
    ensures Key(s, b) <= Key(s, next)
  {
    hide ChainOk, Key;
    var i :| 0 <= i < |s.chain| - 1 && s.chain[i] == cur && s.chain[i + 1] == next;
    var j :| 0 <= j < |s.chain| && s.chain[j] == b;
    if j <= i { KeysFall(s, j, i); } else { KeysFall(s, i + 1, j); }
  }

  lemma {:induction false} KeysFall(s: State, i: nat, j: nat)
    requires ChainOk(s) && i <= j < |s.chain|
    ensures s.chain[i] in s.heap && s.chain[j] in s.heap && Key(s, s.chain[i]) >= Key(s, s.chain[j])
  {
    hide Mid, Succ;
    if i < j { assert Key(s, s.chain[i]) > Key(s, s.chain[j]); }
  }

  lemma {:induction false} SpliceKeysAt(s: State, t: Tid, c: Choice)
    requires Inv(s) && Enabled(s, t, c) && c.Continue? && s.threads[t].Splice?
    ensures
      var th, s' := s.threads[t], Next(s, t, c);
      && ChainOk(s) && Adjacent(s.chain, th.cur, th.next) && th.cur in s.heap && th.next in s.heap && s.heap[th.next].place.Linked?
      && t in s'.threads && s'.threads[t] == Drop(th.w, th.cur, th.next)
      && Frontier(s, th) == s.heap[th.next].place.id && Frontier(s', s'.threads[t]) == Key(s, th.cur)
  {
    hide Inv, ChainOk, NodeLaw, PassedDownTo, Awaited, Adjacent, Without;
    InvAt(s, t, HEAD);
    InvAt(s, t, s.threads[t].cur);
    assert s.threads[t].cur != s.threads[t].next by { SpliceApart(s, s.threads[t].cur, s.threads[t].next); }
  }

  lemma {:induction false} SpliceApart(s: State, cur: Addr, next: Addr)
    requires ChainOk(s) && Adjacent(s.chain, cur, next)
    ensures cur != next
  {
    Distinct(s);
    hide Mid, Succ, Key;
  }

  lemma {:induction false} SpliceOrdered(s: State, t: Tid, c: Choice)
    requires Inv(s) && Enabled(s, t, c) && c.Continue? && t in s.threads && Ordered(s, t) && s.threads[t].Splice?
    ensures Ordered(Next(s, t, c), t)
  {
    hide Inv, ChainOk, Next, Frontier, Elements, HasId, Enabled, Falling, Adjacent, TakesOut;
    var s', th := Next(s, t, c), s.threads[t];
    SpliceKeysAt(s, t, c);
    OwnIds(s, t, c);
    forall id: nat, k | HasId(Elements(s'), id) && id < Frontier(s', s'.threads[t]) && 0 <= k < |th.w.visited| ensures th.w.visited[k].id > id {
      var b := LinkedOf(s, id);
      NothingBetween(s, th.cur, th.next, b);
      if s.heap[th.next].place.id == id { OutAt(s, t, c, id); }
    }
  }

  lemma OutAt(s: State, t: Tid, c: Choice, id: nat)
    requires c.Continue? && t in s.threads && s.threads[t].Splice? && s.threads[t].next in s.heap && s.heap[s.threads[t].next].place == Linked(id)
    ensures TakesOut(s, t, c, id)
  {
  }

  // ---------------------------------------------------------------------------------------
  // Runs
  // ---------------------------------------------------------------------------------------

  /** The steps that begin a traversal or end one. */
  lemma {:induction false} EdgeOrdered(s: State, t: Tid, c: Choice)
    requires Inv(s) && Enabled(s, t, c) && Ordered(s, t)
    requires c.Continue? ==>
      var th := s.threads[t];
      !Coasting(th) && !th.Ahead? && !th.Both? && !th.Splice?
    ensures Ordered(Next(s, t, c), t)
  {
    hide Inv, ChainOk, NodeLaw, PassedDownTo, Awaited, Elements, HasId, Visiting;
    InvAt(s, t, HEAD);
    if c.Continue? && s.threads[t].Start? { WalkBegins(s, t, s.threads[t].op, c); }
  }

  lemma {:induction false} OwnOrdered(s: State, t: Tid, c: Choice)
    requires Inv(s) && Enabled(s, t, c) && Ordered(s, t)
    ensures Ordered(Next(s, t, c), t)
  {
    hide Inv, Next, Ordered;
    Enabling(s, t, c);
    if c.Continue? && Coasting(s.threads[t]) {
      Coast(s, t, c);
    } else if c.Continue? && (s.threads[t].Ahead? || s.threads[t].Both?) {
      LookOrdered(s, t, c);
    } else if c.Continue? && s.threads[t].Splice? {
      SpliceOrdered(s, t, c);
    } else {
      EdgeOrdered(s, t, c);
    }
  }

  lemma {:induction false} StartOrdered(s: State, t: Tid)
    requires Init(s)
    ensures Ordered(s, t)
  {
  }

  lemma {:induction false} RunOrdered(states: seq<State>, who: seq<Tid>, how: seq<Choice>, i: nat, t: Tid)
    requires Run(states, who, how) && i < |states|
    ensures Ordered(states[i], t)
  {
    hide Inv, Next, Enabled, Init, Ordered;
    if i == 0 {
      StartOrdered(states[0], t);
    } else {
      RunOrdered(states, who, how, i - 1, t);
      RunKeeps(states, who, how, i - 1);
      assert Enabled(states[i - 1], who[i - 1], how[i - 1]) && states[i - 1 + 1] == Next(states[i - 1], who[i - 1], how[i - 1]);
      if who[i - 1] == t { OwnOrdered(states[i - 1], t, how[i - 1]); } else { OthersOrdered(states[i - 1], who[i - 1], how[i - 1], t); }
    }
  }

  /** In every run a traversal looks at no element twice, and at each before those behind it. */
  lemma {:induction false} VisitsInOrder(states: seq<State>, who: seq<Tid>, how: seq<Choice>, i: nat, t: Tid)
    requires Run(states, who, how) && i < |states| && Walking(states[i], t)
    ensures Falling(WalkOf(states[i].threads[t]).value.visited)
  {
    hide Run, Elements, Unvisited, Frontier, WalkOf;
    RunOrdered(states, who, how, i, t);
  }

  lemma FallingOnce(visited: seq<Visit>, k: nat, l: nat)
    requires Falling(visited) && k < |visited| && l < |visited| && visited[k].id == visited[l].id
    ensures l == k
  {
  }

  /** A traversal that reaches the end of the list has looked exactly once at every element that
      was in the list when it began and is in it when it ends; so `for_each` has applied its
      function to each of those once. */
  lemma {:induction false} VisitedExactlyOnce(
      states: seq<State>, who: seq<Tid>, how: seq<Choice>, t: Tid, op: Op, i: nat, j: nat, id: nat) returns (k: nat)
    requires Traversal(states, who, how, t, op, i, j) && states[j].threads[t].Stop?
    requires Present(states[i], id) && Present(states[j], id)
    ensures
      var visited := states[j].threads[t].w.visited;
      && k < |visited| && visited[k].id == id && TurnedDown(op, visited[k].seen)
      && forall l :: 0 <= l < |visited| && visited[l].id == id ==> l == k
  {
    TraversalIsComplete(states, who, how, t, op, i, j, id);
    VisitsInOrder(states, who, how, j, t);
    hide Run, Present, TurnedDown;
    var visited := states[j].threads[t].w.visited;
    k :| 0 <= k < |visited| && visited[k].id == id && TurnedDown(op, visited[k].seen);
    hide Falling;
    forall l | 0 <= l < |visited| && visited[l].id == id ensures l == k { FallingOnce(visited, k, l); }
  }
}
