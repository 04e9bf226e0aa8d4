/** What the operations of the hand-over-hand list return, and what they have done by then, in
    every run: a search returns the first element it looked at that matches, and nothing only
    if all that it looked at, and all that stood in the list throughout, did not. */
module LockedListReturns {
  import opened Options
  import opened AtomicStack
  import opened Seqs
  import opened LockedList
  import opened LockedListRuns
  import opened LockedListVisits

  // ---------------------------------------------------------------------------------------
  // What a thread looks at
  // ---------------------------------------------------------------------------------------

  /** The next step of thread `t` calls the caller's function or predicate on an element. */
  ghost predicate Looking(s: State, t: Tid) {
    && t in s.threads && (s.threads[t].Ahead? || (s.threads[t].Both? && s.threads[t].w.op.RemoveIf?))
    && s.threads[t].next in s.heap && s.heap[s.threads[t].next].place.Linked? && s.heap[s.threads[t].next].data.Some?
  }

  ghost function LookAt(s: State, t: Tid): Visit
    requires Looking(s, t)
  {
    Visit(s.heap[s.threads[t].next].place.id, s.heap[s.threads[t].next].data.value)
  }

  /** What thread `t` looked at in the steps from `i` to `k`, each as it was at that moment. */
  ghost function Looked(states: seq<State>, who: seq<Tid>, t: Tid, i: nat, k: nat): seq<Visit>
    requires i <= k <= |who| < |states|
    decreases k
  {
    if k == i then []
    else Looked(states, who, t, i, k - 1) + (if who[k - 1] == t && Looking(states[k - 1], t) then [LookAt(states[k - 1], t)] else [])
  }

  lemma StepOf(states: seq<State>, who: seq<Tid>, how: seq<Choice>, k: nat)
    requires Run(states, who, how) && k < |who|
    ensures |states| == |who| + 1 && |how| == |who| && Inv(states[k]) && Inv(states[k + 1])
    ensures !states[k].fault && !states[k + 1].fault
    ensures Enabled(states[k], who[k], how[k]) && states[k + 1] == Next(states[k], who[k], how[k])
  {
    hide Inv, Next, Enabled, Init;
    RunKeeps(states, who, how, k);
    RunKeeps(states, who, how, k + 1);
  }

  ghost predicate InTheList(s: State, v: Visit) {
    exists k :: 0 <= k < |Elements(s)| && Elements(s)[k] == Element(v.id, Some(v.seen))
  }

  /** What a thread looks at is in the list, with that value. */
  lemma {:induction false} LookIsThere(s: State, t: Tid)
    requires Inv(s) && Looking(s, t)
    ensures InTheList(s, LookAt(s, t))
  {
    hide Inv, ThreadLaw, NodeLaw;
    InvAt(s, t, s.threads[t].next);
    var k := Position(s, s.threads[t].next);
    hide ChainOk;
    ElementOf(s, k);
  }

  // ---------------------------------------------------------------------------------------
  // The history of a traversal
  // ---------------------------------------------------------------------------------------

  /** What a traversal has made of all it looked at, up to where it stands. */
  ghost predicate Judged(th: Thread) {
    match th
    case Found(w, _, v) =>
      && |w.visited| > 0 && w.visited[|w.visited| - 1].seen == v && w.op.FindFirstIf? && w.op.p(v)
      && forall k :: 0 <= k < |w.visited| - 1 ==> !w.op.p(w.visited[k].seen)
    case _ =>
      var w := WalkOf(th);
      w.Some? && w.value.op.FindFirstIf? ==> forall k :: 0 <= k < |w.value.visited| ==> !w.value.op.p(w.value.visited[k].seen)
  }

  /** How one step of its own takes a traversal on: it looks at no more than `LookAt` says. */
  ghost predicate GoesOn(s: State, s': State, t: Tid)
    requires Walking(s, t)
  {
    t in s'.threads &&
    var th, th' := s.threads[t], s'.threads[t];
    if th'.Returning? then (th.Found? && th'.res == Some(th.v)) || (th.Stop? && th'.res == None)
    else
      && WalkOf(th').Some? && WalkOf(th').value.op == WalkOf(th).value.op && Judged(th')
      && WalkOf(th').value.visited == WalkOf(th).value.visited + (if Looking(s, t) then [LookAt(s, t)] else [])
  }

  lemma {:induction false} WalkGoesOn(s: State, t: Tid, c: Choice)
    requires Inv(s) && Enabled(s, t, c) && Walking(s, t) && Judged(s.threads[t]) && !Next(s, t, c).fault
    ensures GoesOn(s, Next(s, t, c), t)
  {
    hide Inv, Next, GoesOn, Judged;
    var th := s.threads[t];
    if th.Ahead? || th.Both? { LookGoesOn(s, t, c); }
    else if th.At? || th.Want? || th.Pass? || th.Found? || th.Stop? { MoveGoesOn(s, t, c); }
    else { TakeGoesOn(s, t, c); }
  }

  lemma {:induction false} LookGoesOn(s: State, t: Tid, c: Choice)
    requires Inv(s) && Enabled(s, t, c) && Walking(s, t) && Judged(s.threads[t]) && !Next(s, t, c).fault
    requires s.threads[t].Ahead? || s.threads[t].Both?
    ensures GoesOn(s, Next(s, t, c), t)
  {
    hide Inv, ChainOk, NodeLaw, PassedDownTo, Awaited, Adjacent, Without;
    InvAt(s, t, HEAD);
  }

  lemma {:induction false} MoveGoesOn(s: State, t: Tid, c: Choice)
    requires Inv(s) && Enabled(s, t, c) && Walking(s, t) && Judged(s.threads[t]) && !Next(s, t, c).fault
    requires var th := s.threads[t]; th.At? || th.Want? || th.Pass? || th.Found? || th.Stop?
    ensures GoesOn(s, Next(s, t, c), t)
  {
    hide Inv, ChainOk, NodeLaw, ThreadLaw;
  }

  lemma {:induction false} TakeGoesOn(s: State, t: Tid, c: Choice)
    requires Inv(s) && Enabled(s, t, c) && Walking(s, t) && Judged(s.threads[t]) && !Next(s, t, c).fault
    requires var th := s.threads[t]; th.Take? || th.Splice? || th.Drop? || th.Free?
    ensures GoesOn(s, Next(s, t, c), t)
  {
    hide Inv, ChainOk, NodeLaw, ThreadLaw, Awaited, Without;
  }

  /** Thread `t` locks the head for `op` in step `i`, and has not returned before `k`. */
  ghost predicate Operation(states: seq<State>, who: seq<Tid>, how: seq<Choice>, t: Tid, op: Op, i: nat, k: nat) {
    && Run(states, who, how) && i < k <= |who| < |states| && who[i] == t
    && t in states[i].threads && states[i].threads[t] == Start(op)
    && forall m :: i < m < k ==> !(t in states[m].threads && states[m].threads[t].Returning?)
  }

  ghost predicate Returned(s: State, t: Tid) {
    t in s.threads && s.threads[t].Returning?
  }

  /** A traversal's history is what its thread looked at. */
  ghost predicate Underway(states: seq<State>, who: seq<Tid>, t: Tid, op: Op, i: nat, k: nat)
    requires i <= k <= |who| < |states|
  {
    && Walking(states[k], t) && Judged(states[k].threads[t])
    && WalkOf(states[k].threads[t]).value.op == op
    && WalkOf(states[k].threads[t]).value.visited == Looked(states, who, t, i, k)
  }

  lemma {:induction false} OperationKeeps(states: seq<State>, who: seq<Tid>, how: seq<Choice>, t: Tid, op: Op, i: nat, k: nat)
    requires Operation(states, who, how, t, op, i, k) && !Returned(states[k], t)
    ensures Underway(states, who, t, op, i, k)
    decreases k
  {
    hide Inv, Run, Next, Enabled, Judged, WalkOf;
    if k == i + 1 {
      Begins(states, who, how, t, op, i);
    } else {
      OperationKeeps(states, who, how, t, op, i, k - 1);
      Onward(states, who, how, t, op, i, k);
    }
  }

  lemma {:induction false} Begins(states: seq<State>, who: seq<Tid>, how: seq<Choice>, t: Tid, op: Op, i: nat)
    requires Operation(states, who, how, t, op, i, i + 1)
    ensures Underway(states, who, t, op, i, i + 1)
  {
    hide Inv, Run, Next, Enabled;
    StepOf(states, who, how, i);
    StartContinues(states[i], t, how[i]);
    WalkBegins(states[i], t, op, how[i]);
    StaysIn(states[i], t, how[i]);
    assert Looked(states, who, t, i, i) == [];
  }

  lemma StartContinues(s: State, t: Tid, c: Choice)
    requires Enabled(s, t, c) && t in s.threads
    ensures c.Continue?
  {
  }

  lemma {:induction false} StaysIn(s: State, t: Tid, c: Choice)
    requires Enabled(s, t, c) && t in s.threads && s.threads[t].Start?
    ensures t in Next(s, t, c).threads
  {
  }

  lemma {:induction false} Onward(states: seq<State>, who: seq<Tid>, how: seq<Choice>, t: Tid, op: Op, i: nat, k: nat)
    requires Run(states, who, how) && i < k - 1 < k <= |who| < |states| && Underway(states, who, t, op, i, k - 1)
    ensures t in states[k].threads
    ensures !Returned(states[k], t) ==> Underway(states, who, t, op, i, k)
    ensures Returned(states[k], t) ==> who[k - 1] == t && GoesOn(states[k - 1], states[k], t)
  {
    hide Inv, Run, Next, Enabled, Judged;
    StepOf(states, who, how, k - 1);
    var s := states[k - 1];
    if who[k - 1] == t {
      WalkGoesOn(s, t, how[k - 1]);
    } else {
      OthersStand(s, who[k - 1], how[k - 1], t);
    }
  }

  /** Each of the elements looked at was in the list, with that value, when it was. */
  lemma {:induction false} LookedWasThere(states: seq<State>, who: seq<Tid>, how: seq<Choice>, t: Tid, i: nat, k: nat, n: nat) returns (m: nat)
    requires Run(states, who, how) && i <= k <= |who| < |states| && n < |Looked(states, who, t, i, k)|
    ensures i <= m < k && who[m] == t
    ensures InTheList(states[m], Looked(states, who, t, i, k)[n])
  {
    hide Inv, Run, Looking, InTheList;
    if n < |Looked(states, who, t, i, k - 1)| {
      m := LookedWasThere(states, who, how, t, i, k - 1, n);
    } else {
      m := k - 1;
      StepOf(states, who, how, k - 1);
      LookIsThere(states[k - 1], t);
    }
  }

  // ---------------------------------------------------------------------------------------
  // Returns
  // ---------------------------------------------------------------------------------------

  /** The step that returns: from a match, or from the end of the list. */
  lemma {:induction false} LastStep(states: seq<State>, who: seq<Tid>, how: seq<Choice>, t: Tid, op: Op, i: nat, j: nat)
    requires Operation(states, who, how, t, op, i, j) && Returned(states[j], t)
    ensures i + 1 < j && who[j - 1] == t && Underway(states, who, t, op, i, j - 1)
    ensures Looked(states, who, t, i, j) == Looked(states, who, t, i, j - 1)
    ensures var th := states[j - 1].threads[t];
      (th.Found? && states[j].threads[t].res == Some(th.v)) || (th.Stop? && states[j].threads[t].res == None)
  {
    hide Inv, Run, Next, Enabled, Judged;
    if j == i + 1 { Begins(states, who, how, t, op, i); assert false; }
    OperationKeeps(states, who, how, t, op, i, j - 1);
    Onward(states, who, how, t, op, i, j);
  }

  /** The element stands in the list in every state from `i` to `j`. */
  ghost predicate Throughout(states: seq<State>, id: nat, i: nat, j: nat)
    requires i <= j < |states|
  {
    forall m :: i <= m <= j ==> Present(states[m], id)
  }

  /** What a search returns is the last element that it looked at, with the value it had then;
      the predicate holds of it, and of none that the search looked at before. */
  lemma {:induction false} FindReturnsFirst(states: seq<State>, who: seq<Tid>, how: seq<Choice>, t: Tid, p: Value -> bool, i: nat, j: nat)
    requires Operation(states, who, how, t, FindFirstIf(p), i, j) && Returned(states[j], t) && states[j].threads[t].res.Some?
    ensures
      var seen, v := Looked(states, who, t, i, j), states[j].threads[t].res.value;
      && |seen| > 0 && seen[|seen| - 1].seen == v && p(v)
      && forall k :: 0 <= k < |seen| - 1 ==> !p(seen[k].seen)
  {
    hide Run, Looked;
    LastStep(states, who, how, t, FindFirstIf(p), i, j);
  }

  /** A search that returns nothing has looked at every element that stood in the list all the
      while, and the predicate held of none that it looked at. */
  lemma {:induction false} FindReturnsNone(states: seq<State>, who: seq<Tid>, how: seq<Choice>, t: Tid, p: Value -> bool, i: nat, j: nat, id: nat)
    requires Operation(states, who, how, t, FindFirstIf(p), i, j) && Returned(states[j], t) && states[j].threads[t].res.None?
    ensures
      var seen := Looked(states, who, t, i, j);
      && (forall k :: 0 <= k < |seen| ==> !p(seen[k].seen))
      && (Throughout(states, id, i, j) ==> exists k :: 0 <= k < |seen| && seen[k].id == id)
  {
    hide Run, Looked, Present;
    LastStep(states, who, how, t, FindFirstIf(p), i, j);
    if Throughout(states, id, i, j) {
      OperationWalks(states, who, how, t, FindFirstIf(p), i, j - 1);
      TraversalIsComplete(states, who, how, t, FindFirstIf(p), i, j - 1, id);
    }
  }

  lemma UnderwayWalks(states: seq<State>, who: seq<Tid>, t: Tid, op: Op, i: nat, k: nat)
    requires i <= k <= |who| < |states| && Underway(states, who, t, op, i, k)
    ensures Walking(states[k], t)
  {
  }

  lemma {:induction false} OperationWalks(states: seq<State>, who: seq<Tid>, how: seq<Choice>, t: Tid, op: Op, i: nat, k: nat)
    requires Operation(states, who, how, t, op, i, k) && !Returned(states[k], t)
    ensures Traversal(states, who, how, t, op, i, k)
  {
    hide Run, Looked, Walking, Inv, Next, Enabled, Underway;
    StepOf(states, who, how, i);
    StartContinues(states[i], t, how[i]);
    forall m | i < m <= k ensures Walking(states[m], t) {
      OperationKeeps(states, who, how, t, op, i, m);
      UnderwayWalks(states, who, t, op, i, m);
    }
  }

  /** `for_each` and `remove_if` return nothing, having looked at every element that stood in
      the list all the while; `remove_if` leaves none of those that matched. */
  lemma {:induction false} TraversalReturns(states: seq<State>, who: seq<Tid>, how: seq<Choice>, t: Tid, op: Op, i: nat, j: nat, id: nat)
    requires Operation(states, who, how, t, op, i, j) && Returned(states[j], t) && !op.FindFirstIf?
    ensures states[j].threads[t].res == None
    ensures Throughout(states, id, i, j) ==>
      var seen := Looked(states, who, t, i, j);
      exists k :: 0 <= k < |seen| && seen[k].id == id && TurnedDown(op, seen[k].seen)
  {
    hide Run, Looked, Present;
    LastStep(states, who, how, t, op, i, j);
    if Throughout(states, id, i, j) {
      OperationWalks(states, who, how, t, op, i, j - 1);
      TraversalIsComplete(states, who, how, t, op, i, j - 1, id);
    }
  }

  // ---------------------------------------------------------------------------------------
  // push_front
  // ---------------------------------------------------------------------------------------

  /** The value a push is about, until it has linked its node. */
  ghost predicate Brings(s: State, t: Tid, v: Value) {
    t in s.threads &&
    match s.threads[t]
    case PushStart(v') => v' == v
    case PushLock(n) => n in s.heap && s.heap[n].data == Some(v)
    case PushMove(n) => n in s.heap && s.heap[n].data == Some(v)
    case PushLink(n) => n in s.heap && s.heap[n].data == Some(v)
    case _ => false
  }

  /** A node that a thread has not yet linked in keeps its element. */
  lemma {:induction false} BringsStill(s: State, u: Tid, c: Choice, t: Tid, v: Value)
    requires Inv(s) && Enabled(s, u, c) && u != t && Brings(s, t, v)
    ensures Brings(Next(s, u, c), t, v)
  {
    hide Inv, Next, ChainOk, PassedDownTo, Adjacent, Enabled;
    OthersStand(s, u, c, t);
    InvAt(s, t, HEAD);
    if !s.threads[t].PushStart? { PrivateStands(s, u, c, t, s.threads[t].n); }
  }

  lemma {:induction false} PrivateStands(s: State, u: Tid, c: Choice, t: Tid, n: Addr)
    requires Inv(s) && Enabled(s, u, c) && u != t && Owns(s, t, n)
    ensures n in Next(s, u, c).heap && Next(s, u, c).heap[n].data == s.heap[n].data
  {
    hide Inv, ChainOk, PassedDownTo, Adjacent, NodeLaw, Next;
    InvAt(s, u, HEAD);
    InvAt(s, u, n);
    if c.Continue? && u in s.threads && WalkOf(s.threads[u]).Some? {
      PrivateFromWalk(s, u, c, t, n);
    } else {
      PrivateFromPush(s, u, c, t, n);
    }
  }

  lemma {:induction false} PrivateFromWalk(s: State, u: Tid, c: Choice, t: Tid, n: Addr)
    requires Enabled(s, u, c) && c.Continue? && u != t && Owns(s, t, n) && WalkOf(s.threads[u]).Some? && ThreadLaw(s, u)
    ensures n in Next(s, u, c).heap && Next(s, u, c).heap[n].data == s.heap[n].data
  {
    hide PassedDownTo, Adjacent, Awaited, Without, Visiting, Succ, Key, Enabled;
    match s.threads[u]
    case _ => { }
  }

  lemma {:induction false} PrivateFromPush(s: State, u: Tid, c: Choice, t: Tid, n: Addr)
    requires Enabled(s, u, c) && u != t && Owns(s, t, n) && HEAD in s.heap && s.heap[HEAD].place.Head?
    requires c.Continue? ==> WalkOf(s.threads[u]).None? && ThreadLaw(s, u)
    ensures n in Next(s, u, c).heap && Next(s, u, c).heap[n].data == s.heap[n].data
  {
    hide PassedDownTo, Adjacent, Awaited, Without, Visiting, Succ;
  }

  ghost predicate PutsInFront(s: State, s': State, v: Value) {
    Inserted(Elements(s), Elements(s'), Element(s.nextId, Some(v)))
  }

  ghost predicate LeavesList(states: seq<State>, who: seq<Tid>, t: Tid, i: nat, k: nat)
    requires k <= |who| < |states|
  {
    forall m :: i <= m < k && who[m] == t ==> Elements(states[m + 1]) == Elements(states[m])
  }

  /** Of the steps from `i` to `k` thread `t` put the value in front of the list in one, and
      left the list alone in all the others. */
  ghost predicate Pushed(states: seq<State>, who: seq<Tid>, t: Tid, v: Value, i: nat, k: nat)
    requires k <= |who| < |states|
  {
    exists m: nat :: i <= m < k && who[m] == t && PutsInFront(states[m], states[m + 1], v)
      && LeavesList(states, who, t, i, m) && LeavesList(states, who, t, m + 1, k)
  }

  /** How far a push of `v` has got. */
  ghost predicate PushStands(states: seq<State>, who: seq<Tid>, t: Tid, v: Value, i: nat, k: nat)
    requires k <= |who| < |states|
  {
    || (Brings(states[k], t, v) && LeavesList(states, who, t, i, k))
    || (t in states[k].threads && states[k].threads[t] in {PushUnlock, Returning(None)} && Pushed(states, who, t, v, i, k))
  }

  lemma {:induction false} BringsOn(s: State, t: Tid, c: Choice, v: Value)
    requires Inv(s) && Enabled(s, t, c) && Brings(s, t, v) && !Next(s, t, c).fault
    ensures
      var s' := Next(s, t, c);
      if s.threads[t].PushLink? then t in s'.threads && s'.threads[t] == PushUnlock && PutsInFront(s, s', v)
      else Brings(s', t, v) && Elements(s') == Elements(s)
  {
    hide Inv, Next, Effect, Elements, Inserted, Brings, Enabled;
    BringsIn(s, t, v);
    StepEffect(s, t, c);
    EffectOf(s, t, c);
    BringsStep(s, t, c, v);
  }

  lemma {:induction false} BringsStep(s: State, t: Tid, c: Choice, v: Value)
    requires Inv(s) && Enabled(s, t, c) && Brings(s, t, v) && !Next(s, t, c).fault
    ensures
      var s', th := Next(s, t, c), s.threads[t];
      && (th.PushStart? || th.PushLock? || th.PushMove? || th.PushLink?)
      && (if th.PushLink? then th.n in s.heap && s.heap[th.n].data == Some(v) && t in s'.threads && s'.threads[t] == PushUnlock else Brings(s', t, v))
  {
    hide Inv, ChainOk, NodeLaw, ThreadLaw;
  }

  lemma EffectOf(s: State, t: Tid, c: Choice)
    requires Enabled(s, t, c) && t in s.threads && Effect(s, t, c)
    ensures s.threads[t].PushStart? || s.threads[t].PushLock? || s.threads[t].PushMove? || s.threads[t].PushUnlock? ==>
      Elements(Next(s, t, c)) == Elements(s)
    ensures s.threads[t].PushLink? ==>
      s.threads[t].n in s.heap && Inserted(Elements(s), Elements(Next(s, t, c)), Element(s.nextId, s.heap[s.threads[t].n].data))
  {
    hide Elements, Inserted, Next;
  }

  lemma {:induction false} UnlockOn(s: State, t: Tid, c: Choice)
    requires Inv(s) && Enabled(s, t, c) && t in s.threads && s.threads[t] == PushUnlock && !Next(s, t, c).fault
    ensures
      var s' := Next(s, t, c);
      t in s'.threads && s'.threads[t] == Returning(None) && Elements(s') == Elements(s)
  {
    StepEffect(s, t, c);
    hide Inv, Effect, Elements, ChainOk, NodeLaw;
    EffectOf(s, t, c);
  }

  lemma LeavesMore(states: seq<State>, who: seq<Tid>, t: Tid, i: nat, k: nat)
    requires k < |who| < |states| && LeavesList(states, who, t, i, k)
    requires who[k] == t ==> Elements(states[k + 1]) == Elements(states[k])
    ensures LeavesList(states, who, t, i, k + 1)
  {
    hide Elements;
  }

  lemma PushedMore(states: seq<State>, who: seq<Tid>, t: Tid, v: Value, i: nat, k: nat)
    requires k < |who| < |states| && Pushed(states, who, t, v, i, k)
    requires who[k] == t ==> Elements(states[k + 1]) == Elements(states[k])
    ensures Pushed(states, who, t, v, i, k + 1)
  {
    hide PutsInFront, LeavesList, Elements;
    var m: nat :| i <= m < k && who[m] == t && PutsInFront(states[m], states[m + 1], v)
      && LeavesList(states, who, t, i, m) && LeavesList(states, who, t, m + 1, k);
    LeavesMore(states, who, t, m + 1, k);
  }

  lemma PushedNow(states: seq<State>, who: seq<Tid>, t: Tid, v: Value, i: nat, k: nat)
    requires i <= k < |who| < |states| && who[k] == t && PutsInFront(states[k], states[k + 1], v) && LeavesList(states, who, t, i, k)
    ensures Pushed(states, who, t, v, i, k + 1)
  {
    hide PutsInFront, Elements;
    assert LeavesList(states, who, t, k + 1, k + 1);
  }

  lemma {:induction false} PushGoesOn(states: seq<State>, who: seq<Tid>, how: seq<Choice>, t: Tid, v: Value, i: nat, k: nat)
    requires Run(states, who, how) && i <= k < |who| < |states| && PushStands(states, who, t, v, i, k) && !Returned(states[k], t)
    ensures PushStands(states, who, t, v, i, k + 1)
  {
    hide Inv, Run, Next, Enabled, Pushed, LeavesList, PutsInFront, Elements, Brings;
    StepOf(states, who, how, k);
    var s := states[k];
    if who[k] != t {
      OthersStand(s, who[k], how[k], t);
      if Brings(s, t, v) {
        BringsStill(s, who[k], how[k], t, v);
        if LeavesList(states, who, t, i, k) { LeavesMore(states, who, t, i, k); }
      }
      if Pushed(states, who, t, v, i, k) { PushedMore(states, who, t, v, i, k); }
    } else if Brings(s, t, v) && LeavesList(states, who, t, i, k) {
      BringsIn(s, t, v);
      BringsOn(s, t, how[k], v);
      if s.threads[t].PushLink? { PushedNow(states, who, t, v, i, k); } else { LeavesMore(states, who, t, i, k); }
    } else {
      UnlockOn(s, t, how[k]);
      PushedMore(states, who, t, v, i, k);
    }
  }

  lemma BringsIn(s: State, t: Tid, v: Value)
    requires Brings(s, t, v)
    ensures t in s.threads
  {
  }

  /** Thread `t` is about to push `v` in state `i`, and has not returned before `k`. */
  ghost predicate Push(states: seq<State>, who: seq<Tid>, how: seq<Choice>, t: Tid, v: Value, i: nat, k: nat) {
    && Run(states, who, how) && i <= k <= |who| < |states|
    && t in states[i].threads && states[i].threads[t] == PushStart(v)
    && forall m :: i <= m < k ==> !Returned(states[m], t)
  }

  lemma {:induction false} PushKeeps(states: seq<State>, who: seq<Tid>, how: seq<Choice>, t: Tid, v: Value, i: nat, k: nat)
    requires Push(states, who, how, t, v, i, k)
    ensures PushStands(states, who, t, v, i, k)
    decreases k
  {
    hide Run, PushStands;
    if k == i {
      PushBegins(states, who, t, v, i);
    } else {
      PushKeeps(states, who, how, t, v, i, k - 1);
      PushGoesOn(states, who, how, t, v, i, k - 1);
    }
  }

  lemma PushBegins(states: seq<State>, who: seq<Tid>, t: Tid, v: Value, i: nat)
    requires i <= |who| < |states| && t in states[i].threads && states[i].threads[t] == PushStart(v)
    ensures PushStands(states, who, t, v, i, i)
  {
    hide Elements;
  }

  /** `push_front` returns nothing, having put its value in front of the list in exactly one
      step and left the list alone in all its others. */
  lemma {:induction false} PushReturns(states: seq<State>, who: seq<Tid>, how: seq<Choice>, t: Tid, v: Value, i: nat, j: nat)
    requires Push(states, who, how, t, v, i, j) && Returned(states[j], t)
    ensures states[j].threads[t].res == None && Pushed(states, who, t, v, i, j)
  {
    hide Run, Pushed, LeavesList;
    PushKeeps(states, who, how, t, v, i, j);
  }
}
