/** The specification the concurrent queues refine: a bounded first-in first-out queue on
    which each call takes effect in one indivisible commit, or is refused. */
module AtomicFifo {
  /** The element type; no step looks inside a value. */
  type Value(==, !new)
  type Tid = nat

  /** A call in progress: still to take effect, or with its outcome. */
  datatype Call = Push(v: Value) | Pop | Pushed | Popped(v: Value) | Refused

  datatype Spec = Spec(capacity: nat, queue: seq<Value>, calls: map<Tid, Call>)

  datatype Action = Begin(call: Call) | Commit | Refuse | End | Stutter

  predicate Pending(c: Call) {
    c.Push? || c.Pop?
  }

  /** A push commits only below the capacity, a pop only on a queue with elements. */
  ghost predicate SpecEnabled(a: Spec, t: Tid, e: Action) {
    match e
    case Begin(call) => t !in a.calls && Pending(call)
    case Commit => t in a.calls && Pending(a.calls[t]) && if a.calls[t].Push? then |a.queue| < a.capacity else a.queue != []
    case Refuse => t in a.calls && Pending(a.calls[t])
    case End => t in a.calls && !Pending(a.calls[t])
    case Stutter => true
  }

  ghost function SpecNext(a: Spec, t: Tid, e: Action): Spec
    requires SpecEnabled(a, t, e)
  {
    match e
    case Begin(call) => a.(calls := a.calls[t := call])
    case Commit =>
      if a.calls[t].Push? then a.(queue := a.queue + [a.calls[t].v], calls := a.calls[t := Pushed])
      else a.(queue := a.queue[1..], calls := a.calls[t := Popped(a.queue[0])])
    case Refuse => a.(calls := a.calls[t := Refused])
    case End => a.(calls := a.calls - {t})
    case Stutter => a
  }

  /** A run from the empty queue, thread `who[i]` taking step `what[i]`. */
  ghost predicate SpecRun(specs: seq<Spec>, who: seq<Tid>, what: seq<Action>) {
    && |specs| == |who| + 1 && |who| == |what|
    && specs[0].queue == [] && specs[0].calls == map[]
    && forall i :: 0 <= i < |who| ==>
         SpecEnabled(specs[i], who[i], what[i]) && specs[i + 1] == SpecNext(specs[i], who[i], what[i])
  }

  /** What a step puts in, and what it takes out. */
  function PutIn(a: Spec, t: Tid, e: Action): seq<Value> {
    if e.Commit? && t in a.calls && a.calls[t].Push? then [a.calls[t].v] else []
  }

  function TakenOut(a: Spec, t: Tid, e: Action): seq<Value> {
    if e.Commit? && t in a.calls && a.calls[t].Pop? && a.queue != [] then [a.queue[0]] else []
  }

  function AllIn(specs: seq<Spec>, who: seq<Tid>, what: seq<Action>, i: nat): seq<Value>
    requires i <= |who| <= |what| && |who| <= |specs|
  {
    if i == 0 then [] else AllIn(specs, who, what, i - 1) + PutIn(specs[i - 1], who[i - 1], what[i - 1])
  }

  function AllOut(specs: seq<Spec>, who: seq<Tid>, what: seq<Action>, i: nat): seq<Value>
    requires i <= |who| <= |what| && |who| <= |specs|
  {
    if i == 0 then [] else AllOut(specs, who, what, i - 1) + TakenOut(specs[i - 1], who[i - 1], what[i - 1])
  }

  lemma StepOrder(a: Spec, t: Tid, e: Action)
    requires SpecEnabled(a, t, e)
    ensures a.queue + PutIn(a, t, e) == TakenOut(a, t, e) + SpecNext(a, t, e).queue
    ensures |a.queue| <= a.capacity ==> |SpecNext(a, t, e).queue| <= a.capacity
    ensures SpecNext(a, t, e).capacity == a.capacity
  {
  }

  lemma Regroup(x: seq<Value>, q: seq<Value>, i: seq<Value>, o: seq<Value>, q': seq<Value>)
    requires q + i == o + q'
    ensures (x + q) + i == (x + o) + q'
  {
    assert (x + q) + i == x + (q + i);
    assert (x + o) + q' == x + (o + q');
  }

  /** First in, first out: at every moment the elements put in are, in order, those taken out
      followed by those in the queue, of which there are never more than the capacity. */
  lemma {:induction false} FirstInFirstOut(specs: seq<Spec>, who: seq<Tid>, what: seq<Action>, i: nat)
    requires SpecRun(specs, who, what) && i <= |who|
    ensures AllIn(specs, who, what, i) == AllOut(specs, who, what, i) + specs[i].queue
    ensures |specs[i].queue| <= specs[i].capacity == specs[0].capacity
  {
    hide PutIn, TakenOut, SpecNext, SpecEnabled;
    if i > 0 {
      FirstInFirstOut(specs, who, what, i - 1);
      var a, t, e := specs[i - 1], who[i - 1], what[i - 1];
      assert SpecEnabled(a, t, e) && specs[i - 1 + 1] == SpecNext(a, t, e);
      StepOrder(a, t, e);
      Regroup(AllOut(specs, who, what, i - 1), a.queue, PutIn(a, t, e), TakenOut(a, t, e), specs[i].queue);
    }
  }

  /** A push that takes effect adds its value at the end of the queue, which was not full; a pop
      returns the first value, which is gone; no other step changes the queue. */
  lemma EffectAtEnds(specs: seq<Spec>, who: seq<Tid>, what: seq<Action>, i: nat)
    requires SpecRun(specs, who, what) && i < |who|
    ensures |specs| == |who| + 1
    ensures
      var a, a', t := specs[i], specs[i + 1], who[i];
      if !what[i].Commit? then a'.queue == a.queue
      else
        t in a.calls && t in a'.calls &&
        match a.calls[t]
        case Push(v) => a'.calls[t] == Pushed && a'.queue == a.queue + [v] && |a.queue| < a.capacity
        case Pop => a'.calls[t].Popped? && a.queue == [a'.calls[t].v] + a'.queue
        case _ => false
  {
    assert SpecEnabled(specs[i], who[i], what[i]) && specs[i + 1] == SpecNext(specs[i], who[i], what[i]);
  }
}
