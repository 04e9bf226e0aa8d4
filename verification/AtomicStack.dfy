/** The specification both lock-free stacks refine: a stack on which each call takes effect
    in one indivisible commit between its beginning and its end. */
module AtomicStack {
  import opened Options

  /** The element type of the stacks; no step looks inside a value. */
  type Value(==, !new)
  type Tid = nat

  /** A call in progress on the atomic stack: not yet effective, or effective with its result. */
  datatype Call = Push(data: Option<Value>) | Pop | Done(res: Option<Value>)

  /** The atomic stack of shared pointers, top last, with the calls in progress. */
  datatype Spec = Spec(stack: seq<Option<Value>>, calls: map<Tid, Call>)

  /** Steps of the atomic stack; `Abandon` ends a call that took no effect, by an exception. */
  datatype Action = Begin(call: Call) | Commit | End | Abandon | Stutter

  ghost predicate SpecEnabled(a: Spec, t: Tid, e: Action) {
    match e
    case Begin(call) => t !in a.calls && !call.Done?
    case Commit => t in a.calls && !a.calls[t].Done?
    case End => t in a.calls && a.calls[t].Done?
    case Abandon => t in a.calls && !a.calls[t].Done?
    case Stutter => true
  }

  ghost function SpecNext(a: Spec, t: Tid, e: Action): Spec
    requires SpecEnabled(a, t, e)
  {
    match e
    case Begin(call) => a.(calls := a.calls[t := call])
    case Commit =>
      (match a.calls[t]
       case Push(data) => Spec(a.stack + [data], a.calls[t := Done(None)])
       case Pop =>
         if a.stack == [] then a.(calls := a.calls[t := Done(None)])
         else var n := |a.stack| - 1; Spec(a.stack[..n], a.calls[t := Done(a.stack[n])]))
    case End => a.(calls := a.calls - {t})
    case Abandon => a.(calls := a.calls - {t})
    case Stutter => a
  }

  /** The element a commit adds to the atomic stack, and the one it takes off. */
  function PushedBy(a: Spec, t: Tid, e: Action): multiset<Option<Value>> {
    if e.Commit? && t in a.calls && a.calls[t].Push? then multiset{a.calls[t].data} else multiset{}
  }

  function PoppedBy(a: Spec, t: Tid, e: Action): multiset<Option<Value>> {
    if e.Commit? && t in a.calls && a.calls[t].Pop? && a.stack != [] then multiset{a.stack[|a.stack| - 1]}
    else multiset{}
  }

  lemma SpecConserves(a: Spec, t: Tid, e: Action)
    requires SpecEnabled(a, t, e)
    ensures multiset(SpecNext(a, t, e).stack) + PoppedBy(a, t, e) == multiset(a.stack) + PushedBy(a, t, e)
    ensures PoppedBy(a, t, e) != multiset{} ==>
      t in SpecNext(a, t, e).calls && PoppedBy(a, t, e) == multiset{SpecNext(a, t, e).calls[t].res}
  {
    var n := |a.stack| - 1;
    if n >= 0 { assert a.stack == a.stack[..n] + [a.stack[n]]; }
  }

  /** A run of the atomic stack from empty, thread `who[i]` taking step `what[i]`. */
  ghost predicate SpecRun(specs: seq<Spec>, who: seq<Tid>, what: seq<Action>) {
    && |specs| == |who| + 1 && |who| == |what|
    && specs[0] == Spec([], map[])
    && forall i :: 0 <= i < |who| ==>
         SpecEnabled(specs[i], who[i], what[i]) && specs[i + 1] == SpecNext(specs[i], who[i], what[i])
  }

  /** What the first `i` steps of a run pushed, and what they popped. */
  function AllPushed(specs: seq<Spec>, who: seq<Tid>, what: seq<Action>, i: nat): multiset<Option<Value>>
    requires i <= |who| <= |what| && |who| <= |specs|
  {
    if i == 0 then multiset{}
    else AllPushed(specs, who, what, i - 1) + PushedBy(specs[i - 1], who[i - 1], what[i - 1])
  }

  function AllPopped(specs: seq<Spec>, who: seq<Tid>, what: seq<Action>, i: nat): multiset<Option<Value>>
    requires i <= |who| <= |what| && |who| <= |specs|
  {
    if i == 0 then multiset{}
    else AllPopped(specs, who, what, i - 1) + PoppedBy(specs[i - 1], who[i - 1], what[i - 1])
  }

  /** Every pushed element is on the stack or was popped, and popped once: as multisets,
      pushed equals popped plus stacked. */
  lemma {:induction false} PoppedAtMostOnce(specs: seq<Spec>, who: seq<Tid>, what: seq<Action>, i: nat)
    requires SpecRun(specs, who, what) && i <= |who|
    ensures AllPushed(specs, who, what, i) == AllPopped(specs, who, what, i) + multiset(specs[i].stack)
  {
    hide PushedBy, PoppedBy, SpecNext;
    if i > 0 {
      PoppedAtMostOnce(specs, who, what, i - 1);
      var a, t, e := specs[i - 1], who[i - 1], what[i - 1];
      assert SpecEnabled(a, t, e) && specs[i - 1 + 1] == SpecNext(a, t, e);
      SpecConserves(a, t, e);
      calc {
        AllPushed(specs, who, what, i);
        AllPushed(specs, who, what, i - 1) + PushedBy(a, t, e);
        AllPopped(specs, who, what, i - 1) + (multiset(a.stack) + PushedBy(a, t, e));
        AllPopped(specs, who, what, i - 1) + (multiset(specs[i].stack) + PoppedBy(a, t, e));
        AllPopped(specs, who, what, i) + multiset(specs[i].stack);
      }
    }
  }

  /** Thread `who[i]` takes effect in step `i`, with this call. */
  ghost predicate TakesEffect(specs: seq<Spec>, who: seq<Tid>, what: seq<Action>, i: nat, call: Call)
    requires SpecRun(specs, who, what) && i < |who|
  {
    what[i] == Commit && who[i] in specs[i].calls && specs[i].calls[who[i]] == call
  }

  /** A pop leaves the stack alone and returns nothing if it is empty; otherwise it takes one
      element and returns it, and a push adds its own, at the same end. */
  lemma EffectAtTop(specs: seq<Spec>, who: seq<Tid>, what: seq<Action>, i: nat)
    requires SpecRun(specs, who, what) && i < |who|
    ensures |specs| == |who| + 1
    ensures TakesEffect(specs, who, what, i, Pop) ==>
      && who[i] in specs[i + 1].calls
      && if specs[i].stack == [] then specs[i + 1].stack == [] && specs[i + 1].calls[who[i]] == Done(None)
         else var r := specs[i + 1].calls[who[i]]; r.Done? && specs[i].stack == specs[i + 1].stack + [r.res]
    ensures forall data :: TakesEffect(specs, who, what, i, Push(data)) ==> specs[i + 1].stack == specs[i].stack + [data]
    ensures what[i] != Commit ==> specs[i + 1].stack == specs[i].stack
  {
    var a, t := specs[i], who[i];
    assert SpecEnabled(a, t, what[i]) && specs[i + 1] == SpecNext(a, t, what[i]);
    if a.stack != [] { assert a.stack == a.stack[..|a.stack| - 1] + [a.stack[|a.stack| - 1]]; }
  }

  /** While the stack stays higher than it was before a push, that push's element stands on
      what was there then. */
  lemma {:induction false} StandsOn(specs: seq<Spec>, who: seq<Tid>, what: seq<Action>, i: nat, j: nat, data: Option<Value>)
    requires SpecRun(specs, who, what) && i < j <= |who| && TakesEffect(specs, who, what, i, Push(data))
    requires forall k :: i < k <= j ==> |specs[k].stack| > |specs[i].stack|
    ensures specs[i].stack + [data] <= specs[j].stack
    decreases j
  {
    hide SpecRun, SpecNext;
    EffectAtTop(specs, who, what, j - 1);
    assert j - 1 + 1 == j;
    if j > i + 1 {
      StandsOn(specs, who, what, i, j - 1, data);
      OneStep(specs, who, what, j - 1);
    }
  }

  /** A step keeps the stack, or changes its last element. */
  lemma OneStep(specs: seq<Spec>, who: seq<Tid>, what: seq<Action>, i: nat)
    requires SpecRun(specs, who, what) && i < |who|
    ensures specs[i].stack <= specs[i + 1].stack || (|specs[i].stack| == |specs[i + 1].stack| + 1 && specs[i + 1].stack <= specs[i].stack)
  {
    assert SpecEnabled(specs[i], who[i], what[i]) && specs[i + 1] == SpecNext(specs[i], who[i], what[i]);
  }

  /** Last in, first out: the pop that brings the stack back to its height before a push
      returns what that push put there. */
  lemma LastInFirstOut(specs: seq<Spec>, who: seq<Tid>, what: seq<Action>, i: nat, j: nat, data: Option<Value>)
    requires SpecRun(specs, who, what) && i < j < |who|
    requires TakesEffect(specs, who, what, i, Push(data)) && TakesEffect(specs, who, what, j, Pop)
    requires (forall k :: i < k <= j ==> |specs[k].stack| > |specs[i].stack|) && |specs[j + 1].stack| == |specs[i].stack|
    ensures who[j] in specs[j + 1].calls && specs[j + 1].calls[who[j]] == Done(data) && specs[j + 1].stack == specs[i].stack
  {
    hide SpecRun;
    StandsOn(specs, who, what, i, j, data);
    EffectAtTop(specs, who, what, j);
    var was, now, r := specs[j].stack, specs[j + 1].stack, specs[j + 1].calls[who[j]];
    assert was == specs[i].stack + [data];
    assert r.res == was[|was| - 1] && now == was[..|was| - 1];
  }
}
