/** The single-producer single-consumer ring.  Fifo1 is the plain ring for one thread; Fifo4
    is the same ring between two threads, each of which keeps a stale copy of the other's
    cursor and reloads it only when the copy says full or empty.  Cursors are unbounded.

    The Fifo4 machine takes one step per load and store of a shared cursor and per access to
    an element.  Constructing over an element, and reading or destroying where there is
    none, raise `fault`.  `vals` records the values written, by cursor. */
module SpscFifo {
  import opened AtomicFifo
  import opened RingIndex

  datatype Cell = Blank | Holds(v: Value)

  // ---------------------------------------------------------------------------------------
  // The plain ring
  // ---------------------------------------------------------------------------------------

  /** What a push and a pop do to a plain bounded queue. */
  function PlainPush(capacity: nat, q: seq<Value>, v: Value): (Call, seq<Value>) {
    if |q| >= capacity then (Refused, q) else (Pushed, q + [v])
  }

  function PlainPop(q: seq<Value>): (Call, seq<Value>) {
    if q == [] then (Refused, q) else (Popped(q[0]), q[1..])
  }

  class Fifo1 {
    const ring: array<Cell>
    var pushCursor: nat
    var popCursor: nat
    ghost var contents: seq<Value>

    /** The elements between the cursors are in their cells; every other cell is blank. */
    ghost predicate Valid()
      reads this, ring
    {
      && popCursor <= pushCursor <= popCursor + ring.Length && |contents| == pushCursor - popCursor
      && forall k: nat :: popCursor <= k < popCursor + ring.Length ==>
           ring[Index(ring.Length, k)] == (if k < pushCursor then Holds(contents[k - popCursor]) else Blank)
    }

    constructor (capacity: nat)
      ensures Valid() && fresh(ring) && ring.Length == capacity && contents == []
    {
      ring := new Cell[capacity](_ => Blank);
      pushCursor, popCursor, contents := 0, 0, [];
    }

    method Push(v: Value) returns (ok: bool)
      requires Valid()
      modifies this, ring
      ensures Valid()
      ensures (if ok then Pushed else Refused, contents) == PlainPush(ring.Length, old(contents), v)
      ensures ok <==> |old(contents)| < ring.Length
      ensures contents == if ok then old(contents) + [v] else old(contents)
    {
      if pushCursor - popCursor == ring.Length {
        return false;
      }
      Neighbours(ring.Length, popCursor, pushCursor);
      ring[pushCursor % ring.Length] := Holds(v);
      pushCursor := pushCursor + 1;
      contents := contents + [v];
      return true;
    }

    /** The result is the call's outcome: the popped element, or a refusal. */
    method Pop() returns (r: Call)
      requires Valid()
      modifies this, ring
      ensures Valid()
      ensures (r, contents) == PlainPop(old(contents))
      ensures if old(contents) == [] then r == Refused && contents == [] else [r.v] + contents == old(contents) && r.Popped?
    {
      if pushCursor - popCursor == 0 {
        return Refused;
      }
      Neighbours(ring.Length, popCursor, popCursor);
      NextLap(ring.Length, popCursor);
      hide Index;
      var cell := ring[popCursor % ring.Length];
      r := Popped(cell.v);
      ring[popCursor % ring.Length] := Blank;
      popCursor := popCursor + 1;
      contents := contents[1..];
    }
  }

  /** Within one capacity the tickets have different cells. */
  lemma Neighbours(n: nat, low: nat, k: nat)
    requires low <= k < low + n
    ensures Index(n, k) < n && Index(n, k) == k % n
    ensures forall l: nat :: low <= l < low + n && l != k ==> Index(n, l) != Index(n, k)
  {
    IndexBound(n, k);
    forall l: nat | low <= l < low + n && l != k ensures Index(n, l) != Index(n, k) {
      if Index(n, l) == Index(n, k) {
        if l < k { Apart(n, l, k); } else { Apart(n, k, l); }
      }
    }
  }

  // ---------------------------------------------------------------------------------------
  // The ring between two threads
  // ---------------------------------------------------------------------------------------

  datatype Producer = Idle | Start(v: Value) | Reload(v: Value) | Write(v: Value) | Store(v: Value) | Done(result: Call)

  datatype Consumer = Waiting | PopStart | PopReload | Read | Destroy(v: Value) | Release(v: Value) | Out(result: Call)

  datatype State = State(
    ring: seq<Cell>,
    pushCursor: nat,
    cachedPop: nat,
    popCursor: nat,
    cachedPush: nat,
    producer: Producer,
    consumer: Consumer,
    fault: bool,
    vals: seq<Value>)

  /** A step of the producer, which may begin a push, or of the consumer. */
  datatype Choice = BeginPush(v: Value) | BeginPop | Produce | Consume

  const PRODUCER: Tid := 0
  const CONSUMER: Tid := 1

  ghost predicate Init(s: State, capacity: nat) {
    s == State(seq(capacity, _ => Blank), 0, 0, 0, 0, Idle, Waiting, false, [])
  }

  ghost predicate Enabled(s: State, c: Choice) {
    match c
    case BeginPush(_) => s.producer == Idle
    case BeginPop => s.consumer == Waiting
    case Produce => s.producer != Idle
    case Consume => s.consumer != Waiting
  }

  predicate Full(s: State, popCursor: nat) {
    s.pushCursor - popCursor == |s.ring|
  }

  ghost function Next(s: State, c: Choice): State
    requires Enabled(s, c)
  {
    match c
    case BeginPush(v) => s.(producer := Start(v))
    case BeginPop => s.(consumer := PopStart)
    case Produce =>
      (match s.producer
       case Start(v) => s.(producer := if Full(s, s.cachedPop) then Reload(v) else Write(v))
       case Reload(v) => s.(cachedPop := s.popCursor, producer := if Full(s, s.popCursor) then Done(Refused) else Write(v))
       case Write(v) => Construct(s, v)
       case Store(v) => s.(pushCursor := s.pushCursor + 1, producer := Done(Pushed))
       case _ => s.(producer := Idle))
    case Consume =>
      match s.consumer
      case PopStart => s.(consumer := if s.cachedPush == s.popCursor then PopReload else Read)
      case PopReload => s.(cachedPush := s.pushCursor, consumer := if s.pushCursor == s.popCursor then Out(Refused) else Read)
      case Read => if CellAt(s.ring, s.popCursor).Holds? then s.(consumer := Destroy(CellAt(s.ring, s.popCursor).v)) else s.(fault := true)
      case Destroy(v) => Destruct(s, v)
      case Release(v) => s.(popCursor := s.popCursor + 1, consumer := Out(Popped(v)))
      case _ => s.(consumer := Waiting)
  }

  function CellAt(ring: seq<Cell>, k: nat): Cell {
    if |ring| == 0 then Blank else ring[Index(|ring|, k)]
  }

  function WithCell(s: State, k: nat, cell: Cell): State {
    if |s.ring| == 0 then s.(fault := true) else s.(ring := s.ring[Index(|s.ring|, k) := cell])
  }

  ghost function Construct(s: State, v: Value): State {
    if CellAt(s.ring, s.pushCursor) != Blank then s.(fault := true)
    else WithCell(s, s.pushCursor, Holds(v)).(producer := Store(v), vals := s.vals + [v])
  }

  ghost function Destruct(s: State, v: Value): State {
    if CellAt(s.ring, s.popCursor) == Blank then s.(fault := true)
    else WithCell(s, s.popCursor, Blank).(consumer := Release(v))
  }

  // ---------------------------------------------------------------------------------------
  // The invariant
  // ---------------------------------------------------------------------------------------

  /** The oldest element still in the ring, and the end of the newest. */
  function Low(s: State): nat {
    if s.consumer.Release? then s.popCursor + 1 else s.popCursor
  }

  function High(s: State): nat {
    if s.producer.Store? then s.pushCursor + 1 else s.pushCursor
  }

  ghost predicate CellsOk(s: State)
    requires High(s) <= |s.vals|
  {
    forall k: nat :: Low(s) <= k < Low(s) + |s.ring| ==> CellAt(s.ring, k) == if k < High(s) then Holds(s.vals[k]) else Blank
  }

  ghost predicate Inv(s: State) {
    && !s.fault
    && s.cachedPop <= s.popCursor <= s.cachedPush <= s.pushCursor <= s.cachedPop + |s.ring|
    && |s.vals| == High(s)
    && CellsOk(s)
    && (match s.producer
        case Write(_) => s.pushCursor < s.cachedPop + |s.ring|
        case Store(v) => s.pushCursor < s.cachedPop + |s.ring| && s.vals[s.pushCursor] == v
        case Done(result) => !Pending(result)
        case _ => true)
    && (match s.consumer
        case Read => s.popCursor < s.cachedPush
        case Destroy(v) => s.popCursor < s.cachedPush && s.vals[s.popCursor] == v
        case Release(v) => s.popCursor < s.cachedPush && s.vals[s.popCursor] == v
        case Out(result) => !Pending(result)
        case _ => true)
  }

  /** Setting the cell of one ticket sets that of no other within one capacity. */
  lemma CellSet(ring: seq<Cell>, low: nat, p: nat, cell: Cell)
    requires low <= p < low + |ring|
    ensures Index(|ring|, p) < |ring|
    ensures forall k: nat :: low <= k < low + |ring| ==>
      CellAt(ring[Index(|ring|, p) := cell], k) == if k == p then cell else CellAt(ring, k)
  {
    Neighbours(|ring|, low, p);
    forall k: nat | low <= k < low + |ring|
      ensures CellAt(ring[Index(|ring|, p) := cell], k) == if k == p then cell else CellAt(ring, k)
    {
      IndexBound(|ring|, k);
      hide Index;
    }
  }

  lemma KeepConstruct(s: State, v: Value)
    requires Inv(s) && s.producer == Write(v)
    ensures Inv(Construct(s, v)) && CellAt(s.ring, s.pushCursor) == Blank
  {
    CellSet(s.ring, Low(s), s.pushCursor, Holds(v));
    hide Index, CellAt;
    var s' := Construct(s, v);
    assert CellAt(s.ring, s.pushCursor) == Blank;
    assert s'.ring == s.ring[Index(|s.ring|, s.pushCursor) := Holds(v)] && High(s') == High(s) + 1 && s'.vals == s.vals + [v];
    forall k: nat | Low(s') <= k < Low(s') + |s'.ring| ensures CellAt(s'.ring, k) == if k < High(s') then Holds(s'.vals[k]) else Blank {
      assert k != s.pushCursor ==> CellAt(s'.ring, k) == CellAt(s.ring, k);
    }
  }

  lemma KeepDestruct(s: State, v: Value)
    requires Inv(s) && s.consumer == Destroy(v)
    ensures Inv(Destruct(s, v)) && CellAt(s.ring, s.popCursor) == Holds(v)
  {
    CellSet(s.ring, Low(s), s.popCursor, Blank);
    NextCell(Destruct(s, v).ring, s.popCursor);
    hide Index, CellAt;
    var s' := Destruct(s, v);
    assert s'.ring == s.ring[Index(|s.ring|, s.popCursor) := Blank];
    forall k: nat | Low(s') <= k < Low(s') + |s'.ring| ensures CellAt(s'.ring, k) == if k < High(s') then Holds(s'.vals[k]) else Blank {
      assert k != s.popCursor + |s.ring| ==> CellAt(s'.ring, k) == CellAt(s.ring, k);
    }
  }

  lemma NextCell(ring: seq<Cell>, k: nat)
    ensures CellAt(ring, k + |ring|) == CellAt(ring, k)
  {
    if |ring| > 0 { NextLap(|ring|, k); }
  }

  /** Every step keeps the order of the cursors and their copies; in particular a stale copy
      never leads to an overwrite or to an early read. */
  lemma Preservation(s: State, c: Choice)
    requires Inv(s) && Enabled(s, c)
    ensures Inv(Next(s, c))
  {
    hide Index, CellAt;
    match c
    case BeginPush(v) => { }
    case BeginPop => { }
    case Produce =>
      match s.producer {
        case Write(v) => KeepConstruct(s, v);
        case _ => { }
      }
    case Consume =>
      match s.consumer
      case Read => assert CellAt(s.ring, s.popCursor) == Holds(s.vals[s.popCursor]);
      case Destroy(v) => KeepDestruct(s, v);
      case _ => { }
  }

  /** The two threads are never on one cell together. */
  lemma NoRace(s: State)
    requires Inv(s) && s.producer.Write? && (s.consumer.Read? || s.consumer.Destroy?)
    ensures |s.ring| > 0 && Index(|s.ring|, s.pushCursor) != Index(|s.ring|, s.popCursor)
  {
    Neighbours(|s.ring|, s.popCursor, s.pushCursor);
  }

  // ---------------------------------------------------------------------------------------
  // Refinement
  // ---------------------------------------------------------------------------------------

  ghost function Queue(s: State): seq<Value> {
    if s.popCursor <= s.pushCursor <= |s.vals| then s.vals[s.popCursor..s.pushCursor] else []
  }

  ghost function PushCall(p: Producer): Call
    requires p != Idle
  {
    match p
    case Done(result) => result
    case Start(v) => Push(v)
    case Reload(v) => Push(v)
    case Write(v) => Push(v)
    case Store(v) => Push(v)
  }

  ghost function PopCall(c: Consumer): Call {
    if c.Out? then c.result else Pop
  }

  ghost function Abs(s: State): Spec {
    Spec(|s.ring|, Queue(s),
         (if s.producer == Idle then map[] else map[PRODUCER := PushCall(s.producer)])
         + (if s.consumer == Waiting then map[] else map[CONSUMER := PopCall(s.consumer)]))
  }

  function ThreadOf(c: Choice): Tid {
    if c.BeginPush? || c.Produce? then PRODUCER else CONSUMER
  }

  /** A push takes effect when it stores its cursor, a pop when it stores its own; a refused
      call when it reloads the other's. */
  ghost function ActionOf(s: State, c: Choice): Action {
    match c
    case BeginPush(v) => Begin(Push(v))
    case BeginPop => Begin(Pop)
    case Produce =>
      (match s.producer
       case Reload(_) => if Full(s, s.popCursor) then Refuse else Stutter
       case Store(_) => Commit
       case Done(_) => End
       case _ => Stutter)
    case Consume =>
      match s.consumer
      case PopReload => if s.pushCursor == s.popCursor then Refuse else Stutter
      case Release(_) => Commit
      case Out(_) => End
      case _ => Stutter
  }

  /** Every step of Fifo4 is the matching step of the atomic queue. */
  lemma Refinement(s: State, c: Choice)
    requires Inv(s) && Enabled(s, c)
    ensures SpecEnabled(Abs(s), ThreadOf(c), ActionOf(s, c))
    ensures Abs(Next(s, c)) == SpecNext(Abs(s), ThreadOf(c), ActionOf(s, c))
  {
    hide Index, CellAt, Inv;
    Preservation(s, c);
    match c
    case BeginPush(v) => { }
    case BeginPop => { }
    case Produce => RefineProduce(s);
    case Consume => RefineConsume(s);
  }

  lemma RefineProduce(s: State)
    requires Inv(s) && s.producer != Idle
    ensures SpecEnabled(Abs(s), PRODUCER, ActionOf(s, Produce))
    ensures Abs(Next(s, Produce)) == SpecNext(Abs(s), PRODUCER, ActionOf(s, Produce))
  {
    hide Index, CellAt, CellsOk;
    match s.producer
    case Write(v) => RefineWrite(s, v);
    case Store(v) => assert s.vals[s.popCursor..s.pushCursor + 1] == Queue(s) + [v];
    case _ => { }
  }

  lemma RefineWrite(s: State, v: Value)
    requires Inv(s) && s.producer == Write(v)
    ensures Abs(Construct(s, v)) == Abs(s)
  {
    KeepConstruct(s, v);
    hide Index, CellAt, CellsOk;
    assert Queue(Construct(s, v)) == Queue(s);
  }

  lemma RefineConsume(s: State)
    requires Inv(s) && s.consumer != Waiting
    ensures SpecEnabled(Abs(s), CONSUMER, ActionOf(s, Consume))
    ensures Abs(Next(s, Consume)) == SpecNext(Abs(s), CONSUMER, ActionOf(s, Consume))
  {
    Preservation(s, Consume);
    hide Index, CellAt, CellsOk;
    match s.consumer
    case Destroy(v) => RefineDestroy(s, v);
    case Release(v) => assert s.vals[s.popCursor + 1..s.pushCursor] == Queue(s)[1..];
    case _ => { }
  }

  lemma RefineDestroy(s: State, v: Value)
    requires Inv(s) && s.consumer == Destroy(v)
    ensures Abs(Destruct(s, v)) == Abs(s)
  {
    KeepDestruct(s, v);
    hide Index, CellAt, CellsOk;
    assert Queue(Destruct(s, v)) == Queue(s);
  }

  /** At that step the outcome and the queue are those of the plain ring: in particular a
      push is refused only at a moment when the queue is full, and a pop when it is empty. */
  lemma LikePlain(s: State, c: Choice)
    requires Inv(s) && Enabled(s, c) && (ActionOf(s, c).Commit? || ActionOf(s, c).Refuse?)
    ensures
      var s' := Next(s, c);
      if c.Produce? then s'.producer.Done? && (s'.producer.result, Queue(s')) == PlainPush(|s.ring|, Queue(s), PushCall(s.producer).v)
      else s'.consumer.Out? && (s'.consumer.result, Queue(s')) == PlainPop(Queue(s))
    ensures
      var s', q, q' := Next(s, c), Queue(s), Queue(Next(s, c));
      if c.Produce? then s'.producer == Done(if |q| < |s.ring| then Pushed else Refused) && q' == if |q| < |s.ring| then q + [PushCall(s.producer).v] else q
      else s'.consumer == Out(if q != [] then Popped(q[0]) else Refused) && q' == if q != [] then q[1..] else q
  {
    hide Index, CellAt, CellsOk;
    match c
    case Produce =>
      if s.producer.Store? { assert s.vals[s.popCursor..s.pushCursor + 1] == Queue(s) + [s.producer.v]; }
    case Consume => { }
  }

  // ---------------------------------------------------------------------------------------
  // Runs
  // ---------------------------------------------------------------------------------------

  ghost predicate Run(capacity: nat, states: seq<State>, how: seq<Choice>) {
    && |states| == |how| + 1 && Init(states[0], capacity)
    && forall i :: 0 <= i < |how| ==> Enabled(states[i], how[i]) && states[i + 1] == Next(states[i], how[i])
  }

  lemma {:induction false} RunKeeps(capacity: nat, states: seq<State>, how: seq<Choice>, i: nat)
    requires Run(capacity, states, how) && i <= |how|
    ensures Inv(states[i])
  {
    hide Inv, Next, Enabled;
    if i == 0 {
      InitHolds(states[0], capacity);
    } else {
      RunKeeps(capacity, states, how, i - 1);
      assert Enabled(states[i - 1], how[i - 1]) && states[i - 1 + 1] == Next(states[i - 1], how[i - 1]);
      Preservation(states[i - 1], how[i - 1]);
    }
  }

  lemma InitHolds(s: State, capacity: nat)
    requires Init(s, capacity)
    ensures Inv(s)
  {
    forall k: nat | k < |s.ring| ensures CellAt(s.ring, k) == Blank { IndexBound(|s.ring|, k); }
  }

  ghost function Trace(states: seq<State>): seq<Spec> {
    seq(|states|, i requires 0 <= i < |states| => Abs(states[i]))
  }

  ghost function Actions(states: seq<State>, how: seq<Choice>): seq<Action>
    requires |how| <= |states|
  {
    seq(|how|, i requires 0 <= i < |how| => ActionOf(states[i], how[i]))
  }

  function Threads(how: seq<Choice>): seq<Tid> {
    seq(|how|, i requires 0 <= i < |how| => ThreadOf(how[i]))
  }

  /** Every run of Fifo4 is a run of the atomic queue, so its elements come out in the order
      in which they went in, each once. */
  lemma Linearizable(capacity: nat, states: seq<State>, how: seq<Choice>)
    requires Run(capacity, states, how)
    ensures SpecRun(Trace(states), Threads(how), Actions(states, how))
    ensures AllIn(Trace(states), Threads(how), Actions(states, how), |how|)
      == AllOut(Trace(states), Threads(how), Actions(states, how), |how|) + Queue(states[|how|])
  {
    var specs, who, what := Trace(states), Threads(how), Actions(states, how);
    assert specs[0].queue == [] && specs[0].calls == map[];
    forall i | 0 <= i < |who|
      ensures SpecEnabled(specs[i], who[i], what[i]) && specs[i + 1] == SpecNext(specs[i], who[i], what[i])
    {
      hide Inv, Next, Enabled, ActionOf, SpecNext, SpecEnabled, Abs;
      RunKeeps(capacity, states, how, i);
      assert Enabled(states[i], how[i]) && states[i + 1] == Next(states[i], how[i]);
      Refinement(states[i], how[i]);
    }
    hide SpecNext, SpecEnabled;
    FirstInFirstOut(specs, who, what, |how|);
  }
}
