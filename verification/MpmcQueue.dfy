/** The bounded multi-producer multi-consumer queue with two tickets per slot.

    The machine takes one step per atomic access and per access to a slot's data, for any
    number of threads; tickets are unbounded.  The construction of an element in a slot that
    holds one, and the reading or destruction of one in a slot that holds none, raise
    `fault`.  `vals`, `pushers` and `poppers` record, by ticket, the value claimed for and
    the threads that claimed it; no thread reads them. */
module MpmcQueue {
  import opened AtomicFifo
  import opened RingIndex

  datatype Cell = Blank | Holds(v: Value)

  /** `tail` is the ticket a push must carry, `head` the one a pop must carry. */
  datatype Slot = Slot(data: Cell, tail: Ticket, head: int)

  datatype Thread =
    | PushStart(v: Value)
    | PushCheck(v: Value, t: Ticket)
    | PushCas(v: Value, t: Ticket)
    | PushWrite(v: Value, t: Ticket)
    | PushPublish(t: Ticket)
    | PopStart
    | PopCheck(h: Ticket)
    | PopCas(h: Ticket)
    | PopRead(h: Ticket)
    | PopDestroy(h: Ticket, v: Value)
    | PopPublish(h: Ticket, v: Value)
    | Returning(result: Call)

  datatype State = State(
    tail: Ticket,
    head: Ticket,
    slots: seq<Slot>,
    threads: map<Tid, Thread>,
    fault: bool,
    vals: seq<Value>,
    pushers: seq<Tid>,
    poppers: seq<Tid>)

  datatype Choice = BeginPush(v: Value) | BeginPop | Continue(spurious: bool)

  ghost predicate Init(s: State, capacity: nat) {
    && capacity > 0
    && s == State(0, 0, seq(capacity, i requires 0 <= i < capacity => Slot(Blank, i, -1)), map[], false, [], [], [])
  }

  ghost predicate Enabled(s: State, t: Tid, c: Choice) {
    |s.slots| > 0 && if c.Continue? then t in s.threads else t !in s.threads
  }

  function At(s: State, t: Tid, th: Thread): State {
    s.(threads := s.threads[t := th])
  }

  function SlotAt(s: State, k: Ticket): Slot
    requires |s.slots| > 0
  {
    s.slots[Index(|s.slots|, k)]
  }

  function WithSlot(s: State, k: Ticket, slot: Slot): State
    requires |s.slots| > 0
  {
    s.(slots := s.slots[Index(|s.slots|, k) := slot])
  }

  /** One step of thread `t`. */
  ghost function Next(s: State, t: Tid, c: Choice): State
    requires Enabled(s, t, c)
  {
    match c
    case BeginPush(v) => At(s, t, PushStart(v))
    case BeginPop => At(s, t, PopStart)
    case Continue(spurious) =>
      match s.threads[t]
      case PushStart(v) => At(s, t, PushCheck(v, s.tail))
      case PushCheck(v, k) => At(s, t, if SlotAt(s, k).tail != k then Returning(Refused) else PushCas(v, k))
      case PushCas(v, k) => if s.tail == k && !spurious then ClaimPush(s, t, v, k) else At(s, t, PushCheck(v, s.tail))
      case PushWrite(v, k) => Construct(s, t, v, k)
      case PushPublish(k) => At(WithSlot(s, k, SlotAt(s, k).(head := k)), t, Returning(Pushed))
      case PopStart => At(s, t, PopCheck(s.head))
      case PopCheck(h) => At(s, t, if SlotAt(s, h).head != h then Returning(Refused) else PopCas(h))
      case PopCas(h) => if s.head == h && !spurious then ClaimPop(s, t, h) else At(s, t, PopCheck(s.head))
      case PopRead(h) => ReadData(s, t, h)
      case PopDestroy(h, v) => Destroy(s, t, h, v)
      case PopPublish(h, v) => At(WithSlot(s, h, SlotAt(s, h).(tail := h + |s.slots|)), t, Returning(Popped(v)))
      case Returning(_) => s.(threads := s.threads - {t})
  }

  ghost function ClaimPush(s: State, t: Tid, v: Value, k: Ticket): State {
    At(s.(tail := k + 1, vals := s.vals + [v], pushers := s.pushers + [t]), t, PushWrite(v, k))
  }

  ghost function Construct(s: State, t: Tid, v: Value, k: Ticket): State
    requires |s.slots| > 0
  {
    if SlotAt(s, k).data != Blank then s.(fault := true)
    else At(WithSlot(s, k, SlotAt(s, k).(data := Holds(v))), t, PushPublish(k))
  }

  ghost function ClaimPop(s: State, t: Tid, h: Ticket): State {
    At(s.(head := h + 1, poppers := s.poppers + [t]), t, PopRead(h))
  }

  ghost function ReadData(s: State, t: Tid, h: Ticket): State
    requires |s.slots| > 0
  {
    if SlotAt(s, h).data.Blank? then s.(fault := true) else At(s, t, PopDestroy(h, SlotAt(s, h).data.v))
  }

  ghost function Destroy(s: State, t: Tid, h: Ticket, v: Value): State
    requires |s.slots| > 0
  {
    if SlotAt(s, h).data.Blank? then s.(fault := true)
    else At(WithSlot(s, h, SlotAt(s, h).(data := Blank)), t, PopPublish(h, v))
  }

  // ---------------------------------------------------------------------------------------
  // The invariant
  // ---------------------------------------------------------------------------------------

  /** Where slot `i` stands: its tail ticket `k` is to be pushed, being pushed, to be popped,
      or being popped, and the data is there exactly when it should be. */
  ghost predicate SlotLaw(s: State, i: nat)
    requires i < |s.slots| && |s.vals| == s.tail == |s.pushers| && |s.poppers| == s.head
  {
    var slot, n := s.slots[i], |s.slots|;
    var k := slot.tail;
    && Index(n, k) == i && s.tail <= k + n && (k >= n ==> k - n < s.head) && slot.head <= k
    && (if slot.head != k then
          && s.head <= k
          && (if k >= s.tail then slot.data == Blank
              else Pushing(s.threads, s.pushers[k], s.vals[k], k, slot.data))
        else
          && k < s.tail
          && (if k >= s.head then slot.data == Holds(s.vals[k])
              else Popping(s.threads, s.poppers[k], s.vals[k], k, slot.data)))
  }

  predicate Pushing(threads: map<Tid, Thread>, t: Tid, v: Value, k: Ticket, data: Cell) {
    t in threads && ((threads[t] == PushWrite(v, k) && data == Blank) || (threads[t] == PushPublish(k) && data == Holds(v)))
  }

  predicate Popping(threads: map<Tid, Thread>, t: Tid, v: Value, k: Ticket, data: Cell) {
    t in threads && (((threads[t] == PopRead(k) || threads[t] == PopDestroy(k, v)) && data == Holds(v))
                     || (threads[t] == PopPublish(k, v) && data == Blank))
  }

  ghost predicate PushOwner(s: State, t: Tid, k: Ticket)
    requires |s.slots| > 0 && |s.vals| == s.tail == |s.pushers|
  {
    k < s.tail && SlotAt(s, k).tail == k && SlotAt(s, k).head != k && s.pushers[k] == t
  }

  ghost predicate PopOwner(s: State, t: Tid, k: Ticket)
    requires |s.slots| > 0 && |s.poppers| == s.head
  {
    k < s.head && SlotAt(s, k).tail == k && SlotAt(s, k).head == k && s.poppers[k] == t
  }

  ghost predicate ThreadLaw(s: State, t: Tid)
    requires t in s.threads && |s.slots| > 0 && |s.vals| == s.tail == |s.pushers| && |s.poppers| == s.head
  {
    match s.threads[t]
    case PushCheck(v, k) => k <= s.tail
    case PushCas(v, k) => k <= s.tail && (k == s.tail ==> SlotAt(s, k).tail == k)
    case PushWrite(v, k) => PushOwner(s, t, k)
    case PushPublish(k) => PushOwner(s, t, k)
    case PopCheck(h) => h <= s.head
    case PopCas(h) => h <= s.head && (h == s.head ==> SlotAt(s, h).head == h)
    case PopRead(h) => PopOwner(s, t, h)
    case PopDestroy(h, _) => PopOwner(s, t, h)
    case PopPublish(h, _) => PopOwner(s, t, h)
    case Returning(result) => !Pending(result)
    case _ => true
  }

  ghost predicate Inv(s: State) {
    && !s.fault && |s.slots| > 0
    && |s.vals| == s.tail == |s.pushers| && |s.poppers| == s.head
    && s.head <= s.tail <= s.head + |s.slots|
    && (forall i :: 0 <= i < |s.slots| ==> SlotLaw(s, i))
    && (forall t :: t in s.threads ==> ThreadLaw(s, t))
  }

  lemma InvAt(s: State, t: Tid, k: Ticket)
    requires Inv(s)
    ensures !s.fault && |s.slots| > 0 && |s.vals| == s.tail == |s.pushers| && |s.poppers| == s.head
    ensures s.head <= s.tail <= s.head + |s.slots|
    ensures t in s.threads ==> ThreadLaw(s, t)
    ensures Index(|s.slots|, k) < |s.slots| && SlotLaw(s, Index(|s.slots|, k))
  {
    IndexBound(|s.slots|, k);
  }

  // ---------------------------------------------------------------------------------------
  // Preservation
  // ---------------------------------------------------------------------------------------

  /** Thread `t` moves from `th` to `th'` without owning a slot before or after. */
  predicate Unowning(th: Thread) {
    th.PushStart? || th.PushCheck? || th.PushCas? || th.PopStart? || th.PopCheck? || th.PopCas? || th.Returning?
  }

  /** The law of a slot, as far as threads and tickets matter to it. */
  lemma SlotFrame(s: State, s': State, i: nat, t: Tid)
    requires Inv(s) && i < |s.slots| && s'.slots == s.slots && s'.vals == s.vals && s'.pushers == s.pushers && s'.poppers == s.poppers
    requires s'.tail == s.tail && s'.head == s.head
    requires forall u :: u in s.threads && u != t ==> u in s'.threads && s'.threads[u] == s.threads[u]
    requires t in s.threads ==> Unowning(s.threads[t])
    ensures SlotLaw(s', i)
  {
    hide Index;
    assert SlotLaw(s, i);
  }

  /** A step that only moves thread `t`, which owns no slot. */
  lemma KeepMove(s: State, t: Tid, th: Thread)
    requires Inv(s) && (t in s.threads ==> Unowning(s.threads[t]))
    requires ThreadLaw(At(s, t, th), t)
    ensures Inv(At(s, t, th))
  {
    hide SlotLaw, Index;
    var s' := At(s, t, th);
    forall i | 0 <= i < |s'.slots| ensures SlotLaw(s', i) { SlotFrame(s, s', i, t); }
    forall u | u in s'.threads ensures ThreadLaw(s', u) { if u != t { assert ThreadLaw(s, u); } }
  }

  lemma KeepReturn(s: State, t: Tid)
    requires Inv(s) && t in s.threads && s.threads[t].Returning?
    ensures Inv(s.(threads := s.threads - {t}))
  {
    hide SlotLaw, Index;
    var s' := s.(threads := s.threads - {t});
    forall i | 0 <= i < |s'.slots| ensures SlotLaw(s', i) { SlotFrame(s, s', i, t); }
    forall u | u in s'.threads ensures ThreadLaw(s', u) { assert ThreadLaw(s, u); }
  }

  /** The slot of the next push ticket is free, and the ticket is within the capacity. */
  lemma FreeSlot(s: State, k: Ticket)
    requires Inv(s) && k == s.tail && SlotAt(s, k).tail == k
    ensures SlotAt(s, k).head != k && SlotAt(s, k).data == Blank && s.tail < s.head + |s.slots|
  {
    InvAt(s, 0, k);
  }

  lemma KeepClaimPush(s: State, t: Tid, v: Value, k: Ticket)
    requires Inv(s) && t in s.threads && s.threads[t] == PushCas(v, k) && s.tail == k
    ensures Inv(ClaimPush(s, t, v, k))
  {
    var s' := ClaimPush(s, t, v, k);
    var n := |s.slots|;
    InvAt(s, t, k);
    FreeSlot(s, k);
    hide Index;
    forall i | 0 <= i < n ensures SlotLaw(s', i) {
      assert SlotLaw(s, i);
      var l := s.slots[i].tail;
      if s.tail == l + n { NextLap(n, l); }
    }
    forall u | u in s'.threads ensures ThreadLaw(s', u) { if u != t { assert ThreadLaw(s, u); } }
  }

  /** The slot of the next pop ticket, once its head ticket says so, holds that element. */
  lemma FullSlot(s: State, h: Ticket)
    requires Inv(s) && h == s.head && SlotAt(s, h).head == h
    ensures SlotAt(s, h).tail == h < s.tail && SlotAt(s, h).data == Holds(s.vals[h])
  {
    InvAt(s, 0, h);
    var n, k := |s.slots|, SlotAt(s, h).tail;
    if k != h { Apart(n, h, k); }
  }

  lemma KeepClaimPop(s: State, t: Tid, h: Ticket)
    requires Inv(s) && t in s.threads && s.threads[t] == PopCas(h) && s.head == h
    ensures Inv(ClaimPop(s, t, h))
  {
    var s' := ClaimPop(s, t, h);
    InvAt(s, t, h);
    FullSlot(s, h);
    hide Index;
    forall i | 0 <= i < |s.slots| ensures SlotLaw(s', i) { assert SlotLaw(s, i); }
    forall u | u in s'.threads ensures ThreadLaw(s', u) { if u != t { assert ThreadLaw(s, u); } }
  }

  /** The steps of an owner change its own slot only. */
  ghost predicate OwnStep(s: State, s': State, t: Tid, k: Ticket)
    requires |s.slots| > 0
  {
    && |s'.slots| == |s.slots| && !s'.fault
    && s'.vals == s.vals && s'.pushers == s.pushers && s'.poppers == s.poppers && s'.tail == s.tail && s'.head == s.head
    && t in s'.threads && s'.threads == s.threads[t := s'.threads[t]]
    && (forall i :: 0 <= i < |s.slots| && i != Index(|s.slots|, k) ==> s'.slots[i] == s.slots[i])
  }

  predicate OwnsTicket(th: Thread, k: Ticket) {
    match th
    case PushWrite(_, l) => l == k
    case PushPublish(l) => l == k
    case PopRead(l) => l == k
    case PopDestroy(l, _) => l == k
    case PopPublish(l, _) => l == k
    case _ => false
  }

  lemma KeepOwn(s: State, s': State, t: Tid, k: Ticket)
    requires Inv(s) && t in s.threads && OwnsTicket(s.threads[t], k) && OwnStep(s, s', t, k)
    requires SlotLaw(s', Index(|s.slots|, k)) && ThreadLaw(s', t)
    requires SlotAt(s', k).tail in {k, k + |s.slots|}
    requires SlotAt(s', k).tail != k ==> k < s.head
    requires SlotAt(s', k).head in {SlotAt(s, k).head, k}
    requires SlotAt(s', k) != SlotAt(s, k) ==> forall u :: u in s.threads && u != t ==> !OnSlot(s, s.threads[u], k)
    ensures Inv(s')
  {
    var n := |s.slots|;
    InvAt(s, t, k);
    forall i | 0 <= i < n && i != Index(n, k) ensures SlotLaw(s', i) {
      hide Index;
      assert SlotLaw(s, i);
      OwnsOne(s, t, k, i);
    }
    forall u | u in s'.threads && u != t ensures ThreadLaw(s', u) { KeepOther(s, s', t, k, u); }
  }

  /** A thread that owns a ticket is not the one in charge of another slot. */
  lemma OwnsOne(s: State, t: Tid, k: Ticket, i: nat)
    requires Inv(s) && t in s.threads && OwnsTicket(s.threads[t], k) && i < |s.slots| && i != Index(|s.slots|, k)
    ensures !OwnsTicket(s.threads[t], s.slots[i].tail)
  {
    assert SlotLaw(s, i);
  }

  /** Thread `th` is between its claim on the slot of ticket `k` and giving it back. */
  ghost predicate OnSlot(s: State, th: Thread, k: Ticket) {
    |s.slots| > 0 && exists l :: OwnsTicket(th, l) && Index(|s.slots|, l) == Index(|s.slots|, k)
  }

  lemma KeepOther(s: State, s': State, t: Tid, k: Ticket, u: Tid)
    requires Inv(s) && t in s.threads && u in s.threads && u != t && OwnsTicket(s.threads[t], k) && OwnStep(s, s', t, k)
    requires SlotAt(s', k).tail in {k, k + |s.slots|}
    requires SlotAt(s', k).tail != k ==> k < s.head
    requires SlotAt(s', k).head in {SlotAt(s, k).head, k}
    requires SlotAt(s', k) != SlotAt(s, k) ==> !OnSlot(s, s.threads[u], k)
    ensures ThreadLaw(s', u)
  {
    InvAt(s, u, k);
    InvAt(s, t, k);
    hide Index;
    match s.threads[u]
    case PushCas(v, l) => { }
    case PopCas(h) =>
      if h == s.head && Index(|s.slots|, h) == Index(|s.slots|, k) {
        FullSlot(s, h);
      }
    case PushWrite(v, l) => assert OwnsTicket(s.threads[u], l);
    case PushPublish(l) => assert OwnsTicket(s.threads[u], l);
    case PopRead(l) => assert OwnsTicket(s.threads[u], l);
    case PopDestroy(l, _) => assert OwnsTicket(s.threads[u], l);
    case PopPublish(l, _) => assert OwnsTicket(s.threads[u], l);
    case _ => { }
  }

  /** At most one thread at a time is on a slot: no two accesses to its data can meet. */
  lemma OneOnSlot(s: State, t: Tid, u: Tid, k: Ticket, l: Ticket)
    requires Inv(s) && t in s.threads && u in s.threads && OwnsTicket(s.threads[t], k) && OwnsTicket(s.threads[u], l)
    requires Index(|s.slots|, k) == Index(|s.slots|, l)
    ensures t == u && k == l
  {
    InvAt(s, t, k);
    InvAt(s, u, l);
    hide Index;
  }

  lemma AloneOnSlot(s: State, t: Tid, k: Ticket)
    requires Inv(s) && t in s.threads && OwnsTicket(s.threads[t], k)
    ensures forall u :: u in s.threads && u != t ==> !OnSlot(s, s.threads[u], k)
  {
    hide Inv, Index;
    forall u | u in s.threads && u != t ensures !OnSlot(s, s.threads[u], k) {
      if OnSlot(s, s.threads[u], k) {
        var l :| OwnsTicket(s.threads[u], l) && Index(|s.slots|, l) == Index(|s.slots|, k);
        OneOnSlot(s, t, u, k, l);
      }
    }
  }

  lemma KeepConstruct(s: State, t: Tid, v: Value, k: Ticket)
    requires Inv(s) && t in s.threads && s.threads[t] == PushWrite(v, k)
    ensures Inv(Construct(s, t, v, k)) && SlotAt(s, k).data == Blank
  {
    InvAt(s, t, k);
    AloneOnSlot(s, t, k);
    hide Inv, Index;
    KeepOwn(s, Construct(s, t, v, k), t, k);
  }

  lemma KeepPublishPush(s: State, t: Tid, k: Ticket)
    requires Inv(s) && t in s.threads && s.threads[t] == PushPublish(k)
    ensures Inv(At(WithSlot(s, k, SlotAt(s, k).(head := k)), t, Returning(Pushed)))
  {
    InvAt(s, t, k);
    AloneOnSlot(s, t, k);
    hide Inv, Index;
    KeepOwn(s, At(WithSlot(s, k, SlotAt(s, k).(head := k)), t, Returning(Pushed)), t, k);
  }

  lemma KeepReadData(s: State, t: Tid, h: Ticket)
    requires Inv(s) && t in s.threads && s.threads[t] == PopRead(h)
    ensures Inv(ReadData(s, t, h)) && SlotAt(s, h).data == Holds(s.vals[h])
  {
    InvAt(s, t, h);
    AloneOnSlot(s, t, h);
    hide Inv, Index;
    KeepOwn(s, ReadData(s, t, h), t, h);
  }

  lemma KeepDestroy(s: State, t: Tid, h: Ticket, v: Value)
    requires Inv(s) && t in s.threads && s.threads[t] == PopDestroy(h, v)
    ensures Inv(Destroy(s, t, h, v)) && SlotAt(s, h).data == Holds(v)
  {
    InvAt(s, t, h);
    AloneOnSlot(s, t, h);
    hide Inv, Index;
    KeepOwn(s, Destroy(s, t, h, v), t, h);
  }

  lemma KeepPublishPop(s: State, t: Tid, h: Ticket, v: Value)
    requires Inv(s) && t in s.threads && s.threads[t] == PopPublish(h, v)
    ensures Inv(At(WithSlot(s, h, SlotAt(s, h).(tail := h + |s.slots|)), t, Returning(Popped(v)))) && v == s.vals[h]
  {
    InvAt(s, t, h);
    AloneOnSlot(s, t, h);
    NextLap(|s.slots|, h);
    hide Inv, Index;
    KeepOwn(s, At(WithSlot(s, h, SlotAt(s, h).(tail := h + |s.slots|)), t, Returning(Popped(v))), t, h);
  }

  /** Every step keeps the invariant; in particular it raises no fault. */
  lemma Preservation(s: State, t: Tid, c: Choice)
    requires Inv(s) && Enabled(s, t, c)
    ensures Inv(Next(s, t, c))
  {
    hide Index, SlotLaw;
    match c
    case BeginPush(v) => KeepMove(s, t, PushStart(v));
    case BeginPop => KeepMove(s, t, PopStart);
    case Continue(spurious) =>
      assert ThreadLaw(s, t);
      match s.threads[t]
      case PushStart(v) => KeepMove(s, t, PushCheck(v, s.tail));
      case PushCheck(v, k) => KeepMove(s, t, if SlotAt(s, k).tail != k then Returning(Refused) else PushCas(v, k));
      case PushCas(v, k) => if s.tail == k && !spurious { KeepClaimPush(s, t, v, k); } else { KeepMove(s, t, PushCheck(v, s.tail)); }
      case PushWrite(v, k) => KeepConstruct(s, t, v, k);
      case PushPublish(k) => KeepPublishPush(s, t, k);
      case PopStart => KeepMove(s, t, PopCheck(s.head));
      case PopCheck(h) => KeepMove(s, t, if SlotAt(s, h).head != h then Returning(Refused) else PopCas(h));
      case PopCas(h) => if s.head == h && !spurious { KeepClaimPop(s, t, h); } else { KeepMove(s, t, PopCheck(s.head)); }
      case PopRead(h) => KeepReadData(s, t, h);
      case PopDestroy(h, v) => KeepDestroy(s, t, h, v);
      case PopPublish(h, v) => KeepPublishPop(s, t, h, v);
      case Returning(_) => KeepReturn(s, t);
  }

  // ---------------------------------------------------------------------------------------
  // Runs
  // ---------------------------------------------------------------------------------------

  ghost predicate Run(capacity: nat, states: seq<State>, who: seq<Tid>, how: seq<Choice>) {
    && |states| == |who| + 1 && |who| == |how|
    && Init(states[0], capacity)
    && forall i :: 0 <= i < |who| ==> Enabled(states[i], who[i], how[i]) && states[i + 1] == Next(states[i], who[i], how[i])
  }

  lemma InitHolds(s: State, capacity: nat)
    requires Init(s, capacity)
    ensures Inv(s)
  {
    forall i | 0 <= i < capacity ensures SlotLaw(s, i) {
      IndexBound(capacity, i);
      hide Index;
    }
  }

  lemma {:induction false} RunKeeps(capacity: nat, states: seq<State>, who: seq<Tid>, how: seq<Choice>, i: nat)
    requires Run(capacity, states, who, how) && i <= |who|
    ensures Inv(states[i]) && |states[i].slots| == capacity
  {
    hide Inv, Next, Enabled, Init;
    if i == 0 {
      InitHolds(states[0], capacity);
      InitSize(states[0], capacity);
    } else {
      RunKeeps(capacity, states, who, how, i - 1);
      assert Enabled(states[i - 1], who[i - 1], how[i - 1]) && states[i - 1 + 1] == Next(states[i - 1], who[i - 1], how[i - 1]);
      Preservation(states[i - 1], who[i - 1], how[i - 1]);
      SameSize(states[i - 1], who[i - 1], how[i - 1]);
    }
  }

  lemma SameSize(s: State, t: Tid, c: Choice)
    requires Enabled(s, t, c)
    ensures |Next(s, t, c).slots| == |s.slots|
  {
  }

  lemma InitSize(s: State, capacity: nat)
    requires Init(s, capacity)
    ensures |s.slots| == capacity
  {
  }

  /** In every run and at every moment: no element is constructed over another, or read or
      destroyed where there is none; the claimed tickets span at most the capacity; and no
      two threads are on one slot together. */
  lemma NoRace(capacity: nat, states: seq<State>, who: seq<Tid>, how: seq<Choice>, i: nat)
    requires Run(capacity, states, who, how) && i <= |who|
    ensures !states[i].fault && states[i].head <= states[i].tail <= states[i].head + capacity
    ensures Exclusive(states[i])
  {
    hide Next, Enabled, Init, SlotLaw, ThreadLaw;
    RunKeeps(capacity, states, who, how, i);
    var s := states[i];
    forall t, u, k: Ticket, l: Ticket | BothOnSlot(s, t, u, k, l) ensures t == u && k == l { OneOnSlot(s, t, u, k, l); }
  }

  /** Threads `t` and `u` are between their claims and their releases on one slot. */
  predicate BothOnSlot(s: State, t: Tid, u: Tid, k: Ticket, l: Ticket) {
    && t in s.threads && u in s.threads && OwnsTicket(s.threads[t], k) && OwnsTicket(s.threads[u], l)
    && |s.slots| > 0 && Index(|s.slots|, k) == Index(|s.slots|, l)
  }

  ghost predicate Exclusive(s: State) {
    forall t, u, k: Ticket, l: Ticket :: BothOnSlot(s, t, u, k, l) ==> t == u && k == l
  }

  /** A refused push found its ticket already claimed by another push, or the queue full, or a
      pop that has claimed the slot's last element and not yet given the slot back. */
  lemma PushRefusal(s: State, t: Tid, v: Value, k: Ticket)
    requires Inv(s) && t in s.threads && s.threads[t] == PushCheck(v, k) && SlotAt(s, k).tail != k
    ensures
      || k < s.tail
      || s.tail == s.head + |s.slots|
      || (k >= |s.slots| && k - |s.slots| < s.head
          && exists u :: u in s.threads && (s.threads[u].PopRead? || s.threads[u].PopDestroy? || s.threads[u].PopPublish?) && OwnsTicket(s.threads[u], k - |s.slots|))
  {
    InvAt(s, t, k);
    var n, l := |s.slots|, SlotAt(s, k).tail;
    if k == s.tail {
      if l < k { Apart(n, l, k); } else { Apart(n, k, l); }
      hide Index;
      if l < s.head { assert OwnsTicket(s.threads[s.poppers[l]], k - n); }
    }
  }

  /** A refused pop found its ticket already claimed by another pop, or the queue empty, or a
      push that has claimed the ticket and not yet published its element. */
  lemma PopRefusal(s: State, t: Tid, h: Ticket)
    requires Inv(s) && t in s.threads && s.threads[t] == PopCheck(h) && SlotAt(s, h).head != h
    ensures
      || h < s.head
      || s.head == s.tail
      || exists u :: u in s.threads && (s.threads[u].PushWrite? || s.threads[u].PushPublish?) && OwnsTicket(s.threads[u], h)
  {
    InvAt(s, t, h);
    var n, k := |s.slots|, SlotAt(s, h).tail;
    if h == s.head {
      if k < h { Apart(n, k, h); } else if h < k { Apart(n, h, k); }
      hide Index;
      if h < s.tail { assert OwnsTicket(s.threads[s.pushers[h]], h); }
    }
  }

  /** A pop with this ticket is between its claim and its release of the slot. */
  ghost predicate StillPopping(s: State, k: int) {
    exists u :: u in s.threads && (s.threads[u].PopRead? || s.threads[u].PopDestroy? || s.threads[u].PopPublish?) && s.threads[u].h == k
  }

  /** A push with this ticket is between its claim and its release of the slot. */
  ghost predicate StillPushing(s: State, k: int) {
    exists u :: u in s.threads && (s.threads[u].PushWrite? || s.threads[u].PushPublish?) && s.threads[u].t == k
  }

  lemma StepOf(capacity: nat, states: seq<State>, who: seq<Tid>, how: seq<Choice>, i: nat)
    requires Run(capacity, states, who, how) && i < |who|
    ensures |states| == |who| + 1 == |how| + 1 && Inv(states[i]) && |states[i].slots| == capacity
    ensures Enabled(states[i], who[i], how[i]) && states[i + 1] == Next(states[i], who[i], how[i])
  {
    hide Inv, Next, Enabled, Init;
    RunKeeps(capacity, states, who, how, i);
  }

  /** In every run: a push that carries the ticket next to be claimed is refused exactly if the
      queue is full, or the pop of the element before it in its slot is not finished. */
  lemma PushVerdict(capacity: nat, states: seq<State>, who: seq<Tid>, how: seq<Choice>, i: nat, v: Value, k: Ticket)
    requires Run(capacity, states, who, how) && i < |who|
    requires who[i] in states[i].threads && states[i].threads[who[i]] == PushCheck(v, k)
    ensures who[i] in states[i + 1].threads && states[i + 1].threads[who[i]] in {PushCas(v, k), Returning(Refused)}
    ensures k == states[i].tail ==>
      (states[i + 1].threads[who[i]] == Returning(Refused) <==>
        states[i].tail == states[i].head + capacity || StillPopping(states[i], k - capacity))
  {
    hide Inv, Run, SlotAt, StillPopping;
    StepOf(capacity, states, who, how, i);
    InvAt(states[i], who[i], k);
    if k == states[i].tail { PushExactly(states[i], who[i], v, k); }
  }

  lemma PushExactly(s: State, t: Tid, v: Value, k: Ticket)
    requires Inv(s) && t in s.threads && s.threads[t] == PushCheck(v, k) && k == s.tail
    ensures SlotAt(s, k).tail != k <==> s.tail == s.head + |s.slots| || StillPopping(s, k - |s.slots|)
  {
    hide SlotLaw, Index;
    InvAt(s, t, k);
    if SlotAt(s, k).tail != k { PushRefusal(s, t, v, k); } else { FreeSlot(s, k); }
    if StillPopping(s, k - |s.slots|) {
      var u :| u in s.threads && (s.threads[u].PopRead? || s.threads[u].PopDestroy? || s.threads[u].PopPublish?) && s.threads[u].h == k - |s.slots|;
      InvAt(s, u, k);
      NextLap(|s.slots|, k - |s.slots|);
    }
  }

  /** A pop that carries the ticket next to be claimed is refused exactly if the queue is empty,
      or the push of that ticket is not finished. */
  lemma PopVerdict(capacity: nat, states: seq<State>, who: seq<Tid>, how: seq<Choice>, i: nat, h: Ticket)
    requires Run(capacity, states, who, how) && i < |who|
    requires who[i] in states[i].threads && states[i].threads[who[i]] == PopCheck(h)
    ensures who[i] in states[i + 1].threads && states[i + 1].threads[who[i]] in {PopCas(h), Returning(Refused)}
    ensures h == states[i].head ==>
      (states[i + 1].threads[who[i]] == Returning(Refused) <==> states[i].head == states[i].tail || StillPushing(states[i], h))
  {
    hide Inv, Run, SlotAt, StillPushing;
    StepOf(capacity, states, who, how, i);
    InvAt(states[i], who[i], h);
    if h == states[i].head { PopExactly(states[i], who[i], h); }
  }

  lemma PopExactly(s: State, t: Tid, h: Ticket)
    requires Inv(s) && t in s.threads && s.threads[t] == PopCheck(h) && h == s.head
    ensures SlotAt(s, h).head != h <==> s.head == s.tail || StillPushing(s, h)
  {
    hide SlotLaw, Index;
    InvAt(s, t, h);
    if SlotAt(s, h).head != h { PopRefusal(s, t, h); } else { FullSlot(s, h); }
    if StillPushing(s, h) {
      var u :| u in s.threads && (s.threads[u].PushWrite? || s.threads[u].PushPublish?) && s.threads[u].t == h;
      InvAt(s, u, h);
    }
  }

  /** A claim goes through exactly if the cursor still stands at the ticket, or, being weak,
      fails for no reason; after a failure the thread goes on with the ticket it found. */
  lemma ClaimVerdict(capacity: nat, states: seq<State>, who: seq<Tid>, how: seq<Choice>, i: nat)
    requires Run(capacity, states, who, how) && i < |who| && who[i] in states[i].threads && how[i].Continue?
    requires states[i].threads[who[i]].PushCas? || states[i].threads[who[i]].PopCas?
    ensures who[i] in states[i + 1].threads
    ensures
      var s, s', th := states[i], states[i + 1], states[i].threads[who[i]];
      s'.threads[who[i]] ==
        if th.PushCas? then (if s.tail == th.t && !how[i].spurious then PushWrite(th.v, th.t) else PushCheck(th.v, s.tail))
        else (if s.head == th.h && !how[i].spurious then PopRead(th.h) else PopCheck(s.head))
  {
    hide Inv, Run;
    StepOf(capacity, states, who, how, i);
  }

  // ---------------------------------------------------------------------------------------
  // Refinement of the atomic queue
  // ---------------------------------------------------------------------------------------

  ghost function CallOf(s: State, th: Thread): Call {
    match th
    case PushStart(v) => Push(v)
    case PushCheck(v, _) => Push(v)
    case PushCas(v, _) => Push(v)
    case PushWrite(_, _) => Pushed
    case PushPublish(_) => Pushed
    case PopRead(h) => if h < |s.vals| then Popped(s.vals[h]) else Refused
    case PopDestroy(_, v) => Popped(v)
    case PopPublish(_, v) => Popped(v)
    case Returning(result) => result
    case _ => Pop
  }

  ghost function Queue(s: State): seq<Value> {
    if s.head <= s.tail <= |s.vals| then s.vals[s.head..s.tail] else []
  }

  ghost function Abs(s: State): Spec {
    Spec(|s.slots|, Queue(s), map t | t in s.threads :: CallOf(s, s.threads[t]))
  }

  /** A push takes effect when it claims its ticket, and a pop when it claims its. */
  ghost function ActionOf(s: State, t: Tid, c: Choice): Action
    requires Enabled(s, t, c)
  {
    match c
    case BeginPush(v) => Begin(Push(v))
    case BeginPop => Begin(Pop)
    case Continue(spurious) =>
      match s.threads[t]
      case PushCheck(_, k) => if SlotAt(s, k).tail != k then Refuse else Stutter
      case PopCheck(h) => if SlotAt(s, h).head != h then Refuse else Stutter
      case PushCas(_, k) => if s.tail == k && !spurious then Commit else Stutter
      case PopCas(h) => if s.head == h && !spurious then Commit else Stutter
      case Returning(_) => End
      case _ => Stutter
  }

  /** Every step is the matching step of the atomic queue; so each call that is not refused
      takes effect once, a pop returns the oldest element, and that is the element pushed
      under its ticket. */
  lemma Refinement(s: State, t: Tid, c: Choice)
    requires Inv(s) && Enabled(s, t, c)
    ensures SpecEnabled(Abs(s), t, ActionOf(s, t, c))
    ensures Abs(Next(s, t, c)) == SpecNext(Abs(s), t, ActionOf(s, t, c))
  {
    hide Inv, Index, SlotLaw;
    InvAt(s, t, 0);
    SameSize(s, t, c);
    match c
    case BeginPush(v) => RefineMove(s, t, PushStart(v));
    case BeginPop => RefineMove(s, t, PopStart);
    case Continue(spurious) =>
      hide Next, Abs, ActionOf;
      match s.threads[t]
      case PushStart(v) => RefinePush(s, t, c);
      case PushCheck(v, k) => RefinePush(s, t, c);
      case PushCas(v, k) => RefinePush(s, t, c);
      case PopStart => RefinePop(s, t, c);
      case PopCheck(h) => RefinePop(s, t, c);
      case PopCas(h) => RefinePop(s, t, c);
      case Returning(_) => RefineReturn(s, t, c);
      case _ => RefineOwn(s, t, c); OwnQuiet(s, t, c);
  }

  lemma OwnQuiet(s: State, t: Tid, c: Choice)
    requires Enabled(s, t, c) && c.Continue?
    requires var th := s.threads[t]; th.PushWrite? || th.PushPublish? || th.PopRead? || th.PopDestroy? || th.PopPublish?
    ensures ActionOf(s, t, c) == Stutter
  {
  }

  lemma RefinePush(s: State, t: Tid, c: Choice)
    requires Inv(s) && Enabled(s, t, c) && c.Continue?
    requires var th := s.threads[t]; th.PushStart? || th.PushCheck? || th.PushCas?
    ensures SpecEnabled(Abs(s), t, ActionOf(s, t, c))
    ensures Abs(Next(s, t, c)) == SpecNext(Abs(s), t, ActionOf(s, t, c))
  {
    hide Inv, Index, SlotLaw;
    match s.threads[t]
    case PushStart(v) => RefineMove(s, t, PushCheck(v, s.tail));
    case PushCheck(v, k) => RefineMove(s, t, if SlotAt(s, k).tail != k then Returning(Refused) else PushCas(v, k));
    case PushCas(v, k) => if s.tail == k && !c.spurious { RefineClaimPush(s, t, v, k); } else { RefineMove(s, t, PushCheck(v, s.tail)); }
  }

  lemma RefinePop(s: State, t: Tid, c: Choice)
    requires Inv(s) && Enabled(s, t, c) && c.Continue?
    requires var th := s.threads[t]; th.PopStart? || th.PopCheck? || th.PopCas?
    ensures SpecEnabled(Abs(s), t, ActionOf(s, t, c))
    ensures Abs(Next(s, t, c)) == SpecNext(Abs(s), t, ActionOf(s, t, c))
  {
    hide Inv, Index, SlotLaw;
    match s.threads[t]
    case PopStart => RefineMove(s, t, PopCheck(s.head));
    case PopCheck(h) => RefineMove(s, t, if SlotAt(s, h).head != h then Returning(Refused) else PopCas(h));
    case PopCas(h) => if s.head == h && !c.spurious { RefineClaimPop(s, t, h); } else { RefineMove(s, t, PopCheck(s.head)); }
  }

  lemma RefineReturn(s: State, t: Tid, c: Choice)
    requires Inv(s) && Enabled(s, t, c) && c.Continue? && s.threads[t].Returning?
    ensures SpecEnabled(Abs(s), t, ActionOf(s, t, c))
    ensures Abs(Next(s, t, c)) == SpecNext(Abs(s), t, ActionOf(s, t, c))
  {
    hide Index, SlotLaw;
    InvAt(s, t, 0);
    assert Abs(Next(s, t, c)).calls == Abs(s).calls - {t};
  }

  lemma RefineOwn(s: State, t: Tid, c: Choice)
    requires Inv(s) && Enabled(s, t, c) && c.Continue?
    requires var th := s.threads[t]; th.PushWrite? || th.PushPublish? || th.PopRead? || th.PopDestroy? || th.PopPublish?
    ensures Abs(Next(s, t, c)) == Abs(s)
  {
    hide Inv, Index, SlotLaw, Abs;
    InvAt(s, t, 0);
    SameSize(s, t, c);
    match s.threads[t]
    case PushWrite(v, k) => KeepConstruct(s, t, v, k); RefineQuiet(s, Next(s, t, c), t);
    case PushPublish(k) => RefineQuiet(s, Next(s, t, c), t);
    case PopRead(h) => KeepReadData(s, t, h); RefineRead(s, t, h); RefineQuiet(s, Next(s, t, c), t);
    case PopDestroy(h, v) => KeepDestroy(s, t, h, v); RefineQuiet(s, Next(s, t, c), t);
    case PopPublish(h, v) => RefineQuiet(s, Next(s, t, c), t);
  }

  lemma RefineMove(s: State, t: Tid, th: Thread)
    ensures Abs(At(s, t, th)) == Abs(s).(calls := Abs(s).calls[t := CallOf(s, th)])
    ensures t in s.threads && CallOf(s, th) == CallOf(s, s.threads[t]) ==> Abs(At(s, t, th)) == Abs(s)
  {
    var s' := At(s, t, th);
    assert Abs(s').calls == Abs(s).calls[t := CallOf(s, th)];
  }

  lemma RefineClaimPush(s: State, t: Tid, v: Value, k: Ticket)
    requires Inv(s) && t in s.threads && s.threads[t] == PushCas(v, k) && s.tail == k
    ensures SpecEnabled(Abs(s), t, Commit) && Abs(ClaimPush(s, t, v, k)) == SpecNext(Abs(s), t, Commit)
  {
    InvAt(s, t, k);
    FreeSlot(s, k);
    hide SlotLaw, Index;
    var s' := ClaimPush(s, t, v, k);
    assert Queue(s') == Queue(s) + [v];
    forall u | u in s.threads && u != t ensures CallOf(s', s.threads[u]) == CallOf(s, s.threads[u]) { assert ThreadLaw(s, u); }
    assert Abs(s').calls == Abs(s).calls[t := Pushed];
  }

  lemma RefineClaimPop(s: State, t: Tid, h: Ticket)
    requires Inv(s) && t in s.threads && s.threads[t] == PopCas(h) && s.head == h
    ensures SpecEnabled(Abs(s), t, Commit) && Abs(ClaimPop(s, t, h)) == SpecNext(Abs(s), t, Commit)
  {
    InvAt(s, t, h);
    FullSlot(s, h);
    hide SlotLaw, Index;
    var s' := ClaimPop(s, t, h);
    assert Queue(s)[0] == s.vals[h] && Queue(s') == Queue(s)[1..];
    assert Abs(s').calls == Abs(s).calls[t := Popped(s.vals[h])];
  }

  /** The owner of a slot works on it unseen. */
  lemma RefineQuiet(s: State, s': State, t: Tid)
    requires t in s.threads && t in s'.threads && s'.threads == s.threads[t := s'.threads[t]]
    requires |s'.slots| == |s.slots| && s'.vals == s.vals && s'.head == s.head && s'.tail == s.tail
    requires CallOf(s', s'.threads[t]) == CallOf(s, s.threads[t])
    ensures Abs(s') == Abs(s)
  {
    assert Abs(s').calls == Abs(s).calls;
  }

  lemma RefineRead(s: State, t: Tid, h: Ticket)
    requires Inv(s) && t in s.threads && s.threads[t] == PopRead(h)
    ensures h < |s.vals|
  {
    InvAt(s, t, h);
  }

  ghost function Trace(states: seq<State>): seq<Spec> {
    seq(|states|, i requires 0 <= i < |states| => Abs(states[i]))
  }

  ghost function Actions(states: seq<State>, who: seq<Tid>, how: seq<Choice>): seq<Action>
    requires |how| == |who| <= |states|
  {
    seq(|who|, i requires 0 <= i < |who| =>
      if Enabled(states[i], who[i], how[i]) then ActionOf(states[i], who[i], how[i]) else Stutter)
  }

  /** Every run is a run of the atomic bounded queue. */
  lemma Linearizable(capacity: nat, states: seq<State>, who: seq<Tid>, how: seq<Choice>)
    requires Run(capacity, states, who, how)
    ensures SpecRun(Trace(states), who, Actions(states, who, how))
  {
    hide Inv, Next, Enabled, ActionOf, SpecNext, SpecEnabled;
    var specs, what := Trace(states), Actions(states, who, how);
    assert specs[0].queue == [] && specs[0].calls == map[];
    hide Abs;
    forall i | 0 <= i < |who|
      ensures SpecEnabled(specs[i], who[i], what[i]) && specs[i + 1] == SpecNext(specs[i], who[i], what[i])
    {
      RunKeeps(capacity, states, who, how, i);
      assert Enabled(states[i], who[i], how[i]) && states[i + 1] == Next(states[i], who[i], how[i]);
      Refinement(states[i], who[i], how[i]);
    }
  }

  /** In every run the elements come out in the order in which they went in, each once. */
  lemma DeliversInOrder(capacity: nat, states: seq<State>, who: seq<Tid>, how: seq<Choice>)
    requires Run(capacity, states, who, how)
    ensures
      var specs, what := Trace(states), Actions(states, who, how);
      AllIn(specs, who, what, |who|) == AllOut(specs, who, what, |who|) + Queue(states[|who|])
  {
    Linearizable(capacity, states, who, how);
    FirstInFirstOut(Trace(states), who, Actions(states, who, how), |who|);
  }
}
