/** Laws of the scheduler: what every tick keeps, and how much closer to the end it comes. */
module SchedulerLaws {
  import opened SchedulerSpec

  // ---------------------------------------------------------------------------------------
  // What is left to do
  // ---------------------------------------------------------------------------------------

  /** Ticks spent waiting for I/Os that are still to be issued. */
  function IoTime(code: seq<Instr>, ioLength: int): int {
    if code == [] then 0 else (if code[0] == Io then ioLength else 0) + IoTime(code[1..], ioLength)
  }

  /** Ticks until the pending I/O of a process completes, less one. */
  function Wait(p: Proc, clock: nat): int {
    if p.state == BLOCKED then Ahead(p) - 1 - clock else 0
  }

  /** Three ways to weigh what a process has left: its instructions; the time it will wait for
      I/O; and all its time, where an unfinished process without code takes a tick of its own. */
  datatype Measure = ByCode | ByIo(clock: nat, ioLength: int) | ByTime(clock: nat, ioLength: int)

  function Weigh(m: Measure, p: Proc): int {
    match m
    case ByCode => |p.code|
    case ByIo(clock, ioLength) => IoTime(p.code, ioLength) + Wait(p, clock)
    case ByTime(clock, ioLength) =>
      |p.code| + IoTime(p.code, ioLength) + Wait(p, clock) + (if p.code == [] && p.state != DONE then 1 else 0)
  }

  function Sum(ps: seq<Proc>, m: Measure): int {
    if ps == [] then 0 else Sum(ps[..|ps| - 1], m) + Weigh(m, ps[|ps| - 1])
  }

  lemma {:induction false} SumUpdate(ps: seq<Proc>, m: Measure, i: nat, p: Proc)
    requires i < |ps|
    ensures Sum(ps[i := p], m) == Sum(ps, m) - Weigh(m, ps[i]) + Weigh(m, p)
  {
    hide Weigh;
    var n := |ps| - 1;
    if i == n {
      assert ps[i := p][..n] == ps[..n];
    } else {
      SumUpdate(ps[..n], m, i, p);
      assert ps[i := p][..n] == ps[..n][i := p];
    }
  }

  predicate Waiting(p: Proc) {
    p.state == BLOCKED
  }

  /** A tick of the clock brings every waiting process one tick nearer its completion. */
  lemma {:induction false} ClockSum(ps: seq<Proc>, clock: nat, ioLength: int)
    ensures Sum(ps, ByTime(clock + 1, ioLength)) == Sum(ps, ByTime(clock, ioLength)) - Count(ps, Waiting)
    ensures Sum(ps, ByIo(clock + 1, ioLength)) == Sum(ps, ByIo(clock, ioLength)) - Count(ps, Waiting)
  {
    if ps != [] { ClockSum(ps[..|ps| - 1], clock, ioLength); }
  }

  lemma {:induction false} CountZero(ps: seq<Proc>, f: Proc -> bool)
    ensures Count(ps, f) == 0 <==> forall p :: 0 <= p < |ps| ==> !f(ps[p])
  {
    if ps != [] {
      var n := |ps| - 1;
      CountZero(ps[..n], f);
      assert forall p :: 0 <= p < n ==> ps[..n][p] == ps[p];
    }
  }

  /** A count of one names one process. */
  lemma {:induction false} CountOne(ps: seq<Proc>, f: Proc -> bool, i: nat)
    requires i < |ps| && f(ps[i])
    ensures Count(ps, f) >= 1
    ensures Count(ps, f) == 1 <==> forall p :: 0 <= p < |ps| && p != i ==> !f(ps[p])
  {
    var n := |ps| - 1;
    assert forall p :: 0 <= p < n ==> ps[..n][p] == ps[p];
    if i == n { CountZero(ps[..n], f); } else { CountOne(ps[..n], f, i); }
  }

  lemma {:induction false} Left(ps: seq<Proc>, clock: nat, ioLength: int)
    requires forall p :: 0 <= p < |ps| ==> FinishOk(ps[p], clock, ioLength) && Completes(ps[p].code, ioLength)
    ensures Sum(ps, ByTime(clock, ioLength)) >= 0 && Sum(ps, ByIo(clock, ioLength)) >= 0 && Sum(ps, ByCode) >= 0
  {
    if ps != [] {
      var n := |ps| - 1;
      assert forall p :: 0 <= p < n ==> ps[..n][p] == ps[p];
      Left(ps[..n], clock, ioLength);
      IoTimeLeft(ps[n].code, ioLength);
    }
  }

  lemma {:induction false} IoTimeLeft(code: seq<Instr>, ioLength: int)
    requires Completes(code, ioLength)
    ensures IoTime(code, ioLength) >= 0
  {
    if code != [] {
      assert forall i :: 0 <= i < |code[1..]| ==> code[1..][i] == code[i + 1];
      IoTimeLeft(code[1..], ioLength);
    }
  }

  /** How much is left, in the three measures. */
  datatype Rest = Rest(code: int, io: int, time: int)

  function Remaining(ps: seq<Proc>, clock: nat, ioLength: int): Rest {
    Rest(Sum(ps, ByCode), Sum(ps, ByIo(clock, ioLength)), Sum(ps, ByTime(clock, ioLength)))
  }

  // ---------------------------------------------------------------------------------------
  // Moves
  // ---------------------------------------------------------------------------------------

  /** What the moves rely on between two points of a tick, wherever the current process is. */
  predicate Sound(s: Sys, clock: nat, policy: Policy) {
    && s.curr < |s.procs|
    && (forall p :: 0 <= p < |s.procs| ==> ProcOk(s.procs[p], clock, policy.ioLength))
    && Orderly(s)
  }

  lemma {:induction false} MoveSum(s: Sys, pid: nat, state: ProcState, m: Measure)
    requires pid < |s.procs| && s.procs[pid].state in {READY, RUNNING} && state in {READY, RUNNING}
    ensures Sum(WithState(s, pid, state).procs, m) == Sum(s.procs, m)
  {
    SumUpdate(s.procs, m, pid, s.procs[pid].(state := state));
  }

  /** How many processes lie between the current one and `p`, going round. */
  lemma {:induction false} GoingRound(curr: nat, p: nat, n: nat)
    requires curr < n && p < n
    ensures (p - curr - 1) % n == if p > curr then p - curr - 1 else p - curr - 1 + n
  {
    var d := p - curr - 1;
    var r := if p > curr then d else d + n;
    assert d == n * (d / n) + d % n;
    Quotient(n, d / n, d % n, if p > curr then 0 else -1, r);
  }

  lemma {:induction false} Quotient(n: int, q: int, r: int, q': int, r': int)
    requires 0 <= r < n && 0 <= r' < n && n * q + r == n * q' + r'
    ensures r == r'
  {
    if q < q' { Grows(n, q, q'); }
    if q' < q { Grows(n, q', q); }
  }

  lemma {:induction false} Grows(n: int, q: int, q': int)
    requires n > 0 && q < q'
    ensures n * q' >= n * q + n
    decreases q' - q
  {
    var k := q' - 1;
    assert n * q' == n * k + n;
    if q < k { Grows(n, q, k); }
  }

  /** Where a process is READY, the next to run is the one that comes first going round from
      the one after the current, and nothing but its state changes; where none is, nothing. */
  lemma {:induction false} NextIsNearest(s: Sys)
    requires s.curr < |s.procs|
    ensures GoesToNearest(s, NextProc(s))
  {
    var n, pid := |s.procs|, Successor(s);
    if pid < n {
      Foremost(s.procs, s.curr + 1, n);
      Foremost(s.procs, 0, s.curr + 1);
      GoingRound(s.curr, pid, n);
      forall p | 0 <= p < n && s.procs[p].state == READY ensures (pid - s.curr - 1) % n <= (p - s.curr - 1) % n {
        GoingRound(s.curr, p, n);
      }
    }
  }

  lemma {:induction false} Foremost(ps: seq<Proc>, low: nat, high: nat)
    requires low <= high <= |ps|
    ensures forall p :: low <= p < high && p < FirstReady(ps, low, high) ==> ps[p].state != READY
    decreases high - low
  {
    if low < high && ps[low].state != READY { Foremost(ps, low + 1, high); }
  }

  lemma {:induction false} CheckRetires(s: Sys)
    requires s.curr < |s.procs|
    ensures Retires(s, CheckIfDone(s))
  {
    hide GoesToNearest, NextProc;
    if s.procs[s.curr].code == [] && s.procs[s.curr].state == RUNNING { NextIsNearest(WithState(s, s.curr, DONE)); }
  }

  lemma {:induction false} WakeIs(s: Sys, pid: nat, policy: Policy)
    requires s.curr < |s.procs| && pid < |s.procs|
    ensures Wakes(s, pid, policy, Wake(s, pid, policy))
  {
    hide CheckIfDone, Retires;
    var s1 := WithState(s, pid, READY);
    CountOne(s1.procs, Runnable, pid);
    assert s1.procs[pid := s1.procs[pid].(state := RUNNING)] == s.procs[pid := s.procs[pid].(state := RUNNING)];
    if s1.curr != pid && s1.procs[s1.curr].state == RUNNING {
      assert s1.procs[s1.curr := s1.procs[s1.curr].(state := READY)][pid := s1.procs[pid].(state := RUNNING)]
             == s.procs[s.curr := s.procs[s.curr].(state := READY)][pid := s.procs[pid].(state := RUNNING)];
    }
    assert forall p :: 0 <= p < |s.procs| && p != pid ==> s1.procs[p] == s.procs[p];
    CheckRetires(s1);
    CheckRetires(RunProc(s1, pid));
    CheckRetires(RunProc(WithState(s1, s1.curr, READY), pid));
  }

  /** What a tick does after the completions.  A process that is not RUNNING executes nothing;
      a computation takes one instruction off the current process, and the last one ends it;
      an I/O makes it wait until the length of an I/O after the next tick, and under
      SWITCH_ON_IO the next process runs. */
  lemma {:induction false} StepIs(s: Sys, clock: nat, policy: Policy)
    requires s.curr < |s.procs|
    ensures
      var p, s' := s.procs[s.curr], Step(s, clock, policy);
      if p.state != RUNNING then s' == s
      else if p.code == [] then Retires(s, s')
      else if p.code[0] != Io then Retires(Sys(s.procs[s.curr := p.(code := p.code[1..])], s.curr), s')
      else
        var waiting := Sys(s.procs[s.curr := Proc(BLOCKED, p.code[1..], p.finish + [clock + policy.ioLength + 1])], s.curr);
        if policy.switch == SWITCH_ON_END then s' == waiting
        else exists s1: Sys :: s1.curr < |s1.procs| && GoesToNearest(waiting, s1) && Retires(s1, s')
  {
    hide GoesToNearest, Retires, NextProc, CheckIfDone;
    CheckRetires(s);
    if CanExecute(s) {
      var p, s1 := s.procs[s.curr], Execute(s);
      CheckRetires(s1);
      if p.code[0] == Io { IssueIs(s, s1, clock, policy); }
    } else {
      NotRunning(s);
    }
  }

  lemma {:induction false} NotRunning(s: Sys)
    requires s.curr < |s.procs|
    ensures s.procs[s.curr].state != RUNNING ==> CheckIfDone(s) == s
  {
  }

  lemma {:induction false} IssueIs(s: Sys, s1: Sys, clock: nat, policy: Policy)
    requires s.curr < |s.procs| && CanExecute(s) && s1 == Execute(s)
    ensures
      var p := s.procs[s.curr];
      var waiting := Sys(s.procs[s.curr := Proc(BLOCKED, p.code[1..], p.finish + [clock + policy.ioLength + 1])], s.curr);
      var s2 := Issue(s1, clock, policy);
      && s2.curr < |s2.procs|
      && (if policy.switch == SWITCH_ON_END then CheckIfDone(s2) == waiting else GoesToNearest(waiting, s2) && Retires(s2, CheckIfDone(s2)))
  {
    hide GoesToNearest, Retires, NextProc;
    var p := s.procs[s.curr];
    var waiting := Sys(s.procs[s.curr := Proc(BLOCKED, p.code[1..], p.finish + [clock + policy.ioLength + 1])], s.curr);
    assert s1.procs[s.curr := Proc(BLOCKED, p.code[1..], p.finish + [clock + policy.ioLength + 1])] == waiting.procs;
    NextIsNearest(waiting);
    NearestIn(waiting);
    CheckRetires(Issue(s1, clock, policy));
  }

  lemma {:induction false} NearestIn(s: Sys)
    requires s.curr < |s.procs|
    ensures NextProc(s).curr < |NextProc(s).procs|
  {
  }

  lemma {:induction false} NextProcSound(s: Sys, clock: nat, policy: Policy)
    requires Sound(s, clock, policy) && s.procs[s.curr].state != RUNNING
    ensures Sound(NextProc(s), clock, policy)
    ensures |NextProc(s).procs| == |s.procs|
    ensures Remaining(NextProc(s).procs, clock, policy.ioLength) == Remaining(s.procs, clock, policy.ioLength)
    ensures SomeReady(NextProc(s).procs) ==> NextProc(s).procs[NextProc(s).curr].state == RUNNING
    ensures forall p :: 0 <= p < |s.procs| && s.procs[p].state !in {READY, RUNNING} ==> NextProc(s).procs[p] == s.procs[p]
    ensures forall p :: 0 <= p < |s.procs| && NextProc(s).procs[p].state !in {READY, RUNNING} ==> NextProc(s).procs[p] == s.procs[p]
  {
    hide Sum, ProcOk;
    var pid := Successor(s);
    if pid < |s.procs| {
      StateFree(s.procs[pid], RUNNING, clock, policy.ioLength);
      MoveSum(s, pid, RUNNING, ByCode);
      MoveSum(s, pid, RUNNING, ByIo(clock, policy.ioLength));
      MoveSum(s, pid, RUNNING, ByTime(clock, policy.ioLength));
    }
  }

  lemma {:induction false} CheckSound(s: Sys, clock: nat, policy: Policy)
    requires Inv(s, clock, policy)
    ensures Inv(CheckIfDone(s), clock, policy)
    ensures
      var gone := if s.procs[s.curr].code == [] && s.procs[s.curr].state == RUNNING then 1 else 0;
      var a := Remaining(s.procs, clock, policy.ioLength);
      Remaining(CheckIfDone(s).procs, clock, policy.ioLength) == a.(time := a.time - gone)
  {
    hide ProcOk, Orderly, Progressing, NextProc, SomeReady, Sum;
    if s.procs[s.curr].code == [] && s.procs[s.curr].state == RUNNING {
      var s1 := WithState(s, s.curr, DONE);
      DoneSound(s, clock, policy);
      NextProcSound(s1, clock, policy);
      CheckProgress(s, s1, policy.switch);
    }
  }

  /** Retiring the current process. */
  lemma {:induction false} DoneSound(s: Sys, clock: nat, policy: Policy)
    requires Inv(s, clock, policy) && s.procs[s.curr].code == [] && s.procs[s.curr].state == RUNNING
    ensures
      var s1 := WithState(s, s.curr, DONE);
      var a := Remaining(s.procs, clock, policy.ioLength);
      && Sound(s1, clock, policy)
      && Remaining(s1.procs, clock, policy.ioLength) == a.(time := a.time - 1)
  {
    hide Progressing, Sum, Paired;
    var p := s.procs[s.curr].(state := DONE);
    SumUpdate(s.procs, ByTime(clock, policy.ioLength), s.curr, p);
    SumUpdate(s.procs, ByIo(clock, policy.ioLength), s.curr, p);
    SumUpdate(s.procs, ByCode, s.curr, p);
  }

  lemma {:induction false} CheckProgress(s: Sys, s1: Sys, switch: SwitchBehavior)
    requires s.curr < |s.procs| && Progressing(s, switch) && s.procs[s.curr].state == RUNNING && s1 == WithState(s, s.curr, DONE)
    requires SomeReady(NextProc(s1).procs) ==> NextProc(s1).procs[NextProc(s1).curr].state == RUNNING
    requires forall p :: 0 <= p < |s1.procs| && NextProc(s1).procs[p].state !in {READY, RUNNING} ==> NextProc(s1).procs[p] == s1.procs[p]
    ensures Progressing(NextProc(s1), switch)
  {
    hide Successor, SomeReady;
  }

  // ---------------------------------------------------------------------------------------
  // Completions
  // ---------------------------------------------------------------------------------------

  lemma {:induction false} ProcAdvance(p: Proc, clock: nat, ioLength: int)
    requires ProcOk(p, clock, ioLength)
    ensures Due(p, clock + 1) ==> p.state == BLOCKED && Ahead(p) == clock + 1 && ProcOk(p.(state := READY), clock + 1, ioLength)
    ensures !Due(p, clock + 1) ==> ProcOk(p, clock + 1, ioLength)
  {
    if p.finish != [] { assert p.finish[|p.finish| - 1] in p.finish; }
  }

  /** The process a completion names is waiting, and no other completes at the same tick. */
  lemma {:induction false} OneDue(s: Sys, clock: nat, policy: Policy, pid: nat)
    requires Inv(s, clock, policy) && pid < |s.procs| && Due(s.procs[pid], clock + 1)
    ensures s.procs[pid].state == BLOCKED && s.procs[pid].code != []
    ensures DueAt(s.procs, clock + 1, |s.procs|) == pid
    ensures forall p :: 0 <= p < |s.procs| && p != pid ==> !Due(s.procs[p], clock + 1)
    ensures policy.switch == SWITCH_ON_END ==> pid == s.curr
  {
    ProcAdvance(s.procs[pid], clock, policy.ioLength);
    forall p | 0 <= p < |s.procs| && p != pid ensures !Due(s.procs[p], clock + 1) { ProcAdvance(s.procs[p], clock, policy.ioLength); }
  }

  lemma {:induction false} CountSame(ps: seq<Proc>, ps': seq<Proc>, f: Proc -> bool)
    requires |ps| == |ps'| && forall p :: 0 <= p < |ps| ==> f(ps[p]) == f(ps'[p])
    ensures Count(ps, f) == Count(ps', f)
  {
    if ps != [] {
      var n := |ps| - 1;
      assert forall p :: 0 <= p < n ==> ps[..n][p] == ps[p] && ps'[..n][p] == ps'[p];
      CountSame(ps[..n], ps'[..n], f);
    }
  }

  lemma {:induction false} CheckWaiting(s: Sys)
    requires s.curr < |s.procs|
    ensures |CheckIfDone(s).procs| == |s.procs| && CheckIfDone(s).curr < |s.procs|
    ensures Count(CheckIfDone(s).procs, Waiting) == Count(s.procs, Waiting)
    ensures forall p :: 0 <= p < |s.procs| ==>
              CheckIfDone(s).procs[p].finish == s.procs[p].finish && CheckIfDone(s).procs[p].code == s.procs[p].code
  {
    CountSame(CheckIfDone(s).procs, s.procs, Waiting);
  }

  /** The process that wakes, before it is decided who runs. */
  lemma {:induction false} Woken(s: Sys, clock: nat, policy: Policy, pid: nat)
    requires Inv(s, clock, policy) && pid < |s.procs| && Due(s.procs[pid], clock + 1)
    ensures
      var s1 := WithState(s, pid, READY);
      var a, w := Remaining(s.procs, clock, policy.ioLength), Count(s1.procs, Waiting);
      Sound(s1, clock + 1, policy) && Remaining(s1.procs, clock + 1, policy.ioLength) == Rest(a.code, a.io - w, a.time - w)
  {
    OneDue(s, clock, policy, pid);
    ProcAdvance(s.procs[pid], clock, policy.ioLength);
    var p, s1 := s.procs[pid].(state := READY), WithState(s, pid, READY);
    WokenSums(s, clock, policy.ioLength, pid);
    hide Weigh, Sum, Count;
    ClockSum(s1.procs, clock, policy.ioLength);
    forall q | 0 <= q < |s1.procs| ensures ProcOk(s1.procs[q], clock + 1, policy.ioLength) { ProcAdvance(s.procs[q], clock, policy.ioLength); }
  }

  lemma {:induction false} WokenSums(s: Sys, clock: nat, ioLength: int, pid: nat)
    requires pid < |s.procs| && s.procs[pid].state == BLOCKED && Ahead(s.procs[pid]) == clock + 1 && s.procs[pid].code != []
    ensures
      var s1 := WithState(s, pid, READY);
      && Sum(s1.procs, ByTime(clock, ioLength)) == Sum(s.procs, ByTime(clock, ioLength))
      && Sum(s1.procs, ByIo(clock, ioLength)) == Sum(s.procs, ByIo(clock, ioLength))
      && Sum(s1.procs, ByCode) == Sum(s.procs, ByCode)
  {
    var p := s.procs[pid].(state := READY);
    SumUpdate(s.procs, ByTime(clock, ioLength), pid, p);
    SumUpdate(s.procs, ByIo(clock, ioLength), pid, p);
    SumUpdate(s.procs, ByCode, pid, p);
  }

  /** Who runs once process `pid` is awake. */
  function Dispatched(s1: Sys, pid: nat, policy: Policy): Sys
    requires s1.curr < |s1.procs| && pid < |s1.procs|
  {
    if policy.ioDone == IO_RUN_IMMEDIATE then
      RunProc(if s1.curr != pid && s1.procs[s1.curr].state == RUNNING then WithState(s1, s1.curr, READY) else s1, pid)
    else if (policy.switch == SWITCH_ON_END && NumRunnable(s1.procs) > 1) || NumRunnable(s1.procs) == 1 then RunProc(s1, pid)
    else s1
  }

  predicate NoneRunning(ps: seq<Proc>) {
    forall p :: 0 <= p < |ps| ==> ps[p].state != RUNNING
  }

  /** Starting a READY process while none is RUNNING. */
  lemma {:induction false} RunProcSound(s: Sys, clock: nat, policy: Policy, pid: nat)
    requires Sound(s, clock, policy) && pid < |s.procs| && s.procs[pid].state == READY && NoneRunning(s.procs)
    ensures Sound(RunProc(s, pid), clock, policy)
    ensures policy.switch == SWITCH_ON_END && (forall p :: 0 <= p < |s.procs| ==> s.procs[p].state != BLOCKED) ==> Inv(RunProc(s, pid), clock, policy)
    ensures policy.switch == SWITCH_ON_IO ==> Inv(RunProc(s, pid), clock, policy)
  {
    hide ProcOk;
    StateFree(s.procs[pid], RUNNING, clock, policy.ioLength);
  }

  lemma {:induction false} DemoteSound(s: Sys, clock: nat, policy: Policy)
    requires Sound(s, clock, policy)
    ensures
      var s' := if s.procs[s.curr].state == RUNNING then WithState(s, s.curr, READY) else s;
      Sound(s', clock, policy) && NoneRunning(s'.procs)
  {
    hide ProcOk;
    StateFree(s.procs[s.curr], READY, clock, policy.ioLength);
  }

  lemma {:induction false} DispatchedSound(s: Sys, clock: nat, policy: Policy, pid: nat)
    requires Inv(s, clock, policy) && pid < |s.procs| && s.procs[pid].state == BLOCKED
    requires policy.switch == SWITCH_ON_END ==> pid == s.curr
    requires Sound(WithState(s, pid, READY), clock + 1, policy)
    ensures Inv(Dispatched(WithState(s, pid, READY), pid, policy), clock + 1, policy)
    ensures policy.switch == SWITCH_ON_END ==> Dispatched(WithState(s, pid, READY), pid, policy).curr == pid
  {
    hide ProcOk;
    var s1 := WithState(s, pid, READY);
    CountOne(s1.procs, Runnable, pid);
    var lone := (policy.switch == SWITCH_ON_END && NumRunnable(s1.procs) > 1) || NumRunnable(s1.procs) == 1;
    assert lone ==> NoneRunning(s1.procs);
    hide Count, Orderly;
    if policy.ioDone == IO_RUN_IMMEDIATE {
      DemoteSound(s1, clock + 1, policy);
      RunProcSound(if s1.curr != pid && s1.procs[s1.curr].state == RUNNING then WithState(s1, s1.curr, READY) else s1, clock + 1, policy, pid);
    } else if lone {
      RunProcSound(s1, clock + 1, policy, pid);
    } else {
      LeaveWaiting(s, s1, pid, policy.switch);
    }
  }

  /** A process that wakes beside others which can run waits for its turn. */
  lemma {:induction false} LeaveWaiting(s: Sys, s1: Sys, pid: nat, switch: SwitchBehavior)
    requires s.curr < |s.procs| && Orderly(s) && Progressing(s, switch) && switch == SWITCH_ON_IO
    requires pid < |s.procs| && s.procs[pid].state == BLOCKED && s1 == WithState(s, pid, READY)
    requires NumRunnable(s1.procs) != 1
    ensures Progressing(s1, switch)
  {
    CountOne(s1.procs, Runnable, pid);
    var q :| 0 <= q < |s1.procs| && q != pid && Runnable(s1.procs[q]);
    assert s1.procs[q] == s.procs[q];
  }

  lemma {:induction false} StateFree(p: Proc, state: ProcState, clock: nat, ioLength: int)
    requires ProcOk(p, clock, ioLength)
    ensures p.state != BLOCKED && state in {READY, RUNNING} ==> ProcOk(p.(state := state), clock, ioLength)
  {
  }

  lemma {:induction false} DispatchedSums(s1: Sys, pid: nat, policy: Policy, clock: nat)
    requires s1.curr < |s1.procs| && pid < |s1.procs| && s1.procs[pid].state == READY
    ensures Remaining(Dispatched(s1, pid, policy).procs, clock, policy.ioLength) == Remaining(s1.procs, clock, policy.ioLength)
    ensures Count(Dispatched(s1, pid, policy).procs, Waiting) == Count(s1.procs, Waiting)
  {
    DispatchedWaiting(s1, pid, policy);
    hide Sum, Count;
    forall m ensures Sum(Dispatched(s1, pid, policy).procs, m) == Sum(s1.procs, m) {
      var s' := if policy.ioDone == IO_RUN_IMMEDIATE && s1.curr != pid && s1.procs[s1.curr].state == RUNNING then WithState(s1, s1.curr, READY) else s1;
      if s' != s1 { MoveSum(s1, s1.curr, READY, m); }
      MoveSum(s', pid, RUNNING, m);
    }
  }

  lemma {:induction false} DispatchedWaiting(s1: Sys, pid: nat, policy: Policy)
    requires s1.curr < |s1.procs| && pid < |s1.procs| && s1.procs[pid].state == READY
    ensures Count(Dispatched(s1, pid, policy).procs, Waiting) == Count(s1.procs, Waiting)
  {
    hide Count;
    CountSame(Dispatched(s1, pid, policy).procs, s1.procs, Waiting);
  }

  /** No I/O yet issued completes later than one issued at this tick would. */
  predicate Earlier(ps: seq<Proc>, clock: nat, ioLength: int) {
    forall p, i :: 0 <= p < |ps| && 0 <= i < |ps[p].finish| ==> ps[p].finish[i] <= clock + ioLength
  }

  lemma {:induction false} EarlierNow(s: Sys, s': Sys, clock: nat, policy: Policy)
    requires Inv(s, clock, policy) && |s'.procs| == |s.procs| && forall p :: 0 <= p < |s.procs| ==> s'.procs[p].finish == s.procs[p].finish
    ensures Earlier(s'.procs, clock + 1, policy.ioLength)
  {
    hide Orderly, Progressing, Paired;
  }

  /** The completions of a tick: every waiting process has come one tick nearer. */
  lemma {:induction false} WakeDueSound(s: Sys, clock: nat, policy: Policy)
    requires Inv(s, clock, policy)
    ensures
      var s' := WakeDue(s, clock + 1, policy);
      var a, b, w := Remaining(s.procs, clock, policy.ioLength), Remaining(s'.procs, clock + 1, policy.ioLength), Count(s'.procs, Waiting);
      && |s'.procs| == |s.procs| && Inv(s', clock + 1, policy) && Earlier(s'.procs, clock + 1, policy.ioLength)
      && b.code == a.code && b.io == a.io - w && b.time <= a.time - w
      && (policy.switch == SWITCH_ON_END ==> b.time == a.time - w)
  {
    var pid := DueAt(s.procs, clock + 1, |s.procs|);
    if pid < |s.procs| {
      WakeSound(s, clock, policy, pid);
    } else {
      NothingDue(s, clock, policy);
      EarlierNow(s, s, clock, policy);
      ClockSum(s.procs, clock, policy.ioLength);
    }
  }

  lemma {:induction false} NothingDue(s: Sys, clock: nat, policy: Policy)
    requires Inv(s, clock, policy) && forall p :: 0 <= p < |s.procs| ==> !Due(s.procs[p], clock + 1)
    ensures Inv(s, clock + 1, policy)
  {
    hide ProcOk, Orderly, Progressing;
    forall p | 0 <= p < |s.procs| ensures ProcOk(s.procs[p], clock + 1, policy.ioLength) { ProcAdvance(s.procs[p], clock, policy.ioLength); }
  }

  lemma {:induction false} WakeSound(s: Sys, clock: nat, policy: Policy, pid: nat)
    requires Inv(s, clock, policy) && pid < |s.procs| && Due(s.procs[pid], clock + 1)
    ensures
      var s' := Wake(s, pid, policy);
      var a, b, w := Remaining(s.procs, clock, policy.ioLength), Remaining(s'.procs, clock + 1, policy.ioLength), Count(s'.procs, Waiting);
      && |s'.procs| == |s.procs| && Inv(s', clock + 1, policy) && Earlier(s'.procs, clock + 1, policy.ioLength)
      && b.code == a.code && b.io == a.io - w && b.time <= a.time - w
      && (policy.switch == SWITCH_ON_END ==> b.time == a.time - w)
    ensures forall p :: 0 <= p < |s.procs| ==> Wake(s, pid, policy).procs[p].code == s.procs[p].code
  {
    WakeForm(s, pid, policy);
    hide *;
    hide Wake, DueAt;
    StartOf(s, clock, policy);
    ReadiedSound(s, clock, policy, pid);
    ReadiedRest(s, clock, policy, pid);
    ReadiedKeeps(s, pid, policy);
    var s2 := Readied(s, pid, policy);
    CheckSound(s2, clock + 1, policy);
    CheckWaiting(s2);
    EarlierNow(s, CheckIfDone(s2), clock, policy);
  }

  /** The state in which the loop over completions checks whether the current process is done. */
  function Readied(s: Sys, pid: nat, policy: Policy): Sys
    requires s.curr < |s.procs| && pid < |s.procs|
  {
    Dispatched(WithState(s, pid, READY), pid, policy)
  }

  lemma {:induction false} ReadiedSound(s: Sys, clock: nat, policy: Policy, pid: nat)
    requires Inv(s, clock, policy) && pid < |s.procs| && Due(s.procs[pid], clock + 1)
    ensures
      var s2 := Readied(s, pid, policy);
      && |s2.procs| == |s.procs| && Inv(s2, clock + 1, policy)
      && (policy.switch == SWITCH_ON_END ==> s2.procs[s2.curr].code != [])
  {
    ReadiedForm(s, pid, policy);
    hide *;
    StartOf(s, clock, policy);
    OneDue(s, clock, policy, pid);
    ReadiedKeeps(s, pid, policy);
    Woken(s, clock, policy, pid);
    DispatchedSound(s, clock, policy, pid);
  }

  lemma {:induction false} ReadiedRest(s: Sys, clock: nat, policy: Policy, pid: nat)
    requires Inv(s, clock, policy) && pid < |s.procs| && Due(s.procs[pid], clock + 1)
    ensures
      var s2 := Readied(s, pid, policy);
      var a, w := Remaining(s.procs, clock, policy.ioLength), Count(s2.procs, Waiting);
      Remaining(s2.procs, clock + 1, policy.ioLength) == Rest(a.code, a.io - w, a.time - w)
  {
    var s1 := WithState(s, pid, READY);
    assert s1.procs[pid].state == READY;
    ReadiedForm(s, pid, policy);
    hide *;
    StartOf(s, clock, policy);
    Woken(s, clock, policy, pid);
    SoundIndex(s1, clock + 1, policy);
    DispatchedSums(s1, pid, policy, clock + 1);
  }

  /** A completion changes no completion time. */
  lemma {:induction false} WakeKeeps(s: Sys, clock: nat, policy: Policy, pid: nat)
    requires s.curr < |s.procs| && pid < |s.procs|
    ensures
      var s' := Wake(s, pid, policy);
      && |s'.procs| == |s.procs| && s'.curr < |s'.procs|
      && forall p :: 0 <= p < |s.procs| ==> s'.procs[p].finish == s.procs[p].finish
  {
    hide Readied, CheckIfDone, Wake;
    WakeForm(s, pid, policy);
    ReadiedKeeps(s, pid, policy);
    CheckWaiting(Readied(s, pid, policy));
  }

  lemma {:induction false} StartOf(s: Sys, clock: nat, policy: Policy)
    requires Inv(s, clock, policy)
    ensures s.curr < |s.procs|
  {
  }

  /** Waking a process and letting it run touches states only. */
  lemma {:induction false} ReadiedKeeps(s: Sys, pid: nat, policy: Policy)
    requires s.curr < |s.procs| && pid < |s.procs|
    ensures
      var s2 := Readied(s, pid, policy);
      && |s2.procs| == |s.procs| && s2.curr < |s2.procs|
      && (forall p :: 0 <= p < |s.procs| ==> s2.procs[p].code == s.procs[p].code && s2.procs[p].finish == s.procs[p].finish)
  {
    hide NumRunnable;
  }

  lemma {:induction false} ReadiedForm(s: Sys, pid: nat, policy: Policy)
    requires s.curr < |s.procs| && pid < |s.procs|
    ensures Readied(s, pid, policy) == Dispatched(WithState(s, pid, READY), pid, policy)
  {
  }

  lemma {:induction false} WakeForm(s: Sys, pid: nat, policy: Policy)
    requires s.curr < |s.procs| && pid < |s.procs|
    ensures Wake(s, pid, policy) == CheckIfDone(Readied(s, pid, policy))
  {
    hide NumRunnable, CheckIfDone;
  }

  // ---------------------------------------------------------------------------------------
  // The rest of a tick
  // ---------------------------------------------------------------------------------------

  predicate IssuesIo(s: Sys)
    requires s.curr < |s.procs|
  {
    CanExecute(s) && s.procs[s.curr].code[0] == Io
  }

  /** The current process after the instruction it has just executed. */
  function Advanced(p: Proc, clock: nat, ioLength: int): Proc
    requires p.code != []
  {
    if p.code[0] == Io then Proc(BLOCKED, p.code[1..], p.finish + [clock + ioLength + 1]) else p.(code := p.code[1..])
  }

  lemma {:induction false} AdvancedOk(p: Proc, clock: nat, ioLength: int)
    requires ProcOk(p, clock, ioLength) && p.state == RUNNING && p.code != []
    ensures ProcOk(Advanced(p, clock, ioLength), clock, ioLength)
    ensures
      var q := Advanced(p, clock, ioLength);
      && Weigh(ByCode, q) == Weigh(ByCode, p) - 1
      && Weigh(ByIo(clock, ioLength), q) == Weigh(ByIo(clock, ioLength), p)
      && Weigh(ByTime(clock, ioLength), q) == Weigh(ByTime(clock, ioLength), p) - 1 + (if q.code == [] then 1 else 0)
  {
    assert forall i :: 0 <= i < |p.code| - 1 ==> p.code[1..][i] == p.code[i + 1];
  }

  function AfterExecute(s: Sys, clock: nat, ioLength: int): Sys
    requires s.curr < |s.procs| && CanExecute(s)
  {
    s.(procs := s.procs[s.curr := Advanced(s.procs[s.curr], clock, ioLength)])
  }

  lemma {:induction false} ExecuteSound(s: Sys, clock: nat, policy: Policy)
    requires Inv(s, clock, policy) && Earlier(s.procs, clock, policy.ioLength) && CanExecute(s)
    ensures
      var s1 := AfterExecute(s, clock, policy.ioLength);
      var a, b := Remaining(s.procs, clock, policy.ioLength), Remaining(s1.procs, clock, policy.ioLength);
      && Sound(s1, clock, policy)
      && b.code == a.code - 1 && b.io == a.io && b.time == a.time - 1 + (if s1.procs[s.curr].code == [] then 1 else 0)
  {
    var p := s.procs[s.curr];
    AdvancedOk(p, clock, policy.ioLength);
    ExecuteOrderly(s, clock, policy.ioLength);
    var q := Advanced(p, clock, policy.ioLength);
    hide ProcOk, Orderly, Progressing, Weigh, Earlier, Advanced;
    SumUpdate(s.procs, ByCode, s.curr, q);
    SumUpdate(s.procs, ByIo(clock, policy.ioLength), s.curr, q);
    SumUpdate(s.procs, ByTime(clock, policy.ioLength), s.curr, q);
  }

  lemma {:induction false} ExecuteOrderly(s: Sys, clock: nat, ioLength: int)
    requires s.curr < |s.procs| && Orderly(s) && Earlier(s.procs, clock, ioLength) && CanExecute(s)
    requires forall p :: 0 <= p < |s.procs| ==> ProcOk(s.procs[p], clock, ioLength)
    ensures Orderly(AfterExecute(s, clock, ioLength))
  {
    hide Paired;
  }

  lemma {:induction false} StepSound(s: Sys, clock: nat, policy: Policy)
    requires Inv(s, clock, policy) && Earlier(s.procs, clock, policy.ioLength)
    ensures
      var s' := Step(s, clock, policy);
      var a, b := Remaining(s.procs, clock, policy.ioLength), Remaining(s'.procs, clock, policy.ioLength);
      && |s'.procs| == |s.procs| && Inv(s', clock, policy)
      && b.code == a.code - (if CanExecute(s) then 1 else 0) && b.io == a.io
      && b.time <= a.time - (if s.procs[s.curr].state == RUNNING then 1 else 0)
      && (policy.switch == SWITCH_ON_END ==> b.time == a.time - (if s.procs[s.curr].state == RUNNING then 1 else 0))
  {
    if IssuesIo(s) {
      IssueSound(s, clock, policy);
    } else if CanExecute(s) {
      ComputeSound(s, clock, policy);
    } else {
      hide ProcOk, Orderly, Progressing;
      CheckSound(s, clock, policy);
    }
  }

  lemma {:induction false} ComputeSound(s: Sys, clock: nat, policy: Policy)
    requires Inv(s, clock, policy) && Earlier(s.procs, clock, policy.ioLength) && CanExecute(s) && !IssuesIo(s)
    ensures
      var s' := Step(s, clock, policy);
      var a, b := Remaining(s.procs, clock, policy.ioLength), Remaining(s'.procs, clock, policy.ioLength);
      |s'.procs| == |s.procs| && Inv(s', clock, policy) && b == Rest(a.code - 1, a.io, a.time - 1)
  {
    hide ProcOk, Orderly, Earlier, SomeReady, Sum;
    ExecuteSound(s, clock, policy);
    var s1 := AfterExecute(s, clock, policy.ioLength);
    assert s1.curr == s.curr && s1.procs[s.curr].state == RUNNING;
    assert forall p :: 0 <= p < |s.procs| ==> s1.procs[p].state == s.procs[p].state;
    CheckSound(s1, clock, policy);
  }

  lemma {:induction false} IssueSound(s: Sys, clock: nat, policy: Policy)
    requires Inv(s, clock, policy) && Earlier(s.procs, clock, policy.ioLength) && IssuesIo(s)
    ensures
      var s' := Step(s, clock, policy);
      var a, b := Remaining(s.procs, clock, policy.ioLength), Remaining(s'.procs, clock, policy.ioLength);
      && |s'.procs| == |s.procs| && Inv(s', clock, policy) && b.code == a.code - 1 && b.io == a.io && b.time <= a.time - 1
      && (policy.switch == SWITCH_ON_END ==> b.time == a.time - 1)
  {
    var s1 := AfterExecute(s, clock, policy.ioLength);
    assert s1.procs[s.curr].code != [] by { assert Paired(s.procs[s.curr].code); }
    assert s1.procs[s.curr].state == BLOCKED && s.procs[s.curr].state == RUNNING;
    IssueForm(s, clock, policy);
    if policy.switch == SWITCH_ON_END { ProgressOnEnd(s, s1); }
    hide *;
    ExecuteSound(s, clock, policy);
    StartOf(s, clock, policy);
    var s2 := if policy.switch == SWITCH_ON_IO then NextProc(s1) else s1;
    if policy.switch == SWITCH_ON_IO {
      NextProcSound(s1, clock, policy);
      SoundIndex(s2, clock, policy);
      ProgressOnIo(s2);
    }
    SoundInv(s2, clock, policy);
    CheckSound(s2, clock, policy);
    CheckWaiting(s2);
  }

  lemma {:induction false} SoundIndex(s: Sys, clock: nat, policy: Policy)
    requires Sound(s, clock, policy)
    ensures s.curr < |s.procs|
  {
  }

  lemma {:induction false} SoundInv(s: Sys, clock: nat, policy: Policy)
    requires Sound(s, clock, policy)
    requires s.curr < |s.procs| && Progressing(s, policy.switch)
    ensures Inv(s, clock, policy)
  {
    hide ProcOk, Orderly, Progressing;
  }

  lemma {:induction false} ProgressOnIo(s: Sys)
    requires s.curr < |s.procs| && (SomeReady(s.procs) ==> s.procs[s.curr].state == RUNNING)
    ensures Progressing(s, SWITCH_ON_IO)
  {
    hide SomeReady;
  }

  lemma {:induction false} ProgressOnEnd(s: Sys, s1: Sys)
    requires s.curr < |s.procs| && Progressing(s, SWITCH_ON_END) && s.procs[s.curr].state == RUNNING
    requires s1.curr == s.curr && |s1.procs| == |s.procs| && s1.procs[s.curr].state == BLOCKED
    requires forall p :: 0 <= p < |s.procs| && p != s.curr ==> s1.procs[p] == s.procs[p]
    ensures Progressing(s1, SWITCH_ON_END)
  {
  }

  lemma {:induction false} IssueForm(s: Sys, clock: nat, policy: Policy)
    requires s.curr < |s.procs| && IssuesIo(s)
    ensures
      var s1 := AfterExecute(s, clock, policy.ioLength);
      Step(s, clock, policy) == CheckIfDone(if policy.switch == SWITCH_ON_IO then NextProc(s1) else s1)
  {
    hide CheckIfDone, NextProc;
    var s1 := AfterExecute(s, clock, policy.ioLength);
    assert Issue(Execute(s), clock, policy.(switch := SWITCH_ON_END)).procs == s1.procs;
  }

  // ---------------------------------------------------------------------------------------
  // A tick
  // ---------------------------------------------------------------------------------------

  predicate AllDone(ps: seq<Proc>) {
    forall p :: 0 <= p < |ps| ==> ps[p].state == DONE
  }

  /** Either some process runs, or some waits and time passes for it. */
  lemma {:induction false} NotStuck(s: Sys, clock: nat, policy: Policy)
    requires Inv(s, clock, policy) && !AllDone(s.procs)
    ensures s.procs[s.curr].state != RUNNING ==> Count(s.procs, Waiting) >= 1
    ensures policy.switch == SWITCH_ON_END ==> Count(s.procs, Waiting) == if s.procs[s.curr].state == RUNNING then 0 else 1
  {
    hide ProcOk;
    CountZero(s.procs, Waiting);
    if s.procs[s.curr].state == BLOCKED { CountOne(s.procs, Waiting, s.curr); }
  }

  /** Completions leave something to do, or have retired a process. */
  lemma {:induction false} StillActive(s: Sys, clock: nat, policy: Policy)
    requires Inv(s, clock, policy) && !AllDone(s.procs)
    ensures !AllDone(WakeDue(s, clock + 1, policy).procs)
  {
    var pid := DueAt(s.procs, clock + 1, |s.procs|);
    if pid < |s.procs| {
      OneDue(s, clock, policy, pid);
      hide Wake, Sum, Count, Orderly, Progressing, Paired, FinishOk, DueAt, Due;
      WakeSound(s, clock, policy, pid);
      assert Wake(s, pid, policy).procs[pid].code != [];
      assert ProcOk(Wake(s, pid, policy).procs[pid], clock + 1, policy.ioLength);
    }
  }

  /** Every tick keeps the invariant and uses up what is left: it executes an instruction or
      not, serves every waiting process, and brings the end at least one tick nearer, under
      SWITCH_ON_END exactly one. */
  lemma {:induction false} TickSound(s: Sys, clock: nat, policy: Policy)
    requires Inv(s, clock, policy) && !AllDone(s.procs)
    ensures
      var s' := Tick(s, clock + 1, policy);
      var woken := WakeDue(s, clock + 1, policy);
      var a, b, w := Remaining(s.procs, clock, policy.ioLength), Remaining(s'.procs, clock + 1, policy.ioLength), Count(woken.procs, Waiting);
      && |s'.procs| == |s.procs| && Inv(s', clock + 1, policy) && woken.curr < |woken.procs|
      && b.code == a.code - (if CanExecute(woken) then 1 else 0)
      && b.io == a.io - w
      && b.time < a.time && (policy.switch == SWITCH_ON_END ==> b.time == a.time - 1 && w <= 1)
  {
    WakeDueSound(s, clock, policy);
    StillActive(s, clock, policy);
    var woken := WakeDue(s, clock + 1, policy);
    NotStuck(woken, clock + 1, policy);
    StepSound(woken, clock + 1, policy);
    hide Sum, Count, WakeDue, Step, ProcOk, Orderly, Progressing, Earlier;
  }
}
