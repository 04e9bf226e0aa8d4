/** The process scheduler simulator, as values: what each of its moves does to the table of
    processes, and what one tick of the clock amounts to. */
module SchedulerSpec {
  datatype ProcState = RUNNING | READY | DONE | BLOCKED

  datatype Instr = Cpu | Io | IoDone

  datatype SwitchBehavior = SWITCH_ON_IO | SWITCH_ON_END

  datatype IoDoneBehavior = IO_RUN_LATER | IO_RUN_IMMEDIATE

  /** A process: its state, the instructions it has left, and the completion times of all the
      I/Os it has issued. */
  datatype Proc = Proc(state: ProcState, code: seq<Instr>, finish: seq<int>)

  datatype Policy = Policy(switch: SwitchBehavior, ioDone: IoDoneBehavior, ioLength: int)

  datatype Sys = Sys(procs: seq<Proc>, curr: nat)

  // ---------------------------------------------------------------------------------------
  // Moves
  // ---------------------------------------------------------------------------------------

  function WithState(s: Sys, pid: nat, state: ProcState): Sys
    requires pid < |s.procs|
  {
    s.(procs := s.procs[pid := s.procs[pid].(state := state)])
  }

  /** The first READY process from `low` up to but not including `high`, or none. */
  function FirstReady(ps: seq<Proc>, low: nat, high: nat): (pid: nat)
    requires low <= high <= |ps|
    ensures pid == |ps| || (low <= pid < high && ps[pid].state == READY)
    ensures pid == |ps| ==> forall p :: low <= p < high ==> ps[p].state != READY
    decreases high - low
  {
    if low == high then |ps| else if ps[low].state == READY then low else FirstReady(ps, low + 1, high)
  }

  /** The READY process next after the current one, going round, or none. */
  function Successor(s: Sys): (pid: nat)
    requires s.curr < |s.procs|
    ensures pid == |s.procs| || (pid < |s.procs| && s.procs[pid].state == READY)
    ensures pid == |s.procs| ==> forall p :: 0 <= p < |s.procs| ==> s.procs[p].state != READY
  {
    var a := FirstReady(s.procs, s.curr + 1, |s.procs|);
    if a < |s.procs| then a else FirstReady(s.procs, 0, s.curr + 1)
  }

  function RunProc(s: Sys, pid: nat): Sys
    requires pid < |s.procs|
  {
    WithState(s, pid, RUNNING).(curr := pid)
  }

  function NextProc(s: Sys): Sys
    requires s.curr < |s.procs|
  {
    var pid := Successor(s);
    if pid < |s.procs| then RunProc(s, pid) else s
  }

  function CheckIfDone(s: Sys): Sys
    requires s.curr < |s.procs|
  {
    if s.procs[s.curr].code == [] && s.procs[s.curr].state == RUNNING then NextProc(WithState(s, s.curr, DONE)) else s
  }

  predicate Runnable(p: Proc) {
    p.state == READY || p.state == RUNNING
  }

  function Count(ps: seq<Proc>, f: Proc -> bool): (n: nat)
    ensures n <= |ps|
  {
    if ps == [] then 0 else Count(ps[..|ps| - 1], f) + (if f(ps[|ps| - 1]) then 1 else 0)
  }

  function NumRunnable(ps: seq<Proc>): nat {
    Count(ps, Runnable)
  }

  /** What happens when an I/O of process `pid` completes. */
  function Wake(s: Sys, pid: nat, policy: Policy): Sys
    requires s.curr < |s.procs| && pid < |s.procs|
  {
    var s1 := WithState(s, pid, READY);
    var s2 :=
      if policy.ioDone == IO_RUN_IMMEDIATE then
        var s' := if s1.curr != pid && s1.procs[s1.curr].state == RUNNING then WithState(s1, s1.curr, READY) else s1;
        RunProc(s', pid)
      else if policy.switch == SWITCH_ON_END && NumRunnable(s1.procs) > 1 then RunProc(s1, pid)
      else if NumRunnable(s1.procs) == 1 then RunProc(s1, pid)
      else s1;
    CheckIfDone(s2)
  }

  predicate Due(p: Proc, clock: nat) {
    clock in p.finish
  }

  /** The process whose I/O completes at this tick, or none. */
  function DueAt(ps: seq<Proc>, clock: nat, n: nat): (pid: nat)
    requires n <= |ps|
    ensures pid == |ps| || (pid < n && Due(ps[pid], clock))
    ensures pid == |ps| ==> forall p :: 0 <= p < n ==> !Due(ps[p], clock)
  {
    if n == 0 then |ps|
    else
      var p := DueAt(ps, clock, n - 1);
      if p < |ps| then p else if Due(ps[n - 1], clock) then n - 1 else |ps|
  }

  function WakeDue(s: Sys, clock: nat, policy: Policy): Sys
    requires s.curr < |s.procs|
  {
    var pid := DueAt(s.procs, clock, |s.procs|);
    if pid < |s.procs| then Wake(s, pid, policy) else s
  }

  predicate CanExecute(s: Sys)
    requires s.curr < |s.procs|
  {
    s.procs[s.curr].state == RUNNING && s.procs[s.curr].code != []
  }

  function Execute(s: Sys): Sys
    requires s.curr < |s.procs| && CanExecute(s)
  {
    s.(procs := s.procs[s.curr := s.procs[s.curr].(code := s.procs[s.curr].code[1..])])
  }

  /** The current process waits for an I/O issued at this tick. */
  function Issue(s: Sys, clock: nat, policy: Policy): Sys
    requires s.curr < |s.procs|
  {
    var p := s.procs[s.curr];
    var s1 := s.(procs := s.procs[s.curr := p.(state := BLOCKED, finish := p.finish + [clock + policy.ioLength + 1])]);
    if policy.switch == SWITCH_ON_IO then NextProc(s1) else s1
  }

  /** The part of a tick after the completions. */
  function Step(s: Sys, clock: nat, policy: Policy): Sys
    requires s.curr < |s.procs|
  {
    if CanExecute(s) then
      var s1 := Execute(s);
      CheckIfDone(if s.procs[s.curr].code[0] == Io then Issue(s1, clock, policy) else s1)
    else CheckIfDone(s)
  }

  function Tick(s: Sys, clock: nat, policy: Policy): Sys
    requires s.curr < |s.procs|
  {
    Step(WakeDue(s, clock, policy), clock, policy)
  }

  predicate Active(p: Proc) {
    p.state != DONE
  }

  // ---------------------------------------------------------------------------------------
  // The invariant
  // ---------------------------------------------------------------------------------------

  /** Every I/O instruction is followed by the instruction that handles its completion. */
  predicate Paired(code: seq<Instr>) {
    forall i :: 0 <= i < |code| && code[i] == Io ==> i + 1 < |code| && code[i + 1] == IoDone
  }

  /** An I/O of negative length would complete before it is issued, that is, never. */
  predicate Completes(code: seq<Instr>, ioLength: int) {
    ioLength >= 0 || forall i :: 0 <= i < |code| ==> code[i] != Io
  }

  /** A BLOCKED process has exactly one completion time ahead, its last; any other process
      has none. */
  predicate FinishOk(p: Proc, clock: nat, ioLength: int) {
    && (forall i :: 0 <= i < |p.finish| - 1 ==> p.finish[i] <= clock)
    && (forall i :: 0 <= i < |p.finish| ==> p.finish[i] <= clock + ioLength + 1)
    && if p.state == BLOCKED then p.finish != [] && p.finish[|p.finish| - 1] > clock
       else p.finish != [] ==> p.finish[|p.finish| - 1] <= clock
  }

  predicate ProcOk(p: Proc, clock: nat, ioLength: int) {
    && Paired(p.code) && FinishOk(p, clock, ioLength) && Completes(p.code, ioLength)
    && (p.state == DONE ==> p.code == []) && (p.state == BLOCKED ==> p.code != [])
  }

  function Ahead(p: Proc): int {
    if p.finish == [] then 0 else p.finish[|p.finish| - 1]
  }

  /** Where a process is READY, the one that comes first going round from the one after the
      current runs, and nothing else changes; where none is, nothing does. */
  predicate GoesToNearest(s: Sys, s': Sys)
    requires s.curr < |s.procs|
  {
    if SomeReady(s.procs) then
      && s'.curr < |s.procs| && s.procs[s'.curr].state == READY
      && s'.procs == s.procs[s'.curr := s.procs[s'.curr].(state := RUNNING)]
      && forall p :: 0 <= p < |s.procs| && s.procs[p].state == READY ==> (s'.curr - s.curr - 1) % |s.procs| <= (p - s.curr - 1) % |s.procs|
    else s' == s
  }

  /** A current process that runs without code left is done, and the next one runs. */
  predicate Retires(s: Sys, s': Sys)
    requires s.curr < |s.procs|
  {
    if s.procs[s.curr].state == RUNNING && s.procs[s.curr].code == [] then
      GoesToNearest(Sys(s.procs[s.curr := s.procs[s.curr].(state := DONE)], s.curr), s')
    else s' == s
  }

  /** What the end of an I/O of process `pid` leads to.  The process runs, instead of the one
      that runs now if the policy says so at once; only under IO_RUN_LATER and SWITCH_ON_IO,
      and if another process can run, it waits for its turn. */
  predicate Wakes(s: Sys, pid: nat, policy: Policy, s': Sys)
    requires s.curr < |s.procs| && pid < |s.procs|
  {
    var others := exists p :: 0 <= p < |s.procs| && p != pid && (s.procs[p].state == READY || s.procs[p].state == RUNNING);
    var demoted := policy.ioDone == IO_RUN_IMMEDIATE && s.curr != pid && s.procs[s.curr].state == RUNNING;
    if policy.ioDone == IO_RUN_LATER && policy.switch == SWITCH_ON_IO && others then
      Retires(Sys(s.procs[pid := s.procs[pid].(state := READY)], s.curr), s')
    else
      var procs := if demoted then s.procs[s.curr := s.procs[s.curr].(state := READY)] else s.procs;
      Retires(Sys(procs[pid := s.procs[pid].(state := RUNNING)], pid), s')
  }

  /** At most one process is RUNNING, the current one; completion times ahead are distinct. */
  predicate Orderly(s: Sys) {
    && (forall p :: 0 <= p < |s.procs| && s.procs[p].state == RUNNING ==> p == s.curr)
    && (forall p, q :: 0 <= p < q < |s.procs| && s.procs[p].state == BLOCKED && s.procs[q].state == BLOCKED ==>
          Ahead(s.procs[p]) != Ahead(s.procs[q]))
  }

  predicate SomeReady(ps: seq<Proc>) {
    exists p :: 0 <= p < |ps| && ps[p].state == READY
  }

  /** A READY process implies a RUNNING one; only where processes are not switched on I/O may
      the current one be waiting instead, and then no other waits. */
  predicate Progressing(s: Sys, switch: SwitchBehavior)
    requires s.curr < |s.procs|
  {
    var state := s.procs[s.curr].state;
    && (SomeReady(s.procs) ==> state == RUNNING || (switch == SWITCH_ON_END && state == BLOCKED))
    && (switch == SWITCH_ON_END ==> forall p :: 0 <= p < |s.procs| && s.procs[p].state == BLOCKED ==> p == s.curr)
  }

  predicate Inv(s: Sys, clock: nat, policy: Policy) {
    && s.curr < |s.procs|
    && (forall p :: 0 <= p < |s.procs| ==> ProcOk(s.procs[p], clock, policy.ioLength))
    && Orderly(s) && Progressing(s, policy.switch)
  }
}
