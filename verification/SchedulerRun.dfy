/** Whole runs of the scheduler: the asserted state transitions never fail, every run ends, and
    its statistics are those the programs determine. */
module SchedulerRun {
  import opened SchedulerSpec
  import opened SchedulerLaws

  /** Processes as loading leaves them. */
  predicate Loaded(ps: seq<Proc>) {
    forall p :: 0 <= p < |ps| ==> ps[p].state == READY && ps[p].finish == [] && Paired(ps[p].code)
  }

  /** Whether these programs ever end with I/Os of this length: as long as it is not negative,
      or there are no I/Os. */
  predicate Terminates(ps: seq<Proc>, ioLength: int) {
    ioLength >= 0 || Ios(ps) == 0
  }

  /** The first process starts. */
  function Started(ps: seq<Proc>): Sys
    requires |ps| > 0
  {
    RunProc(Sys(ps, 0), 0)
  }

  /** The system after `n` ticks of the clock. */
  function After(s: Sys, n: nat, policy: Policy): Sys {
    if n == 0 then s
    else
      var s' := After(s, n - 1, policy);
      if s'.curr < |s'.procs| then Tick(s', n, policy) else s'
  }

  // ---------------------------------------------------------------------------------------
  // I/Os in flight
  // ---------------------------------------------------------------------------------------

  function Later(times: seq<int>, clock: nat): nat {
    if times == [] then 0 else Later(times[..|times| - 1], clock) + (if times[|times| - 1] > clock then 1 else 0)
  }

  /** The I/Os, of all processes, that complete after this tick. */
  function InFlight(ps: seq<Proc>, clock: nat): nat {
    if ps == [] then 0 else InFlight(ps[..|ps| - 1], clock) + Later(ps[|ps| - 1].finish, clock)
  }

  lemma {:induction false} NoneLater(times: seq<int>, clock: nat)
    requires forall i :: 0 <= i < |times| ==> times[i] <= clock
    ensures Later(times, clock) == 0
  {
    if times != [] { NoneLater(times[..|times| - 1], clock); }
  }

  /** Every BLOCKED process has exactly one I/O in flight, and no other process has any. */
  lemma {:induction false} InFlightIsWaiting(ps: seq<Proc>, clock: nat, ioLength: int)
    requires forall p :: 0 <= p < |ps| ==> FinishOk(ps[p], clock, ioLength)
    ensures InFlight(ps, clock) == Count(ps, Waiting)
  {
    if ps != [] {
      var n := |ps| - 1;
      assert forall p :: 0 <= p < n ==> ps[..n][p] == ps[p];
      InFlightIsWaiting(ps[..n], clock, ioLength);
      assert FinishOk(ps[n], clock, ioLength);
      LaterOf(ps[n], clock, ioLength);
    }
  }

  // ---------------------------------------------------------------------------------------
  // Statistics
  // ---------------------------------------------------------------------------------------

  /** What tick `n` displays: the state once its completions are handled. */
  function Shown(s: Sys, n: nat, policy: Policy): Sys
    requires n > 0
  {
    var s' := After(s, n - 1, policy);
    if s'.curr < |s'.procs| then WakeDue(s', n, policy) else s'
  }

  predicate Executes(s: Sys, n: nat, policy: Policy)
    requires n > 0
  {
    var shown := Shown(s, n, policy);
    shown.curr < |shown.procs| && CanExecute(shown)
  }

  predicate IoGoesOn(s: Sys, n: nat, policy: Policy)
    requires n > 0
  {
    InFlight(Shown(s, n, policy).procs, n) > 0
  }

  /** Of the first `n` ticks, those in which an instruction was executed. */
  function CpuTicks(s: Sys, n: nat, policy: Policy): nat {
    if n == 0 then 0 else CpuTicks(s, n - 1, policy) + (if Executes(s, n, policy) then 1 else 0)
  }

  /** Of the first `n` ticks, those in which some I/O was in flight. */
  function IoTicks(s: Sys, n: nat, policy: Policy): nat {
    if n == 0 then 0 else IoTicks(s, n - 1, policy) + (if IoGoesOn(s, n, policy) then 1 else 0)
  }

  function Instructions(ps: seq<Proc>): nat {
    if ps == [] then 0 else Instructions(ps[..|ps| - 1]) + |ps[|ps| - 1].code|
  }

  function CodeIos(code: seq<Instr>): nat {
    if code == [] then 0 else (if code[0] == Io then 1 else 0) + CodeIos(code[1..])
  }

  function Ios(ps: seq<Proc>): nat {
    if ps == [] then 0 else Ios(ps[..|ps| - 1]) + CodeIos(ps[|ps| - 1].code)
  }

  function Empties(ps: seq<Proc>): nat {
    if ps == [] then 0 else Empties(ps[..|ps| - 1]) + (if ps[|ps| - 1].code == [] then 1 else 0)
  }

  /** How long the programs take if no I/O overlaps anything. */
  function LongestRun(ps: seq<Proc>, ioLength: int): int {
    Instructions(ps) + ioLength * Ios(ps) + Empties(ps)
  }

  lemma Distribute(x: int, a: nat, b: nat)
    ensures x * (a + b) == x * a + x * b
  {
  }

  lemma {:induction false} IoTimeIsIos(code: seq<Instr>, ioLength: int)
    ensures IoTime(code, ioLength) == ioLength * CodeIos(code)
  {
    if code != [] {
      IoTimeIsIos(code[1..], ioLength);
      Distribute(ioLength, if code[0] == Io then 1 else 0, CodeIos(code[1..]));
    }
  }

  lemma {:induction false} LoadedSums(ps: seq<Proc>, ioLength: int)
    requires Loaded(ps)
    ensures Remaining(ps, 0, ioLength) == Rest(Instructions(ps), ioLength * Ios(ps), LongestRun(ps, ioLength))
  {
    if ps != [] {
      var n := |ps| - 1;
      assert forall p :: 0 <= p < n ==> ps[..n][p] == ps[p];
      LoadedSums(ps[..n], ioLength);
      IoTimeIsIos(ps[n].code, ioLength);
      Distribute(ioLength, Ios(ps[..n]), CodeIos(ps[n].code));
    }
  }

  lemma {:induction false} LoadedCompletes(ps: seq<Proc>, ioLength: int)
    requires Terminates(ps, ioLength)
    ensures forall p :: 0 <= p < |ps| ==> Completes(ps[p].code, ioLength)
  {
    if ioLength < 0 {
      forall p | 0 <= p < |ps| ensures Completes(ps[p].code, ioLength) {
        NoIos(ps, p);
        NoCodeIos(ps[p].code);
      }
    }
  }

  lemma {:induction false} NoIos(ps: seq<Proc>, p: nat)
    requires p < |ps| && Ios(ps) == 0
    ensures CodeIos(ps[p].code) == 0
  {
    var n := |ps| - 1;
    if p < n {
      NoIos(ps[..n], p);
      assert ps[..n][p] == ps[p];
    }
  }

  lemma {:induction false} NoCodeIos(code: seq<Instr>)
    ensures CodeIos(code) == 0 <==> forall i :: 0 <= i < |code| ==> code[i] != Io
  {
    if code != [] {
      assert forall i :: 0 <= i < |code[1..]| ==> code[1..][i] == code[i + 1];
      NoCodeIos(code[1..]);
      assert forall i :: 0 < i < |code| ==> code[i] == code[1..][i - 1];
    }
  }

  lemma {:induction false} StartSound(ps: seq<Proc>, policy: Policy)
    requires Loaded(ps) && |ps| > 0 && Terminates(ps, policy.ioLength)
    ensures |Started(ps).procs| == |ps| && Inv(Started(ps), 0, policy)
    ensures Remaining(Started(ps).procs, 0, policy.ioLength) == Rest(Instructions(ps), policy.ioLength * Ios(ps), LongestRun(ps, policy.ioLength))
  {
    LoadedSums(ps, policy.ioLength);
    LoadedCompletes(ps, policy.ioLength);
    hide Sum, LongestRun, Instructions, Ios;
    MoveSum(Sys(ps, 0), 0, RUNNING, ByCode);
    MoveSum(Sys(ps, 0), 0, RUNNING, ByIo(0, policy.ioLength));
    MoveSum(Sys(ps, 0), 0, RUNNING, ByTime(0, policy.ioLength));
  }

  /** What is left after `n` ticks of a run, by its statistics. */
  predicate OnTrack(ps: seq<Proc>, n: nat, policy: Policy, rest: Rest)
    requires |ps| > 0
  {
    && rest.code == Instructions(ps) - CpuTicks(Started(ps), n, policy)
    && rest.io <= policy.ioLength * Ios(ps) - IoTicks(Started(ps), n, policy)
    && rest.time <= LongestRun(ps, policy.ioLength) - n
    && (policy.switch == SWITCH_ON_END ==>
          rest.io == policy.ioLength * Ios(ps) - IoTicks(Started(ps), n, policy) && rest.time == LongestRun(ps, policy.ioLength) - n)
  }

  /** Before the end, every tick of a run keeps the invariant, so that no asserted transition
      fails, and the run has come as far as its statistics say. */
  lemma {:induction false} RunSound(ps: seq<Proc>, n: nat, policy: Policy)
    requires Loaded(ps) && |ps| > 0 && Terminates(ps, policy.ioLength) && forall m :: 0 <= m < n ==> !AllDone(After(Started(ps), m, policy).procs)
    ensures
      var s := After(Started(ps), n, policy);
      |s.procs| == |ps| && Inv(s, n, policy) && OnTrack(ps, n, policy, Remaining(s.procs, n, policy.ioLength))
  {
    hide *;
    if n == 0 {
      StartSound(ps, policy);
      NoTicks(Started(ps), policy);
      TrackStart(ps, policy);
    } else {
      RunSound(ps, n - 1, policy);
      var s := After(Started(ps), n - 1, policy);
      TickKeeps(s, n - 1, policy);
      OneMoreTick(Started(ps), n, policy);
      TrackTick(ps, n, policy);
    }
  }

  /** At the end of every tick of a run at most one process is RUNNING, and it is the current
      one; each BLOCKED process has exactly one completion time ahead, and no other process any;
      and under SWITCH_ON_IO a READY process implies a RUNNING one. */
  lemma {:induction false} EveryTick(ps: seq<Proc>, n: nat, policy: Policy)
    requires Loaded(ps) && |ps| > 0 && Terminates(ps, policy.ioLength) && forall m :: 0 <= m < n ==> !AllDone(After(Started(ps), m, policy).procs)
    ensures
      var s := After(Started(ps), n, policy);
      && |s.procs| == |ps| && s.curr < |ps|
      && (forall p :: 0 <= p < |ps| && s.procs[p].state == RUNNING ==> p == s.curr)
      && (forall p :: 0 <= p < |ps| ==> Later(s.procs[p].finish, n) == if s.procs[p].state == BLOCKED then 1 else 0)
      && (policy.switch == SWITCH_ON_IO && SomeReady(s.procs) ==> s.procs[s.curr].state == RUNNING)
  {
    RunSound(ps, n, policy);
    hide After, Started, Loaded, AllDone, OnTrack, Paired, SomeReady, Later;
    var s := After(Started(ps), n, policy);
    forall p | 0 <= p < |ps| ensures Later(s.procs[p].finish, n) == if s.procs[p].state == BLOCKED then 1 else 0 {
      assert ProcOk(s.procs[p], n, policy.ioLength);
      LaterOf(s.procs[p], n, policy.ioLength);
    }
  }

  lemma {:induction false} LaterOf(p: Proc, clock: nat, ioLength: int)
    requires FinishOk(p, clock, ioLength)
    ensures Later(p.finish, clock) == if p.state == BLOCKED then 1 else 0
  {
    if p.finish != [] { NoneLater(p.finish[..|p.finish| - 1], clock); }
  }

  lemma {:induction false} TickKeeps(s: Sys, clock: nat, policy: Policy)
    requires Inv(s, clock, policy) && !AllDone(s.procs)
    ensures s.curr < |s.procs| && |Tick(s, clock + 1, policy).procs| == |s.procs| && Inv(Tick(s, clock + 1, policy), clock + 1, policy)
  {
    StartOf(s, clock, policy);
    hide *;
    TickSound(s, clock, policy);
  }

  lemma {:induction false} TrackStart(ps: seq<Proc>, policy: Policy)
    requires Loaded(ps) && |ps| > 0 && Terminates(ps, policy.ioLength)
    ensures OnTrack(ps, 0, policy, Remaining(Started(ps).procs, 0, policy.ioLength))
  {
    StartSound(ps, policy);
    hide Started, Remaining, Instructions, Ios, LongestRun;
  }

  lemma {:induction false} TrackTick(ps: seq<Proc>, n: nat, policy: Policy)
    requires |ps| > 0 && n > 0
    requires
      var s := After(Started(ps), n - 1, policy);
      Inv(s, n - 1, policy) && !AllDone(s.procs) && OnTrack(ps, n - 1, policy, Remaining(s.procs, n - 1, policy.ioLength))
    ensures OnTrack(ps, n, policy, Remaining(After(Started(ps), n, policy).procs, n, policy.ioLength))
  {
    hide *;
    var s0 := Started(ps);
    var s := After(s0, n - 1, policy);
    StartOf(s, n - 1, policy);
    TickSound(s, n - 1, policy);
    ShownFlight(s, n - 1, policy);
    OneMoreTick(s0, n, policy);
    var woken := WakeDue(s, n, policy);
    TrackStep(ps, n, policy, Remaining(s.procs, n - 1, policy.ioLength), Remaining(Tick(s, n, policy).procs, n, policy.ioLength),
              if CanExecute(woken) then 1 else 0, Count(woken.procs, Waiting));
  }

  lemma {:induction false} TrackStep(ps: seq<Proc>, n: nat, policy: Policy, a: Rest, b: Rest, cpu: nat, waiting: nat)
    requires |ps| > 0 && n > 0 && OnTrack(ps, n - 1, policy, a)
    requires b.code == a.code - cpu && b.io == a.io - waiting && b.time < a.time
    requires policy.switch == SWITCH_ON_END ==> b.time == a.time - 1 && waiting <= 1
    requires CpuTicks(Started(ps), n, policy) == CpuTicks(Started(ps), n - 1, policy) + cpu
    requires IoTicks(Started(ps), n, policy) == IoTicks(Started(ps), n - 1, policy) + (if waiting > 0 then 1 else 0)
    ensures OnTrack(ps, n, policy, b)
  {
    hide Started, CpuTicks, IoTicks, Instructions, Ios, LongestRun;
  }

  lemma {:induction false} NoTicks(s: Sys, policy: Policy)
    ensures After(s, 0, policy) == s && CpuTicks(s, 0, policy) == IoTicks(s, 0, policy) == 0
  {
  }

  lemma {:induction false} OneMoreTick(s0: Sys, n: nat, policy: Policy)
    requires n > 0 && After(s0, n - 1, policy).curr < |After(s0, n - 1, policy).procs|
    ensures
      var s := After(s0, n - 1, policy);
      var shown := WakeDue(s, n, policy);
      && After(s0, n, policy) == Tick(s, n, policy)
      && (shown.curr < |shown.procs| ==>
            CpuTicks(s0, n, policy) == CpuTicks(s0, n - 1, policy) + (if CanExecute(shown) then 1 else 0))
      && IoTicks(s0, n, policy) == IoTicks(s0, n - 1, policy) + (if InFlight(shown.procs, n) > 0 then 1 else 0)
  {
    hide Tick, WakeDue, CanExecute, InFlight;
  }

  lemma {:induction false} ShownFlight(s: Sys, clock: nat, policy: Policy)
    requires Inv(s, clock, policy)
    ensures s.curr < |s.procs| && InFlight(WakeDue(s, clock + 1, policy).procs, clock + 1) == Count(WakeDue(s, clock + 1, policy).procs, Waiting)
  {
    WakeDueSound(s, clock, policy);
    hide WakeDue, Orderly, Progressing, Remaining, Earlier;
    InFlightIsWaiting(WakeDue(s, clock + 1, policy).procs, clock + 1, policy.ioLength);
  }

  lemma {:induction false} NothingLeft(ps: seq<Proc>, clock: nat, ioLength: int)
    requires AllDone(ps) && forall p :: 0 <= p < |ps| ==> ProcOk(ps[p], clock, ioLength)
    ensures Remaining(ps, clock, ioLength) == Rest(0, 0, 0)
  {
    if ps != [] {
      var n := |ps| - 1;
      assert forall p :: 0 <= p < n ==> ps[..n][p] == ps[p];
      NothingLeft(ps[..n], clock, ioLength);
      assert ProcOk(ps[n], clock, ioLength);
    }
  }

  /** At the end of a run every instruction has been executed exactly once, in no more ticks
      than a run without any overlap takes, and I/O was in flight for no more ticks than the
      I/Os are long together; both bounds are met under SWITCH_ON_END. */
  lemma {:induction false} FinalStatistics(ps: seq<Proc>, n: nat, policy: Policy)
    requires Loaded(ps) && |ps| > 0 && Terminates(ps, policy.ioLength) && forall m :: 0 <= m < n ==> !AllDone(After(Started(ps), m, policy).procs)
    requires AllDone(After(Started(ps), n, policy).procs)
    ensures CpuTicks(Started(ps), n, policy) == Instructions(ps)
    ensures n <= LongestRun(ps, policy.ioLength)
    ensures IoTicks(Started(ps), n, policy) <= policy.ioLength * Ios(ps)
    ensures policy.switch == SWITCH_ON_END ==>
              n == LongestRun(ps, policy.ioLength) && IoTicks(Started(ps), n, policy) == policy.ioLength * Ios(ps)
  {
    RunSound(ps, n, policy);
    hide After, Remaining, LongestRun, CpuTicks, IoTicks, Instructions, Ios, AllDone, ProcOk, Started, Orderly, Progressing;
    NothingLeft(After(Started(ps), n, policy).procs, n, policy.ioLength);
  }

  /** A run cannot go on beyond that bound. */
  lemma {:induction false} RunGoesNoFurther(ps: seq<Proc>, n: nat, policy: Policy)
    requires Loaded(ps) && |ps| > 0 && Terminates(ps, policy.ioLength) && forall m :: 0 <= m < n ==> !AllDone(After(Started(ps), m, policy).procs)
    ensures n <= LongestRun(ps, policy.ioLength)
  {
    RunSound(ps, n, policy);
    hide After, LongestRun, CpuTicks, IoTicks, Instructions, Ios, AllDone, Started, Paired, Sum, Orderly, Progressing;
    Left(After(Started(ps), n, policy).procs, n, policy.ioLength);
  }

  /** Every run ends, for every program set and every policy. */
  lemma {:induction false} RunEnds(ps: seq<Proc>, n: nat, policy: Policy) returns (end: nat)
    requires Loaded(ps) && |ps| > 0 && Terminates(ps, policy.ioLength) && n <= LongestRun(ps, policy.ioLength)
    requires forall m :: 0 <= m < n ==> !AllDone(After(Started(ps), m, policy).procs)
    ensures end <= LongestRun(ps, policy.ioLength) && AllDone(After(Started(ps), end, policy).procs)
    ensures forall m :: 0 <= m < end ==> !AllDone(After(Started(ps), m, policy).procs)
    decreases LongestRun(ps, policy.ioLength) - n
  {
    hide After, LongestRun, AllDone, Loaded;
    if AllDone(After(Started(ps), n, policy).procs) {
      end := n;
    } else {
      RunGoesNoFurther(ps, n + 1, policy);
      end := RunEnds(ps, n + 1, policy);
    }
  }
}
