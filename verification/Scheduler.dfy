/** The scheduler itself: the process table it updates in place, and the loops that do so. */
module Scheduler {
  import S = SchedulerSpec
  import L = SchedulerLaws
  import R = SchedulerRun

  /** One line of a program: so many computations, or an I/O. */
  datatype Line = Compute(n: int) | DoIo

  function Repeat(n: int): seq<S.Instr> {
    if n <= 0 then [] else Repeat(n - 1) + [S.Cpu]
  }

  function Translated(program: seq<Line>): (code: seq<S.Instr>)
    ensures S.Paired(code)
  {
    if program == [] then []
    else
      var n := |program| - 1;
      Append(Translated(program[..n]), program[n])
  }

  function Append(code: seq<S.Instr>, line: Line): (code': seq<S.Instr>)
    requires S.Paired(code)
    ensures S.Paired(code')
  {
    match line
    case Compute(n) =>
      AllCpu(n);
      code + Repeat(n)
    case DoIo => code + [S.Io, S.IoDone]
  }

  lemma AllCpu(n: int)
    ensures forall i :: 0 <= i < |Repeat(n)| ==> Repeat(n)[i] == S.Cpu
  {
  }

  /** How many instructions come before line `k`: `cN` makes N of them, none if N is negative,
      and `i` makes two. */
  function LineStart(program: seq<Line>, k: nat): nat
    requires k <= |program|
  {
    if k == 0 then 0
    else
      LineStart(program, k - 1) +
        match program[k - 1]
        case Compute(n) => if n > 0 then n else 0
        case DoIo => 2
  }

  /** The code is that of the lines one after the other: so many computations each, or an I/O
      and the instruction that handles its completion. */
  predicate Loads(code: seq<S.Instr>, program: seq<Line>) {
    && |code| == LineStart(program, |program|)
    && forall i :: 0 <= i < |program| ==> LoadsLine(code, program, i)
  }

  predicate LoadsLine(code: seq<S.Instr>, program: seq<Line>, i: nat)
    requires i < |program|
  {
    var start, end := LineStart(program, i), LineStart(program, i + 1);
    && start <= end <= |code|
    && match program[i]
       case Compute(_) => forall j :: start <= j < end ==> code[j] == S.Cpu
       case DoIo => code[start] == S.Io && code[start + 1] == S.IoDone
  }

  lemma {:induction false} StartOfPrefix(program: seq<Line>, n: nat, k: nat)
    requires k <= n <= |program|
    ensures LineStart(program[..n], k) == LineStart(program, k)
  {
    if k > 0 { StartOfPrefix(program, n, k - 1); }
  }

  lemma {:induction false} RepeatLength(n: int)
    ensures |Repeat(n)| == if n > 0 then n else 0
    decreases if n > 0 then n else 0
  {
    if n > 0 { RepeatLength(n - 1); }
  }

  lemma {:induction false} LoadsMore(code: seq<S.Instr>, code': seq<S.Instr>, program: seq<Line>, n: nat, i: nat)
    requires i < n < |program| && code <= code' && Loads(code, program[..n])
    ensures LoadsLine(code', program, i)
  {
    StartOfPrefix(program, n, i);
    StartOfPrefix(program, n, i + 1);
    StartOfPrefix(program, n, n);
    assert LoadsLine(code, program[..n], i);
  }

  lemma {:induction false} LastLine(before: seq<S.Instr>, program: seq<Line>)
    requires program != [] && S.Paired(before) && |before| == LineStart(program, |program| - 1)
    ensures
      var code := Append(before, program[|program| - 1]);
      before <= code && |code| == LineStart(program, |program|) && LoadsLine(code, program, |program| - 1)
  {
    var line := program[|program| - 1];
    if line.Compute? {
      RepeatLength(line.n);
      AllCpu(line.n);
    }
  }

  lemma {:induction false} TranslatedLoads(program: seq<Line>)
    ensures Loads(Translated(program), program)
  {
    if program != [] {
      var n, code := |program| - 1, Translated(program);
      var before := Translated(program[..n]);
      TranslatedLoads(program[..n]);
      StartOfPrefix(program, n, n);
      hide LoadsLine, LineStart, Append;
      LastLine(before, program);
      forall i | 0 <= i < n ensures LoadsLine(code, program, i) { LoadsMore(before, code, program, n, i); }
    }
  }

  datatype Statistics = NoProcesses | Statistics(cpuBusy: nat, ioBusy: nat, clockTick: nat)

  /** Where a process stands in the loop over completions at tick `clock`. */
  function WokenUpTo(s: S.Sys, clock: nat, policy: S.Policy, pid: nat): S.Sys
    requires s.curr < |s.procs| && pid <= |s.procs|
  {
    var due := S.DueAt(s.procs, clock, pid);
    if due < |s.procs| then S.Wake(s, due, policy) else s
  }

  /** Some process below `pid` has a completion at tick `clock`. */
  predicate DueBefore(s: S.Sys, clock: nat, pid: nat)
    requires pid <= |s.procs|
  {
    exists p :: 0 <= p < pid && S.Due(s.procs[p], clock)
  }

  lemma LoopEnds(s: S.Sys, clock: nat, policy: S.Policy)
    requires clock > 0 && S.Inv(s, clock - 1, policy)
    ensures s.curr < |s.procs| && WokenUpTo(s, clock, policy, 0) == s && !DueBefore(s, clock, 0)
    ensures WokenUpTo(s, clock, policy, |s.procs|) == S.WakeDue(s, clock, policy)
  {
  }

  lemma DueNext(s: S.Sys, clock: nat, pid: nat)
    requires pid < |s.procs|
    ensures DueBefore(s, clock, pid + 1) == (DueBefore(s, clock, pid) || S.Due(s.procs[pid], clock))
  {
  }

  lemma DueIs(p: S.Proc, clock: nat)
    ensures S.Due(p, clock) == (clock in p.finish)
  {
  }

  lemma {:induction false} PassedOver(s: S.Sys, clock: nat, policy: S.Policy, pid: nat)
    requires S.Inv(s, clock, policy) && pid < |s.procs|
    ensures s.curr < |s.procs|
    ensures |WokenUpTo(s, clock + 1, policy, pid).procs| == |s.procs|
    ensures WokenUpTo(s, clock + 1, policy, pid).curr < |s.procs|
    ensures WokenUpTo(s, clock + 1, policy, pid).procs[pid].finish == s.procs[pid].finish
    ensures !S.Due(s.procs[pid], clock + 1) ==> WokenUpTo(s, clock + 1, policy, pid + 1) == WokenUpTo(s, clock + 1, policy, pid)
    ensures S.Due(s.procs[pid], clock + 1) ==>
              && WokenUpTo(s, clock + 1, policy, pid) == s && s.procs[pid].state == S.BLOCKED
              && WokenUpTo(s, clock + 1, policy, pid + 1) == S.Wake(s, pid, policy)
  {
    var due := S.DueAt(s.procs, clock + 1, pid);
    L.StartOf(s, clock, policy);
    if S.Due(s.procs[pid], clock + 1) { L.OneDue(s, clock, policy, pid); }
    if due < |s.procs| { L.WakeKeeps(s, clock + 1, policy, due); }
    hide S.Wake, S.Inv, S.Due;
  }

  class Scheduler {
    var procs: seq<S.Proc>
    var currProc: nat
    const policy: S.Policy

    ghost function Now(): S.Sys
      reads this
    {
      S.Sys(procs, currProc)
    }

    constructor (policy: S.Policy)
      ensures this.policy == policy && procs == [] && R.Loaded(procs)
    {
      this.policy := policy;
      procs := [];
      currProc := 0;
    }

    method NewProcess() returns (procId: nat)
      modifies this`procs
      ensures procId == |old(procs)| && procs == old(procs) + [S.Proc(S.READY, [], [])]
    {
      procId := |procs|;
      procs := procs + [S.Proc(S.READY, [], [])];
    }

    method LoadProgram(program: seq<Line>)
      requires R.Loaded(procs)
      modifies this`procs
      ensures procs == old(procs) + [S.Proc(S.READY, Translated(program), [])] && R.Loaded(procs)
      ensures Loads(procs[|old(procs)|].code, program)
    {
      hide Loads, LineStart, LoadsLine;
      TranslatedLoads(program);
      ghost var before := procs;
      var procId := NewProcess();
      var i := 0;
      while i < |program|
        invariant i <= |program| && procs == before + [S.Proc(S.READY, Translated(program[..i]), [])]
      {
        assert program[..i + 1][..i] == program[..i];
        match program[i]
        case Compute(n) =>
          ghost var start := procs[procId].code;
          assert start + Repeat(0) == start;
          var k := 0;
          while k < n
            invariant 0 <= k && (k <= n || k == 0) && procs == before + [S.Proc(S.READY, start + Repeat(k), [])]
          {
            assert start + Repeat(k + 1) == (start + Repeat(k)) + [S.Cpu];
            procs := procs[procId := procs[procId].(code := procs[procId].code + [S.Cpu])];
            k := k + 1;
          }
          assert Repeat(k) == Repeat(n);
          i := i + 1;
        case DoIo =>
          procs := procs[procId := procs[procId].(code := procs[procId].code + [S.Io, S.IoDone])];
          i := i + 1;
      }
      assert program[..i] == program;
    }

    // The moves: what each requires is what it asserts.

    method MoveToReady(expected: S.ProcState, pid: nat)
      requires pid < |procs| && procs[pid].state == expected
      modifies this`procs
      ensures Now() == S.WithState(old(Now()), pid, S.READY)
    {
      procs := procs[pid := procs[pid].(state := S.READY)];
    }

    method MoveToWait(expected: S.ProcState)
      requires currProc < |procs| && procs[currProc].state == expected
      modifies this`procs
      ensures Now() == S.WithState(old(Now()), currProc, S.BLOCKED)
    {
      procs := procs[currProc := procs[currProc].(state := S.BLOCKED)];
    }

    method MoveToRunning(expected: S.ProcState)
      requires currProc < |procs| && procs[currProc].state == expected
      modifies this`procs
      ensures Now() == S.WithState(old(Now()), currProc, S.RUNNING)
    {
      procs := procs[currProc := procs[currProc].(state := S.RUNNING)];
    }

    method MoveToDone(expected: S.ProcState)
      requires currProc < |procs| && procs[currProc].state == expected
      modifies this`procs
      ensures Now() == S.WithState(old(Now()), currProc, S.DONE)
    {
      procs := procs[currProc := procs[currProc].(state := S.DONE)];
    }

    method NextProcGiven(pid: nat)
      requires pid < |procs| && procs[pid].state == S.READY
      modifies this
      ensures Now() == S.RunProc(old(Now()), pid)
    {
      currProc := pid;
      MoveToRunning(S.READY);
    }

    /** The READY process found first, going round from the one after the current, runs; if
        there is none, nothing changes. */
    method NextProc()
      requires currProc < |procs|
      modifies this
      ensures Now() == S.NextProc(old(Now()))
      ensures (forall p :: 0 <= p < |old(procs)| ==> old(procs)[p].state != S.READY) ==> Now() == old(Now())
      ensures (exists p :: 0 <= p < |old(procs)| && old(procs)[p].state == S.READY) ==>
                && currProc < |old(procs)| && old(procs)[currProc].state == S.READY
                && procs == old(procs)[currProc := old(procs)[currProc].(state := S.RUNNING)]
      ensures forall p :: 0 <= p < |old(procs)| && old(procs)[p].state == S.READY ==>
                (currProc - old(currProc) - 1) % |procs| <= (p - old(currProc) - 1) % |procs|
    {
      L.NextIsNearest(Now());
      hide S.NextProc;
      Scan();
    }

    /** The two scans. */
    method Scan()
      requires currProc < |procs|
      modifies this
      ensures Now() == S.NextProc(old(Now()))
    {
      var pid := currProc + 1;
      while pid < |procs|
        invariant currProc < pid <= |procs|
        invariant S.FirstReady(procs, currProc + 1, |procs|) == S.FirstReady(procs, pid, |procs|)
        invariant Now() == old(Now())
      {
        if procs[pid].state == S.READY {
          NextProcGiven(pid);
          return;
        }
        pid := pid + 1;
      }
      pid := 0;
      while pid < currProc + 1
        invariant pid <= currProc + 1 <= |procs|
        invariant S.FirstReady(procs, 0, currProc + 1) == S.FirstReady(procs, pid, currProc + 1)
        invariant Now() == old(Now())
      {
        if procs[pid].state == S.READY {
          NextProcGiven(pid);
          return;
        }
        pid := pid + 1;
      }
    }

    method GetNumActive() returns (numActive: nat)
      ensures numActive == S.Count(procs, S.Active)
      ensures numActive == 0 <==> L.AllDone(procs)
    {
      numActive := 0;
      var pid := 0;
      while pid < |procs|
        invariant pid <= |procs| && numActive == S.Count(procs[..pid], S.Active)
      {
        assert procs[..pid + 1][..pid] == procs[..pid];
        if procs[pid].state != S.DONE { numActive := numActive + 1; }
        pid := pid + 1;
      }
      assert procs[..pid] == procs;
      L.CountZero(procs, S.Active);
    }

    method GetNumRunnable() returns (numActive: nat)
      ensures numActive == S.NumRunnable(procs)
    {
      numActive := 0;
      var pid := 0;
      while pid < |procs|
        invariant pid <= |procs| && numActive == S.NumRunnable(procs[..pid])
      {
        assert procs[..pid + 1][..pid] == procs[..pid];
        if procs[pid].state == S.READY || procs[pid].state == S.RUNNING { numActive := numActive + 1; }
        pid := pid + 1;
      }
      assert procs[..pid] == procs;
    }

    method GetIosInFlight(currentTime: nat) returns (numInFlight: nat)
      ensures numInFlight == R.InFlight(procs, currentTime)
    {
      numInFlight := 0;
      var pid := 0;
      while pid < |procs|
        invariant pid <= |procs| && numInFlight == R.InFlight(procs[..pid], currentTime)
      {
        assert procs[..pid + 1][..pid] == procs[..pid];
        var times := procs[pid].finish;
        var k := 0;
        while k < |times|
          invariant k <= |times| && numInFlight == R.InFlight(procs[..pid], currentTime) + R.Later(times[..k], currentTime)
        {
          assert times[..k + 1][..k] == times[..k];
          if times[k] > currentTime { numInFlight := numInFlight + 1; }
          k := k + 1;
        }
        assert times[..k] == times;
        pid := pid + 1;
      }
      assert procs[..pid] == procs;
    }

    method CheckIfDone()
      requires currProc < |procs|
      modifies this
      ensures Now() == S.CheckIfDone(old(Now())) && S.Retires(old(Now()), Now())
    {
      L.CheckRetires(Now());
      if procs[currProc].code == [] {
        if procs[currProc].state == S.RUNNING {
          MoveToDone(S.RUNNING);
          NextProc();
        }
      }
    }

    /** An I/O of process `pid` completes. */
    method FinishIo(pid: nat)
      requires currProc < |procs| && pid < |procs| && procs[pid].state == S.BLOCKED
      modifies this
      ensures Now() == S.Wake(old(Now()), pid, policy)
      ensures S.Wakes(old(Now()), pid, policy, Now())
    {
      hide S.Wakes;
      L.WakeIs(Now(), pid, policy);
      MoveToReady(S.BLOCKED, pid);
      if policy.ioDone == S.IO_RUN_IMMEDIATE {
        if currProc != pid {
          if procs[currProc].state == S.RUNNING {
            MoveToReady(S.RUNNING, currProc);
          }
        }
        NextProcGiven(pid);
      } else {
        ghost var ready := procs;
        if policy.switch == S.SWITCH_ON_END {
          var numRunnable := GetNumRunnable();
          if numRunnable > 1 {
            NextProcGiven(pid);
            L.CountSame(procs, ready, S.Runnable);
          }
        }
        var numRunnable := GetNumRunnable();
        if numRunnable == 1 {
          NextProcGiven(pid);
        }
      }
      CheckIfDone();
    }

    /** The loop over the completions of a tick. */
    method CheckIoFinish(clockTick: nat) returns (ioDone: bool)
      requires clockTick > 0 && S.Inv(Now(), clockTick - 1, policy)
      modifies this
      ensures Now() == S.WakeDue(old(Now()), clockTick, policy)
      ensures ioDone == DueBefore(old(Now()), clockTick, |old(procs)|)
    {
      hide S.Inv, S.WakeDue, WokenUpTo, DueBefore, S.Due, S.Wake, S.DueAt;
      ghost var s0 := Now();
      LoopEnds(s0, clockTick, policy);
      ioDone := false;
      var pid := 0;
      while pid < |procs|
        invariant |procs| == |s0.procs| && pid <= |s0.procs| && s0.curr < |s0.procs|
        invariant Now() == WokenUpTo(s0, clockTick, policy, pid) && ioDone == DueBefore(s0, clockTick, pid)
      {
        DueNext(s0, clockTick, pid);
        var due := CheckIoFinishOf(clockTick, pid, s0);
        ioDone := ioDone || due;
        pid := pid + 1;
      }
    }

    /** One round of that loop. */
    method CheckIoFinishOf(clockTick: nat, pid: nat, ghost s0: S.Sys) returns (due: bool)
      requires clockTick > 0 && S.Inv(s0, clockTick - 1, policy) && s0.curr < |s0.procs| && pid < |s0.procs| == |procs|
      requires Now() == WokenUpTo(s0, clockTick, policy, pid)
      modifies this
      ensures |procs| == |s0.procs| && Now() == WokenUpTo(s0, clockTick, policy, pid + 1)
      ensures due == S.Due(s0.procs[pid], clockTick)
    {
      hide S.Inv, S.Wake, S.Wakes, S.DueAt, S.Due, WokenUpTo;
      PassedOver(s0, clockTick - 1, policy, pid);
      DueIs(procs[pid], clockTick);
      DueIs(s0.procs[pid], clockTick);
      due := clockTick in procs[pid].finish;
      if due {
        L.WakeKeeps(s0, clockTick, policy, pid);
        FinishIo(pid);
      }
    }

    /** The whole simulation.  Every asserted transition holds on the way, the loop ends, and
        the statistics are exactly these: all instructions were executed, one a tick; the run
        was no longer, and I/O went on no longer, than without any overlap, which is what
        SWITCH_ON_END comes to. */
    method Run() returns (stats: Statistics)
      requires R.Loaded(procs) && R.Terminates(procs, policy.ioLength)
      modifies this
      ensures stats.NoProcesses? <==> old(procs) == []
      ensures stats.NoProcesses? ==> Now() == old(Now())
      ensures stats.Statistics? ==>
                var s0 := R.Started(old(procs));
                && Now() == R.After(s0, stats.clockTick, policy) && L.AllDone(procs)
                && (forall m :: 0 <= m < stats.clockTick ==> !L.AllDone(R.After(s0, m, policy).procs))
                && stats.cpuBusy == R.Instructions(old(procs))
                && stats.ioBusy == R.IoTicks(s0, stats.clockTick, policy) <= policy.ioLength * R.Ios(old(procs))
                && stats.clockTick <= R.LongestRun(old(procs), policy.ioLength)
                && (policy.switch == S.SWITCH_ON_END ==>
                      && stats.clockTick == R.LongestRun(old(procs), policy.ioLength)
                      && stats.ioBusy == policy.ioLength * R.Ios(old(procs)))
    {
      var clockTick := 0;
      if procs == [] { return NoProcesses; }
      ghost var ps := procs;
      currProc := 0;
      MoveToRunning(S.READY);
      assert Now() == R.Started(ps);
      hide R.Started, R.After, R.CpuTicks, R.IoTicks, R.LongestRun, R.Ios, R.Instructions, R.Terminates, L.AllDone, R.Loaded;
      var cpuBusy, ioBusy;
      clockTick, cpuBusy, ioBusy := MainLoop(ps);
      R.FinalStatistics(ps, clockTick, policy);
      stats := Statistics(cpuBusy, ioBusy, clockTick);
    }

    /** The main loop: ticks until every process is done, and no further. */
    method MainLoop(ghost ps: seq<S.Proc>) returns (clockTick: nat, cpuBusy: nat, ioBusy: nat)
      requires ps != [] && R.Loaded(ps) && R.Terminates(ps, policy.ioLength)
      requires currProc == 0 && procs == ps[0 := ps[0].(state := S.RUNNING)]
      modifies this
      ensures Now() == R.After(R.Started(ps), clockTick, policy) && L.AllDone(procs)
      ensures forall m :: 0 <= m < clockTick ==> !L.AllDone(R.After(R.Started(ps), m, policy).procs)
      ensures cpuBusy == R.CpuTicks(R.Started(ps), clockTick, policy) && ioBusy == R.IoTicks(R.Started(ps), clockTick, policy)
    {
      hide R.Started, R.After, R.CpuTicks, R.IoTicks, R.LongestRun, R.Ios, R.Instructions, R.Empties, R.Terminates, L.AllDone, R.Loaded, S.Count, S.Active;
      clockTick, cpuBusy, ioBusy := 0, 0, 0;
      FirstStarts(ps);
      R.NoTicks(R.Started(ps), policy);
      var numActive := GetNumActive();
      while numActive > 0
        invariant Now() == R.After(R.Started(ps), clockTick, policy) && (numActive == 0 <==> L.AllDone(procs))
        invariant forall m :: 0 <= m < clockTick ==> !L.AllDone(R.After(R.Started(ps), m, policy).procs)
        invariant cpuBusy == R.CpuTicks(R.Started(ps), clockTick, policy) && ioBusy == R.IoTicks(R.Started(ps), clockTick, policy)
        decreases R.LongestRun(ps, policy.ioLength) - clockTick
      {
        clockTick, cpuBusy, ioBusy := Tick(clockTick, cpuBusy, ioBusy, ps);
        numActive := GetNumActive();
        R.RunGoesNoFurther(ps, clockTick, policy);
      }
    }

    /** The body of the main loop. */
    method Tick(clock: nat, cpu: nat, io: nat, ghost ps: seq<S.Proc>) returns (clockTick: nat, cpuBusy: nat, ioBusy: nat)
      requires ps != [] && R.Loaded(ps) && R.Terminates(ps, policy.ioLength) && Now() == R.After(R.Started(ps), clock, policy)
      requires forall m :: 0 <= m <= clock ==> !L.AllDone(R.After(R.Started(ps), m, policy).procs)
      requires cpu == R.CpuTicks(R.Started(ps), clock, policy) && io == R.IoTicks(R.Started(ps), clock, policy)
      modifies this
      ensures clockTick == clock + 1 && Now() == R.After(R.Started(ps), clockTick, policy)
      ensures cpuBusy == R.CpuTicks(R.Started(ps), clockTick, policy) && ioBusy == R.IoTicks(R.Started(ps), clockTick, policy)
    {
      R.RunSound(ps, clock, policy);
      hide *;
      clockTick, cpuBusy, ioBusy := clock + 1, cpu, io;
      ghost var s := Now();
      L.StartOf(s, clock, policy);
      L.WakeDueSound(s, clock, policy);
      R.OneMoreTick(R.Started(ps), clockTick, policy);
      var ioDone := CheckIoFinish(clockTick);
      L.StartOf(Now(), clockTick, policy);
      var executed, inFlight := Advance(clockTick);
      if executed { cpuBusy := cpuBusy + 1; }
      if inFlight { ioBusy := ioBusy + 1; }
    }

    /** The rest of a tick, after the completions. */
    method Advance(clockTick: nat) returns (executed: bool, inFlight: bool)
      requires currProc < |procs|
      modifies this
      ensures Now() == S.Step(old(Now()), clockTick, policy)
      ensures executed == S.CanExecute(old(Now()))
      ensures inFlight <==> R.InFlight(old(procs), clockTick) > 0
    {
      ghost var s := Now();
      executed := false;
      var instructionToExecute := S.Cpu;
      if procs[currProc].state == S.RUNNING && |procs[currProc].code| > 0 {
        instructionToExecute := procs[currProc].code[0];
        procs := procs[currProc := procs[currProc].(code := procs[currProc].code[1..])];
        executed := true;
      }
      assert Now() == if executed then S.Execute(s) else s;
      SameFlight(s.procs, procs, clockTick);
      hide S.Issue, S.CheckIfDone, R.InFlight;
      var numOutstanding := GetIosInFlight(clockTick);
      inFlight := numOutstanding > 0;
      if executed && instructionToExecute == S.Io {
        IssueIo(clockTick);
      }
      CheckIfDone();
    }

    /** The current process has just executed an I/O instruction. */
    method IssueIo(clockTick: nat)
      requires currProc < |procs| && procs[currProc].state == S.RUNNING
      modifies this
      ensures |procs| == |old(procs)| && currProc < |procs| && Now() == S.Issue(old(Now()), clockTick, policy)
    {
      ghost var s := Now();
      MoveToWait(S.RUNNING);
      procs := procs[currProc := procs[currProc].(finish := procs[currProc].finish + [clockTick + policy.ioLength + 1])];
      ghost var waiting := s.procs[s.curr].(state := S.BLOCKED, finish := s.procs[s.curr].finish + [clockTick + policy.ioLength + 1]);
      assert procs == s.procs[s.curr := waiting];
      if policy.switch == S.SWITCH_ON_IO {
        NextProc();
      }
    }
  }

  lemma FirstStarts(ps: seq<S.Proc>)
    requires ps != []
    ensures R.Started(ps) == S.Sys(ps[0 := ps[0].(state := S.RUNNING)], 0)
  {
  }

  lemma {:induction false} SameFlight(ps: seq<S.Proc>, ps': seq<S.Proc>, clock: nat)
    requires |ps| == |ps'| && forall p :: 0 <= p < |ps| ==> ps[p].finish == ps'[p].finish
    ensures R.InFlight(ps, clock) == R.InFlight(ps', clock)
  {
    if ps != [] {
      var n := |ps| - 1;
      assert forall p :: 0 <= p < n ==> ps[..n][p] == ps[p] && ps'[..n][p] == ps'[p];
      SameFlight(ps[..n], ps'[..n], clock);
    }
  }
}
