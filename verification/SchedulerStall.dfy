/** When a run of the scheduler ends at all.  An I/O of negative length has its completion time
    in the past when it is issued, so its process waits for ever. */
module SchedulerStall {
  import opened SchedulerSpec
  import opened SchedulerLaws
  import opened SchedulerRun

  predicate HasIo(code: seq<Instr>) {
    exists i :: 0 <= i < |code| && code[i] == Io
  }

  /** Process `w` waits, or has an I/O before it. */
  predicate Held(s: Sys, w: nat) {
    w < |s.procs| && (s.procs[w].state == BLOCKED || HasIo(s.procs[w].code))
  }

  /** No completion lies ahead, and a process that is done has nothing left. */
  predicate Late(s: Sys, clock: int) {
    && s.curr < |s.procs|
    && (forall p, i :: 0 <= p < |s.procs| && 0 <= i < |s.procs[p].finish| ==> s.procs[p].finish[i] <= clock)
    && (forall p :: 0 <= p < |s.procs| && s.procs[p].state == DONE ==> s.procs[p].code == [])
  }

  lemma HeldNotDone(s: Sys, clock: int, w: nat)
    requires Late(s, clock) && Held(s, w)
    ensures !AllDone(s.procs)
  {
  }

  lemma NoneDue(s: Sys, clock: nat, policy: Policy)
    requires Late(s, clock)
    ensures WakeDue(s, clock + 1, policy) == s
  {
    assert forall p :: 0 <= p < |s.procs| ==> !Due(s.procs[p], clock + 1);
  }

  lemma NextProcHeld(s: Sys, clock: int, w: nat)
    requires Late(s, clock) && Held(s, w)
    ensures Late(NextProc(s), clock) && Held(NextProc(s), w)
  {
    hide HasIo;
  }

  lemma CheckHeld(s: Sys, clock: int, w: nat)
    requires Late(s, clock) && Held(s, w)
    ensures Late(CheckIfDone(s), clock) && Held(CheckIfDone(s), w)
  {
    if s.procs[s.curr].code == [] && s.procs[s.curr].state == RUNNING {
      var s1 := WithState(s, s.curr, DONE);
      assert !HasIo(s.procs[s.curr].code);
      hide HasIo;
      NextProcHeld(s1, clock, w);
    }
  }

  /** An I/O leaves its process waiting. */
  lemma IssueHeld(s: Sys, clock: nat, policy: Policy)
    requires Late(s, clock) && policy.ioLength < 0 && s.procs[s.curr].state == RUNNING
    ensures |Issue(s, clock + 1, policy).procs| == |s.procs|
    ensures Late(Issue(s, clock + 1, policy), clock + 1) && Held(Issue(s, clock + 1, policy), s.curr)
  {
    var p := s.procs[s.curr];
    var s1 := s.(procs := s.procs[s.curr := p.(state := BLOCKED, finish := p.finish + [clock + 1 + policy.ioLength + 1])]);
    IssuedHeld(s, clock, clock + 1 + policy.ioLength + 1);
    hide Late, Held;
    if policy.switch == SWITCH_ON_IO {
      NextProcHeld(s1, clock + 1, s.curr);
      SameTable(s1);
    }
  }

  lemma IssuedHeld(s: Sys, clock: nat, time: int)
    requires Late(s, clock) && time <= clock + 1
    ensures
      var p := s.procs[s.curr];
      var s1 := s.(procs := s.procs[s.curr := p.(state := BLOCKED, finish := p.finish + [time])]);
      Late(s1, clock + 1) && Held(s1, s.curr) && s1.curr < |s1.procs|
  {
    hide HasIo;
    var p := s.procs[s.curr];
    assert forall i :: 0 <= i < |p.finish + [time]| ==> (p.finish + [time])[i] <= clock + 1;
  }

  lemma SameTable(s: Sys)
    requires s.curr < |s.procs|
    ensures |NextProc(s).procs| == |s.procs|
  {
  }

  /** Any other instruction leaves the I/Os after it. */
  lemma ExecuteHeld(s: Sys, clock: nat, w: nat)
    requires Late(s, clock) && Held(s, w) && CanExecute(s)
    ensures Late(Execute(s), clock)
    ensures s.procs[s.curr].code[0] != Io ==> Held(Execute(s), w)
  {
    var code := s.procs[s.curr].code;
    if HasIo(code) && code[0] != Io {
      var i :| 0 <= i < |code| && code[i] == Io;
      assert code[1..][i - 1] == Io;
    }
  }

  lemma LateLonger(s: Sys, clock: int, clock': int)
    requires Late(s, clock) && clock <= clock'
    ensures Late(s, clock')
  {
  }

  lemma StepHeld(s: Sys, clock: nat, policy: Policy, w: nat) returns (w': nat)
    requires Late(s, clock) && Held(s, w) && policy.ioLength < 0
    ensures Late(Step(s, clock + 1, policy), clock + 1) && Held(Step(s, clock + 1, policy), w')
  {
    w' := w;
    InTable(s, clock);
    hide Late, Held, CheckIfDone, Issue;
    if CanExecute(s) {
      ExecuteHeld(s, clock, w);
      var s1 := Execute(s);
      if s.procs[s.curr].code[0] == Io {
        w' := s1.curr;
        IssueHeld(s1, clock, policy);
        CheckHeld(Issue(s1, clock + 1, policy), clock + 1, w');
      } else {
        LateLonger(s1, clock, clock + 1);
        CheckHeld(s1, clock + 1, w);
      }
    } else {
      LateLonger(s, clock, clock + 1);
      CheckHeld(s, clock + 1, w);
    }
  }

  lemma {:induction false} NeverDone(ps: seq<Proc>, policy: Policy, n: nat) returns (w: nat)
    requires Loaded(ps) && |ps| > 0 && !Terminates(ps, policy.ioLength)
    ensures Late(After(Started(ps), n, policy), n) && Held(After(Started(ps), n, policy), w)
  {
    hide Late, Held, Step, WakeDue, Loaded, Terminates, Started, After;
    Negative(ps, policy.ioLength);
    if n == 0 {
      w := StartHeld(ps, policy);
    } else {
      var w0 := NeverDone(ps, policy, n - 1);
      var s := After(Started(ps), n - 1, policy);
      InTable(s, n - 1);
      NoneDue(s, n - 1, policy);
      w := StepHeld(s, n - 1, policy, w0);
      AfterStep(Started(ps), n, policy);
    }
  }

  lemma StartHeld(ps: seq<Proc>, policy: Policy) returns (w: nat)
    requires Loaded(ps) && |ps| > 0 && Ios(ps) > 0
    ensures Late(After(Started(ps), 0, policy), 0) && Held(After(Started(ps), 0, policy), w)
  {
    w := SomeIo(ps);
    hide Ios, HasIo;
  }

  lemma AfterStep(s0: Sys, n: nat, policy: Policy)
    requires n > 0
    requires var s := After(s0, n - 1, policy); s.curr < |s.procs| && WakeDue(s, n, policy) == s
    ensures After(s0, n, policy) == Step(After(s0, n - 1, policy), n, policy)
  {
    hide Step, WakeDue;
  }

  lemma Negative(ps: seq<Proc>, ioLength: int)
    requires !Terminates(ps, ioLength)
    ensures ioLength < 0 && Ios(ps) > 0
  {
  }

  lemma InTable(s: Sys, clock: int)
    requires Late(s, clock)
    ensures s.curr < |s.procs|
  {
  }

  lemma {:induction false} SomeIo(ps: seq<Proc>) returns (p: nat)
    requires Ios(ps) > 0
    ensures p < |ps| && HasIo(ps[p].code)
  {
    var n := |ps| - 1;
    if CodeIos(ps[n].code) > 0 {
      p := n;
      NoCodeIos(ps[n].code);
    } else {
      p := SomeIo(ps[..n]);
    }
  }

  /** A run ends if and only if I/Os have a length that is not negative, or there are none. */
  lemma EndsExactly(ps: seq<Proc>, policy: Policy)
    requires Loaded(ps) && |ps| > 0
    ensures (exists n: nat :: AllDone(After(Started(ps), n, policy).procs)) <==> Terminates(ps, policy.ioLength)
  {
    hide Loaded, Started, AllDone, Held, Late, Terminates;
    if Terminates(ps, policy.ioLength) {
      RoomToRun(ps, policy.ioLength);
      var end := RunEnds(ps, 0, policy);
    } else {
      forall n: nat ensures !AllDone(After(Started(ps), n, policy).procs) {
        var w := NeverDone(ps, policy, n);
        HeldNotDone(After(Started(ps), n, policy), n, w);
      }
    }
  }

  lemma RoomToRun(ps: seq<Proc>, ioLength: int)
    requires Terminates(ps, ioLength)
    ensures LongestRun(ps, ioLength) >= 0
  {
    if Ios(ps) == 0 { assert ioLength * 0 == 0; }
  }
}
