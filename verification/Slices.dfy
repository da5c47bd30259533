// The quanta of the feedback queue: when exactly a call preempts, and how long a process that
// has been dispatched keeps the CPU (src/kernel/scheduler.cpp:174-276).
module Slices {
  import opened Options
  import opened Machine
  import opened MachineLaws
  import opened Processes
  import opened System
  import opened Census
  import opened Timekeeping
  import opened Levels
  import opened Fairness
  import Feedback

  // The running process, of priority 0, 1 or 2, has used up a quantum: its clock is a positive
  // multiple of quantum, quantum * scaler or quantum * 1000.
  predicate UsedUp(q: int, f: int, priority: int, clock: int) {
    clock > 0 &&
    if priority == 0 then q >= 1 && clock % q == 0
    else if priority == 1 then q * f >= 1 && clock % (q * f) == 0
    else q * 1000 >= 1 && clock % (q * 1000) == 0
  }

  // When a process runs, an MLFQ call preempts it exactly when it has used up its quantum and
  // someone is ready after admission. What is seen of it: the quantum clock starts again, and
  // the process is charged, saved and queued; otherwise it executes and its clock goes on.
  lemma PreemptsExactly(q: int, f: int, s: State, h: nat)
    requires q >= 1 && f >= 1 && Steady(s) && s.running == Some(h)
    ensures var p, a := Mlfq(q, f), Admit(s);
            var out := UsedUp(q, f, Prio(s, h), s.quantumClock) && !NoneReady(a);
            && (Preempts(p, DispatchIdle(p, a)) <==> out)
            && Prepare(p, s).quantumClock == (if out then 0 else s.quantumClock)
            && (!out ==> Executor(p, s) == Some(h))
            && (out ==> Executor(p, s).Some? && Get(Prepare(p, s), h).cpu == s.cpu)
  {
    var p, a := Mlfq(q, f), Admit(s);
    AdmitGrows(s);
    AdmitPlaces(s, h);
    assert Places(s, h) == if h < |s.pcbs| then 1 else 0;
    assert Prio(a, h) == Prio(s, h) && DispatchIdle(p, a) == a;
    Product(q, f);
    AdmitCpu(s);
    hide Admit;
    if Preempts(p, a) {
      PreemptSees(p, a, h);
    }
  }

  // When a process runs, a round-robin call preempts it exactly when its clock is a positive
  // multiple of the quantum and somebody of the highest level is ready after admission; being
  // ready at a lower level is not enough. Nothing else changes the clock before the cycle.
  lemma RoundRobinPreempts(q: int, s: State, h: nat)
    requires q >= 1 && Steady(s) && s.running == Some(h)
    ensures var p, a := Rr(q), Admit(s);
            var out := s.quantumClock > 0 && s.quantumClock % q == 0 && a.ready[0] != [];
            && (out ==> Executor(p, s) == Some(a.ready[0][0]))
            && (out ==> TagOf(Prepare(p, s), Executor(p, s)) == Running && Get(Prepare(p, s), h).cpu == s.cpu)
            && (!out ==> Prepare(p, s) == a)
            && Prepare(p, s).quantumClock == s.quantumClock
  {
    var p, a := Rr(q), Admit(s);
    AdmitGrows(s);
    AdmitPlaces(s, h);
    assert Places(s, h) == if h < |s.pcbs| then 1 else 0;
    assert DispatchIdle(p, a) == a;
    AdmitCpu(s);
    AdmitExist(s);
    hide Admit;
    if Preempts(p, a) {
      RotateSees(p, a, h);
    }
  }

  function TagOf(s: State, o: Option<nat>): Tag {
    if o.Some? then Get(s, o.value).tag else Created
  }

  // Whoever heads the queue exists.
  lemma AdmitExist(s: State)
    requires Sound(s)
    ensures var a := Admit(s);
            a.ready[0] != [] ==> a.ready[0][0] < |a.pcbs|
  {
    var a := Admit(s);
    if a.ready[0] != [] {
      var x := a.ready[0][0];
      AdmitPlaces(s, x);
      assert Places(s, x) == if x < |s.pcbs| then 1 else 0;
      assert x in multiset(a.ready[0]);
    }
  }

  lemma RotateSees(p: Policy, s: State, h: nat)
    requires p.Rr? && Preempts(p, s) && s.running == Some(h) && h < |s.pcbs| && Ranged(s)
    requires s.ready[0] != [] && s.ready[0][0] < |s.pcbs|
    ensures var t := Preempt(p, s);
            && t.running == Some(s.ready[0][0]) && TagOf(t, t.running) == Running
            && Get(t, h).cpu == s.cpu && t.quantumClock == s.quantumClock
  {
    var c := Charge(p, s, h);
    assert c.ready == s.ready && Get(c, h).cpu == s.cpu && |c.pcbs| == |s.pcbs| && c.quantumClock == s.quantumClock;
    hide Charge;
    var e := Enqueue(c, h, Ready);
    assert e.ready[0] != [] && e.ready[0][0] == s.ready[0][0] && Get(e, h).cpu == s.cpu && |e.pcbs| == |s.pcbs|;
    assert e.quantumClock == s.quantumClock;
    hide Enqueue;
  }

  lemma {:induction false} AdmitCpu(s: State)
    ensures Admit(s).cpu == s.cpu
    decreases |s.arrived|
  {
    if s.arrived != [] {
      AdmitCpu(Enqueue(s.(arrived := s.arrived[1..]), s.arrived[0], Ready));
    }
  }

  lemma PreemptSees(p: Policy, s: State, h: nat)
    requires p.Mlfq? && Preempts(p, s) && s.running == Some(h) && h < |s.pcbs| && Ranged(s)
    ensures var t := Preempt(p, s);
            t.quantumClock == 0 && t.running.Some? && Get(t, h).cpu == s.cpu
  {
    var c := Charge(p, s, h);
    ChargeKeeps(p, s, h, h);
    assert c.quantumClock == 0 && Get(c, h).cpu == s.cpu;
    hide Charge;
    EnqueueReadyFills(c, h);
    var e := Enqueue(c, h, Ready);
    assert e.quantumClock == 0 && Get(e, h).cpu == s.cpu;
    hide Enqueue;
    SwitchInRuns(e);
    assert Get(TagRunning(SwitchIn(e)), h).cpu == Get(e, h).cpu;
  }

  // An FCFS call never moves the quantum clock, and never takes the CPU from a process.
  lemma FcfsNeverSlices(s: State)
    ensures Step(Fcfs, s).quantumClock == s.quantumClock
    ensures s.running.Some? ==> Executor(Fcfs, s) == s.running
  {
    AdmitGrows(s);
    var t := Prepare(Fcfs, s);
    assert t.quantumClock == s.quantumClock;
    hide Admit;
    hide Prepare;
    FcfsActs(t);
  }

  lemma FcfsActs(s: State)
    ensures Act(Fcfs, s).quantumClock == s.quantumClock
  {
    if s.running.Some? {
      var h := s.running.value;
      var e, code := Execute(Fcfs, s, h), CycleOf(s, h).code;
      assert e.quantumClock == s.quantumClock;
      hide Execute;
      hide CycleOf;
      ServiceClock(Park(e, h), h, code);
      TerminateClock(e, h);
      hide Service;
      hide Terminate;
    }
  }

  lemma ServiceClock(s: State, h: nat, code: int)
    ensures Service(s, h, code).quantumClock == s.quantumClock
  {
    HaltClock(s, h);
    hide Halt;
    BlockingClock(s, h);
    hide Acquire;
    hide Release;
    hide WaitSemaphore;
  }

  lemma HaltClock(s: State, h: nat)
    ensures Halt(s, h).quantumClock == s.quantumClock
  {
  }

  lemma BlockingClock(s: State, h: nat)
    ensures Acquire(s, h).quantumClock == s.quantumClock && Release(s, h).quantumClock == s.quantumClock
    ensures WaitSemaphore(s, h).quantumClock == s.quantumClock
  {
  }

  lemma TerminateClock(s: State, h: nat)
    ensures Terminate(Fcfs, s, h).quantumClock == s.quantumClock
  {
  }

  // ---------- a whole quantum ----------

  // MLFQ calls with quantum q and scaler f, and any other events, in which no executed
  // instruction is a SWI or a halt.
  predicate Undisturbed(q: int, f: int, s: State, es: seq<Event>)
    decreases |es|
  {
    es != [] ==>
      && (es[0].Tick? ==> es[0].policy == Mlfq(q, f) && CodeOf(es[0].policy, s) == 0)
      && Undisturbed(q, f, Apply(s, es[0]), es[1..])
  }

  // Every call of the run executes `h`.
  predicate Keeps(s: State, es: seq<Event>, h: nat)
    decreases |es|
  {
    es != [] ==> (es[0].Tick? ==> Executor(es[0].policy, s) == Some(h)) && Keeps(Apply(s, es[0]), es[1..], h)
  }

  // The quantum of each level, in calls.
  predicate IsQuantum(q: int, f: int, priority: int, n: int) {
    (priority == 0 && n == q) || (priority == 1 && n == q * f) || (priority == 2 && n == q * 1000)
  }

  // `h` has the CPU, on level k, and has executed c instructions since it got it.
  ghost predicate Holding(s: State, h: nat, k: int, c: int) {
    Steady(s) && s.running == Some(h) && Prio(s, h) == k && s.quantumClock == c
  }

  lemma NotYet(q: int, f: int, k: int, n: int, c: int)
    requires IsQuantum(q, f, k, n) && 0 < c < n
    ensures !UsedUp(q, f, k, c)
  {
    assert c % n == c;
  }

  // A call before the quantum is over keeps the process on the CPU.
  lemma CallKeeps(q: int, f: int, s: State, h: nat, k: int, c: int, n: int)
    requires q >= 1 && f >= 1 && Holding(s, h, k, c) && IsQuantum(q, f, k, n) && 0 < c < n
    requires CodeOf(Mlfq(q, f), s) == 0
    ensures Executor(Mlfq(q, f), s) == Some(h) && Holding(Step(Mlfq(q, f), s), h, k, c + 1)
  {
    var p := Mlfq(q, f);
    NotYet(q, f, k, n, c);
    PreemptsExactly(q, f, s, h);
    ApplySteady(s, Tick(p));
    PreparedPrio(p, s, h);
    RunsOn(p, Prepare(p, s), h);
    hide Prepare;
    hide Act;
  }

  // Unless it preempts, preparing a call changes no priority of the running process.
  lemma PreparedPrio(p: Policy, s: State, h: nat)
    requires s.running == Some(h) && !Preempts(p, DispatchIdle(p, Admit(s)))
    ensures Prio(Prepare(p, s), h) == Prio(s, h)
  {
    AdmitGrows(s);
    hide Admit;
  }

  // A cycle with code 0 leaves its process running, one tick further.
  lemma RunsOn(p: Policy, s: State, h: nat)
    requires s.running == Some(h) && CycleOf(s, h).code == 0 && !p.Fcfs?
    ensures var t := Act(p, s);
            t.running == Some(h) && t.quantumClock == s.quantumClock + 1 && Prio(t, h) == Prio(s, h)
  {
    hide Exec;
  }

  lemma QuietHolds(s: State, e: Event, h: nat, k: int, c: int)
    requires Holding(s, h, k, c) && !e.Tick?
    ensures Holding(Apply(s, e), h, k, c)
  {
    ApplySteady(s, e);
    QuietReady(s, e);
    assert Prio(Apply(s, e), h) == Prio(s, h);
  }

  // Until n calls have been made since the dispatch the process executes in every one of them.
  lemma {:induction false} HoldsOn(q: int, f: int, s: State, es: seq<Event>, h: nat, k: int, c: int, n: int)
    requires q >= 1 && f >= 1 && Holding(s, h, k, c) && IsQuantum(q, f, k, n) && 0 < c
    requires c + CallCount(es) <= n && Undisturbed(q, f, s, es)
    ensures Keeps(s, es, h) && Holding(Run(s, es), h, k, c + CallCount(es))
    decreases |es|
  {
    hide Step;
    hide Holding;
    hide IsQuantum;
    hide Executor;
    hide CodeOf;
    if es != [] {
      if es[0].Tick? {
        CallKeeps(q, f, s, h, k, c, n);
        assert Apply(s, es[0]) == Step(Mlfq(q, f), s);
        hide Apply;
        HoldsOn(q, f, Apply(s, es[0]), es[1..], h, k, c + 1, n);
      } else {
        QuietHolds(s, es[0], h, k, c);
        hide Apply;
        HoldsOn(q, f, Apply(s, es[0]), es[1..], h, k, c, n);
      }
    }
  }

  // The call that dispatches `h`: its quantum clock starts at 0 before the cycle.
  predicate Dispatched(q: int, f: int, s: State, h: nat, k: int) {
    var t := Prepare(Mlfq(q, f), s);
    t.running == Some(h) && t.quantumClock == 0 && Prio(t, h) == k
  }

  // A process dispatched at level k that makes no SWI and does not halt executes in exactly the
  // next quantum, quantum * scaler or quantum * 1000 calls, the dispatching one included, whatever
  // other events happen between them; and the call after those preempts it if and only if
  // someone is ready.
  lemma WholeQuantum(q: int, f: int, s: State, h: nat, k: int, es: seq<Event>, n: int)
    requires q >= 1 && f >= 1 && Steady(s) && Dispatched(q, f, s, h, k) && IsQuantum(q, f, k, n)
    requires CodeOf(Mlfq(q, f), s) == 0
    requires Undisturbed(q, f, Step(Mlfq(q, f), s), es) && 1 + CallCount(es) == n
    ensures var p := Mlfq(q, f);
            var t := Run(Step(p, s), es);
            && Executor(p, s) == Some(h) && Keeps(Step(p, s), es, h)
            && t.running == Some(h) && t.quantumClock == n
            && (Preempts(p, DispatchIdle(p, Admit(t))) <==> !NoneReady(Admit(t)))
            && (NoneReady(Admit(t)) ==> Executor(p, t) == Some(h))
  {
    var p := Mlfq(q, f);
    ApplySteady(s, Tick(p));
    RunsOn(p, Prepare(p, s), h);
    HoldsOn(q, f, Step(p, s), es, h, k, 1, n);
    var t := Run(Step(p, s), es);
    hide Step;
    hide Run;
    hide Prepare;
    PreemptsExactly(q, f, t, h);
    assert n % n == 0;
  }

  // Who executes after the preemption: the preempted process again exactly when no one is ready
  // at a level as high as the one it is queued on, which its fifth quantum in a row has lowered.
  lemma GivesWay(q: int, f: int, t: State, h: nat)
    requires q >= 1 && f >= 1 && Steady(t) && t.running == Some(h)
    requires UsedUp(q, f, Prio(t, h), t.quantumClock) && !NoneReady(Admit(t))
    ensures var p, a := Mlfq(q, f), Admit(t);
            var k := if Get(t, h).quantumCount >= 4 && Prio(t, h) < 2 then Prio(t, h) + 1 else Prio(t, h);
            && 0 <= k <= 2
            && (Executor(p, t) == Some(h) <==> forall j :: 0 <= j <= k ==> a.ready[j] == [])
  {
    var p, a := Mlfq(q, f), Admit(t);
    PreemptsExactly(q, f, t, h);
    AdmitGrows(t);
    AdmitPlaces(t, h);
    Feedback.AdmitLevel(t, h);
    assert Places(t, h) == if h < |t.pcbs| then 1 else 0;
    assert DispatchIdle(p, a) == a;
    hide Admit;
    RunningNotReady(a, h);
    Reselects(p, a, h);
  }

  lemma Reselects(p: Policy, s: State, h: nat)
    requires p.Mlfq? && Preempts(p, s) && s.running == Some(h) && h < |s.pcbs| && Ranged(s) && InReady(s.ready, h) == 0
    ensures var k := if Get(s, h).quantumCount >= 4 && Prio(s, h) < 2 then Prio(s, h) + 1 else Prio(s, h);
            && 0 <= k <= 2
            && (Preempt(p, s).running == Some(h) <==> forall j :: 0 <= j <= k ==> s.ready[j] == [])
  {
    var c := Charge(p, s, h);
    var k := Get(c, h).priority;
    assert c.ready == s.ready;
    assert k == if Get(s, h).quantumCount >= 4 && Prio(s, h) < 2 then Prio(s, h) + 1 else Prio(s, h);
    hide Charge;
    var e := Enqueue(c, h, Ready);
    assert e.ready == s.ready[k := s.ready[k] + [h]];
    hide Enqueue;
    var j := Top(e.ready);
    assert TagRunning(SwitchIn(e)).running == Some(e.ready[j][0]);
    if s.ready[j] != [] {
      assert e.ready[j][0] == s.ready[j][0] && s.ready[j][0] in multiset(s.ready[j]);
    }
  }
}
