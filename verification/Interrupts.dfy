// What a process finds after each interrupt, stated of whole calls and runs: the forked child,
// the shared-memory pointer, the string print and the semaphore it uses (src/kernel/scheduler.cpp).
module Interrupts {
  import opened Options
  import opened Machine
  import opened MachineLaws
  import opened Processes
  import opened System
  import opened Census
  import opened Timekeeping
  import opened Transparency
  import opened Opcodes
  import Levels

  // ---------- what never changes ----------

  // The fields that no call changes, with the place of one segment.
  datatype Fixed = Fixed(name: string, pid: int, load: int, size: int, first: int, semId: int, shm: Option<nat>,
                         at: int, cells: int)

  function FixedOf(s: State, x: nat, g: nat): Fixed {
    var p := Get(s, x);
    var seg := if g < |s.segments| then s.segments[g] else Segment(0, 0, 0);
    Fixed(p.name, p.pid, p.load, p.size, p.first, p.semId, p.shm, seg.load, seg.size)
  }

  ghost predicate Keeps(s: State, t: State, x: nat, g: nat) {
    FixedOf(t, x, g) == FixedOf(s, x, g) && |t.pcbs| >= |s.pcbs| && |t.segments| == |s.segments|
  }

  lemma EnqueueFixed(s: State, h: nat, t: Tag, x: nat, g: nat)
    ensures Keeps(s, Enqueue(s, h, t), x, g)
  {
  }

  lemma {:induction false} AdmitFixed(s: State, x: nat, g: nat)
    ensures Keeps(s, Admit(s), x, g)
    decreases |s.arrived|
  {
    if s.arrived != [] {
      var t := Enqueue(s.(arrived := s.arrived[1..]), s.arrived[0], Ready);
      EnqueueFixed(s.(arrived := s.arrived[1..]), s.arrived[0], Ready, x, g);
      AdmitFixed(t, x, g);
    }
  }

  lemma SwitchInFixed(s: State, x: nat, g: nat)
    ensures Keeps(s, SwitchIn(s), x, g) && Keeps(s, TagRunning(SwitchIn(s)), x, g)
  {
  }

  lemma PrepareFixed(p: Policy, s: State, x: nat, g: nat)
    ensures Keeps(s, Prepare(p, s), x, g)
  {
    var a := Admit(s);
    AdmitFixed(s, x, g);
    hide Admit;
    SwitchInFixed(a, x, g);
    PreemptFixed(p, DispatchIdle(p, a), x, g);
    hide Preempt;
    hide SwitchIn;
    hide TagRunning;
  }

  lemma PreemptFixed(p: Policy, s: State, x: nat, g: nat)
    ensures Keeps(s, Preempt(p, s), x, g)
  {
    if Preempts(p, s) {
      var h := s.running.value;
      var c := Charge(p, s, h);
      assert Keeps(s, c, x, g);
      hide Charge;
      EnqueueFixed(c, h, Ready, x, g);
      SwitchInFixed(Enqueue(c, h, Ready), x, g);
      hide Enqueue;
      hide SwitchIn;
      hide TagRunning;
    }
  }

  lemma DeallocateFixed(s: State, h: nat, x: nat, g: nat)
    ensures Keeps(s, Deallocate(s, h), x, g)
  {
    UnlinkFixed(s, h, x, g);
    hide Unlink;
  }

  lemma UnlinkFixed(s: State, h: nat, x: nat, g: nat)
    ensures Keeps(s, Unlink(s, h), x, g)
  {
  }

  lemma HaltFixed(s: State, h: nat, x: nat, g: nat)
    ensures Keeps(s, Halt(s, h), x, g)
  {
    var t := PopWaiting(s);
    EnqueueFixed(t, FrontWaiting(s, h), Terminated, x, g);
    DeallocateFixed(Enqueue(t, FrontWaiting(s, h), Terminated), h, x, g);
    hide Enqueue;
    hide Deallocate;
  }

  lemma SemaphoresFixed(s: State, h: nat, x: nat, g: nat)
    ensures Keeps(s, Acquire(s, h), x, g) && Keeps(s, Release(s, h), x, g) && Keeps(s, WaitSemaphore(s, h), x, g)
  {
  }

  lemma ForkFixed(s: State, h: nat, x: nat, g: nat)
    requires x < |s.pcbs|
    ensures Keeps(s, Fork(s, h), x, g)
  {
  }

  lemma ServiceFixed(s: State, h: nat, code: int, x: nat, g: nat)
    requires x < |s.pcbs|
    ensures Keeps(s, Service(s, h, code), x, g)
  {
    hide Halt;
    hide Acquire;
    hide Release;
    hide WaitSemaphore;
    hide Fork;
    if code == FORK {
      ForkFixed(s, h, x, g);
    } else if code == SHARED_ADDRESS {
      HaltFixed(s, h, x, g);
    } else {
      SemaphoresFixed(s, h, x, g);
    }
  }

  lemma ActFixed(p: Policy, s: State, x: nat, g: nat)
    requires x < |s.pcbs|
    ensures Keeps(s, Act(p, s), x, g)
  {
    if s.running.Some? {
      var h := s.running.value;
      var e, code := Execute(p, s, h), CycleOf(s, h).code;
      assert Keeps(s, e, x, g);
      hide Execute;
      hide CycleOf;
      InterruptedFixed(p, e, h, code, x, g);
      TerminateFixed(p, e, h, x, g);
      hide Interrupted;
      hide Terminate;
    }
  }

  lemma InterruptedFixed(p: Policy, s: State, h: nat, code: int, x: nat, g: nat)
    requires x < |s.pcbs|
    ensures Keeps(s, Interrupted(p, s, h, code), x, g)
  {
    var a := Park(s, h);
    assert Keeps(s, a, x, g);
    hide Park;
    ServiceFixed(a, h, code, x, g);
    var b := Service(a, h, code);
    hide Service;
    assert Keeps(b, Reward(p, b, h), x, g);
    EnqueueFixed(PopWaiting(Reward(p, b, h)), h, Ready, x, g);
    hide Reward;
    hide Enqueue;
  }

  lemma TerminateFixed(p: Policy, s: State, h: nat, x: nat, g: nat)
    ensures Keeps(s, Terminate(p, s, h), x, g)
  {
    var a := Save(s, h);
    assert Keeps(s, a, x, g);
    hide Save;
    EnqueueFixed(a, h, Terminated, x, g);
    DeallocateFixed(Enqueue(a, h, Terminated), h, x, g);
    hide Enqueue;
    hide Deallocate;
  }

  lemma StepFixed(p: Policy, s: State, x: nat, g: nat)
    requires x < |s.pcbs|
    ensures Keeps(s, Step(p, s), x, g)
  {
    PrepareFixed(p, s, x, g);
    hide Prepare;
    ActFixed(p, Prepare(p, s), x, g);
    hide Act;
  }

  // ---------- a call that serves an interrupt ----------

  // The parked state in which the interrupt of the executor is served.
  function Parked(p: Policy, s: State, h: nat): State {
    Park(Execute(p, Prepare(p, s), h), h)
  }

  // Until it is served: the process waits, its block holds the context it had, with PC at the
  // next instruction, and no other block's context, no byte and no mark has changed.
  lemma BeforeService(p: Policy, s: State, h: nat, x: nat)
    requires Sound(s) && Executor(p, s) == Some(h) && CodeOf(p, s) >= 20
    ensures var a, c := Parked(p, s, h), ContextOf(s, h);
            && h < |s.pcbs| && |a.pcbs| == |s.pcbs| && a.waiting == [h] && a.mem == s.mem && a.names == s.names
            && Get(a, h).cpu == c.(pc := c.pc + 6) && (x != h ==> Get(a, x).cpu == ContextOf(s, x))
            && a.clock == s.clock + 2
    ensures Step(p, s) == Interrupted(p, Execute(p, Prepare(p, s), h), h, CodeOf(p, s))
  {
    ExecutorExists(p, s);
    PrepareContext(p, s, h);
    PrepareContext(p, s, x);
    PreparedMem(p, s, h);
    PrepareLedger(p, s, h);
    PrepareNames(p, s);
    var t := Prepare(p, s);
    hide Prepare;
    CycleCodes(t.cpu, t.mem, Get(t, h).load);
    InterruptCycle(t.cpu, t.mem, Get(t, h).load);
    hide Exec;
    var e := Execute(p, t, h);
    assert e.waiting == [] && e.mem == t.mem && e.clock == t.clock + 2 && e.names == t.names && |e.pcbs| == |t.pcbs|;
    assert e.cpu == t.cpu.(pc := t.cpu.pc + 6) && Get(e, x).cpu == Get(t, x).cpu;
    hide Execute;
    hide Interrupted;
  }

  lemma InterruptCycle(c: Cpu, m: Memory, base: int)
    requires Exec(c, m, base).code >= 20
    ensures Exec(c, m, base).cpu == c.(pc := c.pc + 6) && Exec(c, m, base).mem == m && Exec(c, m, base).ticks == 2
  {
    CycleCodes(c, m, base);
  }

  lemma PrepareNames(p: Policy, s: State)
    ensures Prepare(p, s).names == s.names
  {
    MemoryMap.PrepareMap(p, s, 0);
  }

  // After it is served: every block keeps its context, and the CPU is empty.
  lemma AfterService(p: Policy, e: State, h: nat, code: int, x: nat)
    ensures var b, t := Service(Park(e, h), h, code), Interrupted(p, e, h, code);
            && Get(t, x).cpu == Get(b, x).cpu && t.running.None? && |t.pcbs| == |b.pcbs| && t.names == b.names
            && Get(t, x).child == Get(b, x).child && t.clock == b.clock
  {
    var b := Service(Park(e, h), h, code);
    hide Service;
    hide Park;
    var c := Reward(p, b, h);
    assert Get(c, x).cpu == Get(b, x).cpu && Get(c, x).child == Get(b, x).child && |c.pcbs| == |b.pcbs|;
    assert c.names == b.names && c.clock == b.clock;
    hide Reward;
    var r := Resume(c, h);
    assert Get(r, x).cpu == Get(c, x).cpu && Get(r, x).child == Get(c, x).child && |r.pcbs| == |c.pcbs|;
    assert r.names == c.names && r.clock == c.clock;
    hide Resume;
  }

  // Serving an interrupt leaves the CPU alone.
  lemma ServiceCpu(s: State, h: nat, code: int)
    ensures Service(s, h, code).cpu == s.cpu
  {
    HaltLeavesCpu(s, h);
    hide Halt;
    if code == ACQUIRE || code == RELEASE || code == WAIT {
      SemaphoresLeaveCpu(s, h);
    }
    hide Acquire;
    hide Release;
    hide WaitSemaphore;
  }

  lemma HaltLeavesCpu(s: State, h: nat)
    ensures Halt(s, h).cpu == s.cpu
  {
    var t := Enqueue(PopWaiting(s), FrontWaiting(s, h), Terminated);
    assert t.cpu == s.cpu;
    hide Enqueue;
    assert Unlink(t, h).cpu == t.cpu;
    hide Unlink;
  }

  lemma SemaphoresLeaveCpu(s: State, h: nat)
    ensures Acquire(s, h).cpu == s.cpu && Release(s, h).cpu == s.cpu && WaitSemaphore(s, h).cpu == s.cpu
  {
  }

  // After a call that served an interrupt nothing of the process is left in the CPU: registers,
  // PC and Z are 0.
  lemma CpuCleared(p: Policy, s: State)
    requires CodeOf(p, s) >= 20
    ensures Step(p, s).cpu == Cpu([0, 0, 0, 0, 0, 0], 0, 0)
  {
    var t := Prepare(p, s);
    var h, code := t.running.value, CodeOf(p, s);
    var a := Park(Execute(p, t, h), h);
    hide Prepare;
    assert a.cpu == ClearedCpu;
    hide Park;
    ServiceCpu(a, h, code);
    var b := Service(a, h, code);
    hide Service;
    assert Resume(Reward(p, b, h), h).cpu == b.cpu;
    hide Resume;
    hide Reward;
  }

  // ---------- SWI 3 ----------

  // A call that executes SWI 3 makes one more process, and this is all of its block: the
  // parent's program, PC after the SWI, Z = 1, cleared registers, priority 0, no semaphore and
  // no segment. The parent goes on with the context it had.
  lemma ForkedChild(p: Policy, s: State, h: nat)
    requires Sound(s) && Executor(p, s) == Some(h) && CodeOf(p, s) == 23
    ensures h < |s.pcbs| && |Step(p, s).pcbs| == |s.pcbs| + 1
    ensures var t, x, c, parent := Step(p, s), |s.pcbs|, ContextOf(s, h), s.pcbs[h];
            && t.running.None?
            && t.pcbs[x] == Process(
                 parent.name + ".child", parent.pid + 1, parent.load, parent.size, parent.first,
                 t.clock, 0, [], 0, 0, 0, 0, 0, -1, Ready, None, None,
                 Cpu([0, 0, 0, 0, 0, 0], c.pc + 6, 1))
            && t.pcbs[h].cpu == c.(pc := c.pc + 6) && t.pcbs[h].child == Some(x)
            && t.names == s.names[parent.name + ".child" := x]
  {
    hide Step;
    hide Execute;
    hide Prepare;
    hide Interrupted;
    hide Service;
    hide Park;
    hide Executor;
    hide CodeOf;
    var e, x := Execute(p, Prepare(p, s), h), |s.pcbs|;
    BeforeService(p, s, h, h);
    PreparedBlock(p, s, h, 0);
    var a := Parked(p, s, h);
    assert a == Park(e, h) && FixedOf(a, h, 0) == FixedOf(s, h, 0) && h < |s.pcbs|;
    hide ContextOf;
    ServedFork(a, h);
    AfterService(p, e, h, 23, h);
    AfterService(p, e, h, 23, x);
    NewBlockKept(p, e, h);
  }

  lemma PreparedBlock(p: Policy, s: State, h: nat, g: nat)
    requires Sound(s) && Executor(p, s) == Some(h) && CodeOf(p, s) >= 20
    ensures Keeps(s, Parked(p, s, h), h, g)
  {
    PrepareFixed(p, s, h, g);
    var t := Prepare(p, s);
    hide Prepare;
    var e := Execute(p, t, h);
    assert Keeps(t, e, h, g);
    hide Execute;
    assert Keeps(e, Park(e, h), h, g);
    hide Park;
  }

  lemma ServedFork(a: State, h: nat)
    requires h < |a.pcbs|
    ensures var b, x, parent := Service(a, h, 23), |a.pcbs|, a.pcbs[h];
            && |b.pcbs| == x + 1 && b.names == a.names[parent.name + ".child" := x] && b.clock == a.clock
            && b.pcbs[x] == Process(
                 parent.name + ".child", parent.pid + 1, parent.load, parent.size, parent.first,
                 a.clock, 0, [], 0, 0, 0, 0, 0, -1, Ready, None, None,
                 Cpu([0, 0, 0, 0, 0, 0], parent.cpu.pc, 1))
            && b.pcbs[h].cpu == parent.cpu && b.pcbs[h].child == Some(x)
  {
  }

  // What follows the fork in the call does not touch the new block.
  lemma NewBlockKept(p: Policy, e: State, h: nat)
    requires h < |Park(e, h).pcbs|
    ensures var n, b, t := |Park(e, h).pcbs|, Service(Park(e, h), h, 23), Interrupted(p, e, h, 23);
            |b.pcbs| == n + 1 && |t.pcbs| == |b.pcbs| && t.pcbs[n] == b.pcbs[n]
  {
    var a := Park(e, h);
    var n := |a.pcbs|;
    hide Park;
    ServedFork(a, h);
    var b := Service(a, h, 23);
    hide Service;
    var c := Reward(p, b, h);
    assert |c.pcbs| == |b.pcbs| && c.pcbs[n] == b.pcbs[n];
    hide Reward;
    var r := Resume(c, h);
    assert |r.pcbs| == |c.pcbs| && r.pcbs[n] == c.pcbs[n];
    hide Resume;
  }

  // ---------- contexts of the others ----------

  lemma ServiceOther(s: State, h: nat, code: int, x: nat)
    requires x < |s.pcbs| && x != h
    ensures Get(Service(s, h, code), x).cpu == Get(s, x).cpu && |Service(s, h, code).pcbs| >= |s.pcbs|
  {
    HaltOther(s, h, x);
    SemaphoresOther(s, h, x);
    hide Halt;
    hide Acquire;
    hide Release;
    hide WaitSemaphore;
  }

  lemma HaltOther(s: State, h: nat, x: nat)
    ensures Get(Halt(s, h), x).cpu == Get(s, x).cpu && |Halt(s, h).pcbs| == |s.pcbs|
  {
    var t := Enqueue(PopWaiting(s), FrontWaiting(s, h), Terminated);
    assert Get(t, x).cpu == Get(s, x).cpu && |t.pcbs| == |s.pcbs|;
    hide Enqueue;
    UnlinkKeeps(t, h);
    hide Unlink;
  }

  lemma SemaphoresOther(s: State, h: nat, x: nat)
    ensures Get(Acquire(s, h), x).cpu == Get(s, x).cpu && |Acquire(s, h).pcbs| == |s.pcbs|
    ensures Get(Release(s, h), x).cpu == Get(s, x).cpu && |Release(s, h).pcbs| == |s.pcbs|
    ensures Get(WaitSemaphore(s, h), x).cpu == Get(s, x).cpu && |WaitSemaphore(s, h).pcbs| == |s.pcbs|
  {
  }

  // A call leaves the context of every process but its executor as it is, forks included.
  lemma StepOther(p: Policy, s: State, x: nat)
    requires Sound(s) && x < |s.pcbs| && Executor(p, s) != Some(x)
    ensures ContextOf(Step(p, s), x) == ContextOf(s, x) && x < |Step(p, s).pcbs|
  {
    PrepareContext(p, s, x);
    PreparePlaces(p, s, x);
    StepPlaces(p, s, x);
    var t := Prepare(p, s);
    hide Prepare;
    if t.running.Some? {
      ActOther(p, t, x);
    }
  }

  lemma ActOther(p: Policy, s: State, x: nat)
    requires s.running.Some? && s.running.value != x && x < |s.pcbs|
    ensures ContextOf(Act(p, s), x) == ContextOf(s, x)
  {
    var h := s.running.value;
    var e, code := Execute(p, s, h), CycleOf(s, h).code;
    assert e.running == Some(h) && Get(e, x).cpu == Get(s, x).cpu && |e.pcbs| == |s.pcbs|;
    hide Execute;
    hide CycleOf;
    if code >= 20 {
      var a := Park(e, h);
      assert Get(a, x).cpu == Get(e, x).cpu && |a.pcbs| == |e.pcbs|;
      hide Park;
      ServiceOther(a, h, code, x);
      AfterService(p, e, h, code, x);
      hide Service;
      hide Interrupted;
    } else if code == HALTED {
      TerminateOther(p, e, h, x);
      hide Terminate;
    }
  }

  lemma TerminateOther(p: Policy, s: State, h: nat, x: nat)
    requires x != h
    ensures Get(Terminate(p, s, h), x).cpu == Get(s, x).cpu && Terminate(p, s, h).running.None?
  {
    var t := Enqueue(Save(s, h), h, Terminated);
    assert Get(t, x).cpu == Get(s, x).cpu;
    UnlinkKeeps(t, h);
    hide Unlink;
    hide Enqueue;
  }

  // No call of the run executes `x`.
  ghost predicate Spares(s: State, es: seq<Event>, x: nat)
    decreases |es|
  {
    es != [] ==> (es[0].Tick? ==> Executor(es[0].policy, s) != Some(x)) && Spares(Apply(s, es[0]), es[1..], x)
  }

  // Until it executes, a process keeps its context and its program.
  lemma {:induction false} SparedContext(s: State, es: seq<Event>, x: nat)
    requires Sound(s) && x < |s.pcbs| && Spares(s, es, x)
    ensures var w := Run(s, es);
            Sound(w) && x < |w.pcbs| && ContextOf(w, x) == ContextOf(s, x) && Get(w, x).load == Get(s, x).load
    decreases |es|
  {
    if es != [] {
      ApplySound(s, es[0]);
      if es[0].Tick? {
        StepOther(es[0].policy, s, x);
        StepFixed(es[0].policy, s, x, 0);
        assert FixedOf(Step(es[0].policy, s), x, 0).load == FixedOf(s, x, 0).load;
        hide Step;
      } else {
        QuietContext(s, es[0], x);
      }
      hide Executor;
      SparedContext(Apply(s, es[0]), es[1..], x);
      hide Apply;
    }
  }

  // The first cycle of a process after any wait starts from the context it had.
  lemma FirstCycle(s: State, es: seq<Event>, x: nat, q: Policy)
    requires Sound(s) && x < |s.pcbs| && Spares(s, es, x) && Executor(q, Run(s, es)) == Some(x)
    ensures var w := Run(s, es);
            CycleOf(Prepare(q, w), x) == Exec(ContextOf(s, x), w.mem, Get(s, x).load)
  {
    SparedContext(s, es, x);
    var w := Run(s, es);
    hide Run;
    PrepareContext(q, w, x);
    PreparedMem(q, w, x);
    hide Prepare;
    hide Exec;
  }

  // When the instruction after a SWI 3 is a BNE: whatever happens in between, the child's first
  // cycle goes to the target, since its Z is 1; the parent's next one does so exactly when its
  // own Z is not 0, and otherwise goes on to the instruction after the BNE.
  lemma ForkBranches(p: Policy, s: State, h: nat, x: nat, es: seq<Event>, q: Policy, offset: int)
    requires Sound(s) && Executor(p, s) == Some(h) && CodeOf(p, s) == 23 && (x == h || x == |s.pcbs|)
    requires Spares(Step(p, s), es, x) && Executor(q, Run(Step(p, s), es)) == Some(x)
    requires var m, pc := Run(Step(p, s), es).mem, ContextOf(s, h).pc;
             Val(m, pc + 6) == 8 && Encodes(m, pc + 7, offset)
    ensures h < |s.pcbs|
    ensures var o, c, load := CycleOf(Prepare(q, Run(Step(p, s), es)), x), ContextOf(s, h), s.pcbs[h].load;
            && o.code == 0
            && o.cpu.pc == if x == |s.pcbs| then offset + load else if c.z != 0 then offset + load else c.pc + 12
  {
    hide *;
    ForkedBoth(p, s, h);
    FirstCycle(Step(p, s), es, x, q);
    NowBranch();
    Branches(ContextOf(Step(p, s), x), Run(Step(p, s), es).mem, Get(Step(p, s), x).load, offset);
    TakesBne(ContextOf(Step(p, s), x).z);
  }

  lemma NowBranch()
    ensures IsBranch(8)
  {
  }

  lemma TakesBne(z: int)
    ensures Takes(8, z, 0) <==> z != 0
  {
  }

  // Parent and child after the call, as contexts.
  lemma ForkedBoth(p: Policy, s: State, h: nat)
    requires Sound(s) && Executor(p, s) == Some(h) && CodeOf(p, s) == 23
    ensures h < |s.pcbs| && |Step(p, s).pcbs| == |s.pcbs| + 1 && Sound(Step(p, s))
    ensures var t, x, c := Step(p, s), |s.pcbs|, ContextOf(s, h);
            && ContextOf(t, x).pc == c.pc + 6 && ContextOf(t, x).z == 1 && Get(t, x).load == s.pcbs[h].load
            && ContextOf(t, h) == c.(pc := c.pc + 6) && Get(t, h).load == s.pcbs[h].load
  {
    ForkedChild(p, s, h);
    ApplySound(s, Tick(p));
    StepFixed(p, s, h, 0);
    assert FixedOf(Step(p, s), h, 0).load == FixedOf(s, h, 0).load;
    hide Step;
  }

  // ---------- SWI 1 ----------

  // The least address after r at which a quote stands or the print limit is reached.
  ghost predicate PrintStop(m: Memory, r: int, e: int) {
    && e > r && (Val(m, e) == 34 || e >= 10240)
    && forall j :: r < j < e ==> Val(m, j) != 34 && j < 10240
  }

  lemma {:induction false} WalkStops(m: Memory, r: int)
    ensures PrintStop(m, r, StringEnd(m, r + 1))
    decreases if r < PRINT_LIMIT then PRINT_LIMIT - r else 0
  {
    if Val(m, r + 1) != QUOTE && r + 1 < PRINT_LIMIT {
      WalkStops(m, r + 1);
    }
  }

  // There is only one such address.
  lemma StopsOnce(m: Memory, r: int, d: int, e: int)
    requires PrintStop(m, r, d) && PrintStop(m, r, e)
    ensures d == e
  {
    assert d < e ==> Val(m, d) != 34 && d < 10240;
    assert e < d ==> Val(m, e) != 34 && e < 10240;
  }

  // A call that executes SWI 1: with a quote at the address in R0, R0 becomes the least address
  // after it that holds a quote or is at the print limit; with anything else there R0 stays.
  // Every other register, Z and memory stay, and PC is at the next instruction.
  lemma PrintEnds(p: Policy, s: State, h: nat)
    requires Sound(s) && Executor(p, s) == Some(h) && CodeOf(p, s) == 21 && |ContextOf(s, h).reg| == 6
    ensures var t, c := Step(p, s), ContextOf(s, h);
            var d := Get(t, h).cpu;
            && t.running.None? && |d.reg| == 6 && d.pc == c.pc + 6 && d.z == c.z && t.mem == s.mem
            && (forall r :: 1 <= r < 6 ==> d.reg[r] == c.reg[r])
            && (if Val(s.mem, c.reg[0]) == 34 then PrintStop(s.mem, c.reg[0], d.reg[0]) else d.reg[0] == c.reg[0])
  {
    hide Step;
    hide Execute;
    hide Prepare;
    hide Interrupted;
    hide Park;
    hide Service;
    hide PrintStop;
    hide Executor;
    hide CodeOf;
    hide ContextOf;
    BeforeService(p, s, h, h);
    var e := Execute(p, Prepare(p, s), h);
    assert Parked(p, s, h) == Park(e, h);
    PrintServed(Park(e, h), h);
    AfterService(p, e, h, 21, h);
    InterruptMem(p, e, h, 21);
  }

  lemma PrintServed(a: State, h: nat)
    requires h < |a.pcbs| && |a.pcbs[h].cpu.reg| == 6
    ensures var c, d := a.pcbs[h].cpu, Get(Service(a, h, 21), h).cpu;
            && |d.reg| == 6 && d.pc == c.pc && d.z == c.z && Service(a, h, 21).mem == a.mem
            && (forall r :: 1 <= r < 6 ==> d.reg[r] == c.reg[r])
            && (if Val(a.mem, c.reg[0]) == 34 then PrintStop(a.mem, c.reg[0], d.reg[0]) else d.reg[0] == c.reg[0])
  {
    WalkStops(a.mem, a.pcbs[h].cpu.reg[0]);
    hide PrintStop;
  }

  // Serving SWI 1 changes no memory.
  lemma InterruptMem(p: Policy, e: State, h: nat, code: int)
    requires code == 21
    ensures Interrupted(p, e, h, code).mem == Service(Park(e, h), h, code).mem
  {
    var b := Service(Park(e, h), h, code);
    hide Service;
    hide Park;
    assert Reward(p, b, h).mem == b.mem;
    hide Reward;
  }

  // ---------- SWI 4 ----------

  // The event opens no segment for `x`.
  predicate NotReopened(s: State, e: Event, x: nat) {
    e.OpenSegment? && e.one in s.names && e.two in s.names ==> s.names[e.one] != x && s.names[e.two] != x
  }

  ghost predicate NeverReopened(s: State, es: seq<Event>, x: nat)
    decreases |es|
  {
    es != [] ==> NotReopened(s, es[0], x) && NeverReopened(Apply(s, es[0]), es[1..], x)
  }

  // The block of `x` is linked to segment g, which lies at `at` and has `cells` cells.
  predicate Linked(s: State, x: nat, g: nat, at: int, cells: int) {
    && x < |s.pcbs| && s.pcbs[x].shm == Some(g)
    && g < |s.segments| && s.segments[g].load == at && s.segments[g].size == cells
  }

  lemma OpenOther(s: State, size: int, one: string, two: string, x: nat, g: nat, at: int, cells: int)
    requires Linked(s, x, g, at, cells) && NotReopened(s, OpenSegment(size, one, two), x)
    ensures Linked(OpenShared(s, size, one, two), x, g, at, cells)
  {
    match (Lookup(s, one), Lookup(s, two))
    case (Some(a), Some(b)) =>
      UnlinkFixed(s, a, x, g);
      UnlinkFixed(Unlink(s, a), b, x, g);
      var u := Unlink(Unlink(s, a), b);
      assert FixedOf(u, x, g) == FixedOf(s, x, g) && |u.segments| == |s.segments|;
      UnlinkKeeps(s, a);
      UnlinkKeeps(Unlink(s, a), b);
      hide Unlink;
      assert Linked(u, x, g, at, cells);
      assert Linked(Share(u, a, b, size), x, g, at, cells);
    case _ =>
  }

  lemma QuietLinked(s: State, e: Event, x: nat, g: nat, at: int, cells: int)
    requires Linked(s, x, g, at, cells) && NotReopened(s, e, x) && !e.Tick?
    ensures Linked(Apply(s, e), x, g, at, cells)
  {
    match e
    case OpenSegment(size, one, two) => OpenOther(s, size, one, two, x, g, at, cells);
    case _ =>
  }

  lemma {:induction false} StaysLinked(s: State, es: seq<Event>, x: nat, g: nat, at: int, cells: int)
    requires Sound(s) && Linked(s, x, g, at, cells) && NeverReopened(s, es, x)
    ensures Sound(Run(s, es)) && Linked(Run(s, es), x, g, at, cells)
    decreases |es|
  {
    if es != [] {
      ApplySound(s, es[0]);
      if es[0].Tick? {
        StepFixed(es[0].policy, s, x, g);
        assert FixedOf(Step(es[0].policy, s), x, g) == FixedOf(s, x, g);
        hide Step;
      } else {
        QuietLinked(s, es[0], x, g, at, cells);
      }
      hide NotReopened;
      StaysLinked(Apply(s, es[0]), es[1..], x, g, at, cells);
      hide Apply;
    }
  }

  ghost predicate HasMark(m: Memory, a: int, n: int) {
    exists i :: a <= i < a + n && Marked(m, i)
  }

  // The lowest address with n free cells from it on.
  ghost predicate LeastRun(m: Memory, at: int, n: int) {
    0 <= at && at + n <= |m| && !HasMark(m, at, n) && forall b :: 0 <= b < at ==> HasMark(m, b, n)
  }

  lemma LeastIsFirstFit(m: Memory, at: int, n: int)
    requires LeastRun(m, at, n)
    ensures FirstFit(m, n, 0) == Some(at)
  {
    MemoryMap.FirstFitLeast(m, n, 0);
    forall b | 0 <= b && b + n <= |m|
      ensures FreeRun(m, b, n) <==> !HasMark(m, b, n)
    {
      MarkOrFree(m, b, n);
    }
    hide FreeRun;
    hide HasMark;
    assert FreeRun(m, at, n);
  }

  lemma MarkOrFree(m: Memory, b: int, n: int)
    requires 0 <= b && b + n <= |m|
    ensures FreeRun(m, b, n) <==> !HasMark(m, b, n)
  {
    if HasMark(m, b, n) {
      var i :| b <= i < b + n && Marked(m, i);
      assert m[i].marked;
    } else {
      forall i | b <= i < b + n && i < |m|
        ensures !m[i].marked
      {
        assert !Marked(m, i);
      }
    }
  }

  lemma OpenLinks(s: State, size: int, one: string, two: string, at: nat, x: nat)
    requires Sound(s) && one in s.names && two in s.names && s.names[one] < |s.pcbs| && s.names[two] < |s.pcbs|
    requires LeastRun(Unlink(Unlink(s, s.names[one]), s.names[two]).mem, at, 6 * size)
    requires x == s.names[one] || x == s.names[two]
    ensures Linked(OpenShared(s, size, one, two), x, |s.segments|, at, 6 * size)
  {
    var a, b := s.names[one], s.names[two];
    var u := Unlink(Unlink(s, a), b);
    LeastIsFirstFit(u.mem, at, 6 * size);
    UnlinkKeeps(s, a);
    UnlinkKeeps(Unlink(s, a), b);
    UnlinkFixed(s, a, x, 0);
    UnlinkFixed(Unlink(s, a), b, x, 0);
    assert OpenShared(s, size, one, two) == Share(u, a, b, size);
    hide Unlink;
    hide OpenShared;
    hide FirstFit;
  }

  // A call that executes SWI 4 of a process linked to a segment: R0 becomes the segment's
  // address; every other register and Z stay, and PC is at the next instruction.
  lemma AddressCall(p: Policy, s: State, x: nat, g: nat, at: int, cells: int)
    requires Sound(s) && Executor(p, s) == Some(x) && CodeOf(p, s) == 24 && Linked(s, x, g, at, cells)
    requires |ContextOf(s, x).reg| == 6
    ensures var t, c := Step(p, s), ContextOf(s, x);
            t.running.None? && Get(t, x).cpu == Cpu(c.reg[0 := at], c.pc + 6, c.z) && !Done(t, x)
  {
    BeforeService(p, s, x, x);
    PreparedBlock(p, s, x, g);
    var e, a := Execute(p, Prepare(p, s), x), Parked(p, s, x);
    assert a == Park(e, x) && FixedOf(a, x, g) == FixedOf(s, x, g);
    AfterService(p, e, x, 24, x);
    ExecutorExists(p, s);
    StepLives(p, s, x, g, at, cells);
    hide Step;
    hide Execute;
    hide Prepare;
    hide Interrupted;
    hide Park;
    hide Executor;
    hide CodeOf;
  }

  lemma StepLives(p: Policy, s: State, x: nat, g: nat, at: int, cells: int)
    requires Sound(s) && Executor(p, s) == Some(x) && CodeOf(p, s) == 24 && Linked(s, x, g, at, cells)
    ensures !Done(Step(p, s), x)
  {
    ExecutorExists(p, s);
    MemoryMap.StepDone(p, s, x);
    PrepareFixed(p, s, x, g);
    assert FixedOf(Prepare(p, s), x, g).shm == FixedOf(s, x, g).shm;
    hide Prepare;
    hide Step;
  }

  // Two processes open a segment of `size` instructions; `at` is the lowest address with that
  // many free cells once both have given up what they shared before. In any run after which
  // neither is given another segment, a call in which either executes SWI 4 finds it at `at`:
  // both get the same address, and the cells at..at + 6 * size are those of their segment.
  lemma SharedAt(s: State, size: int, one: string, two: string, at: nat, es: seq<Event>, p: Policy, x: nat)
    requires Sound(s) && one in s.names && two in s.names && s.names[one] < |s.pcbs| && s.names[two] < |s.pcbs|
    requires LeastRun(Unlink(Unlink(s, s.names[one]), s.names[two]).mem, at, 6 * size)
    requires x == s.names[one] || x == s.names[two]
    requires NeverReopened(OpenShared(s, size, one, two), es, x)
    requires var w := Run(OpenShared(s, size, one, two), es);
             Executor(p, w) == Some(x) && CodeOf(p, w) == 24 && |ContextOf(w, x).reg| == 6
    ensures var w := Run(OpenShared(s, size, one, two), es);
            var t, c, g := Step(p, w), ContextOf(w, x), |s.segments|;
            && t.running.None? && Get(t, x).cpu == Cpu(c.reg[0 := at], c.pc + 6, c.z) && !Done(t, x)
            && Linked(w, x, g, at, 6 * size)
            && forall a :: MemoryMap.Owns(w, MemoryMap.Shared(g), a) ==> at <= a <= at + 6 * size
  {
    hide Step;
    hide OpenShared;
    hide Run;
    hide LeastRun;
    hide Unlink;
    hide Executor;
    hide CodeOf;
    hide NeverReopened;
    hide ContextOf;
    OpenLinks(s, size, one, two, at, x);
    OpenSound(s, size, one, two);
    StaysLinked(OpenShared(s, size, one, two), es, x, |s.segments|, at, 6 * size);
    AddressCall(p, Run(OpenShared(s, size, one, two), es), x, |s.segments|, at, 6 * size);
  }

  lemma OpenSound(s: State, size: int, one: string, two: string)
    requires Sound(s)
    ensures Sound(OpenShared(s, size, one, two))
  {
    ApplySound(s, OpenSegment(size, one, two));
  }

  // ---------- the semaphore a process uses ----------

  // The event gives `x` no other semaphore.
  predicate NotRegiven(s: State, e: Event, x: nat) {
    e.NewSemaphore? && e.one in s.names && e.two in s.names ==> s.names[e.one] != x && s.names[e.two] != x
  }

  ghost predicate NeverRegiven(s: State, es: seq<Event>, x: nat)
    decreases |es|
  {
    es != [] ==> NotRegiven(s, es[0], x) && NeverRegiven(Apply(s, es[0]), es[1..], x)
  }

  lemma QuietSemId(s: State, e: Event, x: nat)
    requires x < |s.pcbs| && NotRegiven(s, e, x) && !e.Tick?
    ensures Get(Apply(s, e), x).semId == Get(s, x).semId && x < |Apply(s, e).pcbs|
  {
    match e
    case OpenSegment(size, one, two) => OpenSemId(s, size, one, two, x);
    case _ =>
  }

  lemma OpenSemId(s: State, size: int, one: string, two: string, x: nat)
    requires x < |s.pcbs|
    ensures Get(OpenShared(s, size, one, two), x).semId == Get(s, x).semId
    ensures |OpenShared(s, size, one, two).pcbs| == |s.pcbs|
  {
    match (Lookup(s, one), Lookup(s, two))
    case (Some(a), Some(b)) =>
      UnlinkKeeps(s, a);
      UnlinkKeeps(Unlink(s, a), b);
      hide Unlink;
    case _ =>
  }

  // A new semaphore starts with its value and nobody blocked, is the one both its processes use
  // for as long as they are given no other, and no other process uses it because of it.
  lemma SemaphoreOf(s: State, value: int, one: string, two: string, x: nat)
    requires one in s.names && two in s.names && s.names[one] < |s.pcbs| && s.names[two] < |s.pcbs| && x < |s.pcbs|
    ensures var t := InitSemaphore(s, value, one, two);
            && |t.semaphores| == |s.semaphores| + 1 && t.semaphores[|s.semaphores|] == Semaphore(value, [])
            && Get(t, x).semId == if x == s.names[one] || x == s.names[two] then |s.semaphores| else Get(s, x).semId
  {
  }

  lemma {:induction false} KeepsSemaphore(s: State, es: seq<Event>, x: nat)
    requires Sound(s) && x < |s.pcbs| && NeverRegiven(s, es, x)
    ensures x < |Run(s, es).pcbs| && Get(Run(s, es), x).semId == Get(s, x).semId
    decreases |es|
  {
    if es != [] {
      ApplySound(s, es[0]);
      if es[0].Tick? {
        StepFixed(es[0].policy, s, x, 0);
        assert FixedOf(Step(es[0].policy, s), x, 0).semId == FixedOf(s, x, 0).semId;
        hide Step;
      } else {
        QuietSemId(s, es[0], x);
      }
      hide NotRegiven;
      KeepsSemaphore(Apply(s, es[0]), es[1..], x);
      hide Apply;
    }
  }

  // ---------- every context has six registers ----------

  ghost predicate SixRegisters(s: State) {
    forall x: nat :: |ContextOf(s, x).reg| == 6
  }

  lemma ServiceSix(s: State, h: nat, code: int)
    requires h < |s.pcbs| && |Get(s, h).cpu.reg| == 6
    ensures |Get(Service(s, h, code), h).cpu.reg| == 6
  {
    HaltCpu(s, h);
    SemaphoresOther(s, h, h);
    hide Halt;
    hide Acquire;
    hide Release;
    hide WaitSemaphore;
  }

  lemma HaltCpu(s: State, h: nat)
    ensures Get(Halt(s, h), h).cpu == Get(s, h).cpu
  {
    HaltOther(s, h, h);
  }

  lemma StepSix(p: Policy, s: State, x: nat)
    requires Sound(s) && SixRegisters(s)
    ensures |ContextOf(Step(p, s), x).reg| == 6
  {
    assert |ContextOf(s, x).reg| == 6;
    StepPlaces(p, s, x);
    if x >= |Step(p, s).pcbs| {
      NobodySix(p, s, x);
    } else if x >= |s.pcbs| {
      ForkSix(p, s);
    } else if Executor(p, s) == Some(x) {
      ExecutorSix(p, s, x);
    } else {
      StepOther(p, s, x);
    }
  }

  lemma NobodySix(p: Policy, s: State, x: nat)
    requires Sound(s) && x >= |Step(p, s).pcbs|
    ensures |ContextOf(Step(p, s), x).reg| == 6
  {
    ApplySound(s, Tick(p));
    assert Places(Step(p, s), x) == 0;
    hide Step;
  }

  lemma ForkSix(p: Policy, s: State)
    requires Sound(s) && CodeOf(p, s) == FORK
    ensures |Get(Step(p, s), |s.pcbs|).cpu.reg| == 6 && Step(p, s).running.None?
  {
    ForkedChild(p, s, Executor(p, s).value);
    hide Step;
  }

  lemma ExecutorSix(p: Policy, s: State, x: nat)
    requires Sound(s) && Executor(p, s) == Some(x) && |ContextOf(s, x).reg| == 6
    ensures |ContextOf(Step(p, s), x).reg| == 6
  {
    PrepareContext(p, s, x);
    ExecutorExists(p, s);
    var t := Prepare(p, s);
    if CodeOf(p, s) >= 20 {
      BeforeService(p, s, x, x);
      ServiceSix(Parked(p, s, x), x, CodeOf(p, s));
      AfterService(p, Execute(p, t, x), x, CodeOf(p, s), x);
      hide Interrupted;
      hide Service;
    } else {
      hide Prepare;
      ExecSix(t.cpu, t.mem, Get(t, x).load);
      var e := Execute(p, t, x);
      assert e.running == Some(x) && |e.cpu.reg| == 6;
      hide Execute;
      EndSix(p, e, x);
      hide Terminate;
    }
  }

  lemma ExecSix(c: Cpu, m: Memory, base: int)
    ensures |Exec(c, m, base).cpu.reg| == |c.reg|
  {
  }

  lemma EndSix(p: Policy, e: State, x: nat)
    requires e.running == Some(x) && x < |e.pcbs| && |e.cpu.reg| == 6
    ensures |ContextOf(Terminate(p, e, x), x).reg| == 6
  {
    TerminateContext(p, e, x, x);
    hide Terminate;
  }

  lemma QuietSix(s: State, e: Event, x: nat)
    requires Sound(s) && SixRegisters(s) && !e.Tick?
    ensures |ContextOf(Apply(s, e), x).reg| == 6
  {
    assert |ContextOf(s, x).reg| == 6;
    if x < |s.pcbs| {
      QuietContext(s, e, x);
    } else {
      ApplySound(s, e);
      assert Places(s, x) == 0;
      if e.Arrive? {
        LoadSix(s, e.name, e.image, x);
      } else {
        QuietContext2(s, e);
        Levels.QuietReady(s, e);
      }
    }
  }

  lemma QuietContext2(s: State, e: Event)
    requires !e.Tick? && !e.Arrive?
    ensures |Apply(s, e).pcbs| == |s.pcbs|
  {
    OtherLedgers(s, e, 0);
  }

  lemma LoadSix(s: State, name: string, i: Image, x: nat)
    requires s.running != Some(x) && x >= |s.pcbs|
    ensures |ContextOf(LoadProgram(s, name, i), x).reg| == 6
  {
  }

  // Over every run from power-on every context, in the CPU or in a block, has six registers.
  lemma {:induction false} RunSix(s: State, es: seq<Event>)
    requires Sound(s) && SixRegisters(s)
    ensures SixRegisters(Run(s, es))
    decreases |es|
  {
    if es != [] {
      ApplySound(s, es[0]);
      forall x: nat
        ensures |ContextOf(Apply(s, es[0]), x).reg| == 6
      {
        if es[0].Tick? {
          StepSix(es[0].policy, s, x);
        } else {
          QuietSix(s, es[0], x);
        }
      }
      hide Apply;
      hide ContextOf;
      RunSix(Apply(s, es[0]), es[1..]);
    }
  }

  lemma BootSix()
    ensures Sound(Boot()) && SixRegisters(Boot())
  {
    BootSound();
  }
}
