// Time slicing is invisible to a process that keeps to its own memory.
module Transparency {
  import opened Options
  import opened Machine
  import opened MachineLaws
  import opened Processes
  import opened System
  import opened Census
  import opened Timekeeping
  import opened MemoryMap

  // ---------- a process alone ----------

  // A CPU and a memory that belong to one process.
  datatype Solo = Solo(cpu: Cpu, mem: Memory)

  // The context a cycle leaves: a print leaves R0 where the print ended.
  function CpuLeft(o: Outcome): Cpu {
    if o.code == PRINT then AfterPrint(o.cpu, o.mem) else o.cpu
  }

  // One instruction of a process that has the machine to itself.
  function SoloStep(v: Solo, load: int): Solo {
    var o := Exec(v.cpu, v.mem, load);
    Solo(CpuLeft(o), o.mem)
  }

  function Alone(v: Solo, load: int, n: nat): Solo
    decreases n
  {
    if n == 0 then v else Alone(SoloStep(v, load), load, n - 1)
  }

  predicate Stops(v: Solo, load: int) {
    Exec(v.cpu, v.mem, load).code == HALTED
  }

  // Run alone, the process does not stop in its first n instructions.
  ghost predicate Going(v: Solo, load: int, n: nat) {
    forall k: nat :: k < n ==> !Stops(Alone(v, load, k), load)
  }

  lemma GoingSum(v: Solo, load: int, a: nat, b: nat)
    requires Going(v, load, a) && Going(Alone(v, load, a), load, b)
    ensures Going(v, load, a + b)
  {
    hide Alone;
    hide Stops;
    forall k: nat | k < a + b
      ensures !Stops(Alone(v, load, k), load)
    {
      if k >= a {
        AloneSum(v, load, a, k - a);
      }
    }
  }

  // Run alone, the process keeps to [load, load+size] and to SWI 0-2 and 10 until it stops.
  ghost predicate KeepsToItself(v: Solo, load: int, size: int) {
    forall n: nat :: (forall k: nat :: k < n ==> !Stops(Alone(v, load, k), load))
      ==> Confined(Alone(v, load, n).cpu, Alone(v, load, n).mem, load, load + size)
  }

  lemma KeepsNow(v: Solo, load: int, size: int)
    requires KeepsToItself(v, load, size)
    ensures Confined(v.cpu, v.mem, load, load + size)
  {
    assert Alone(v, load, 0) == v;
  }

  lemma KeepsLater(v: Solo, load: int, size: int)
    requires KeepsToItself(v, load, size) && !Stops(v, load)
    ensures KeepsToItself(SoloStep(v, load), load, size)
  {
    var w := SoloStep(v, load);
    forall n: nat | forall k: nat :: k < n ==> !Stops(Alone(w, load, k), load)
      ensures Confined(Alone(w, load, n).cpu, Alone(w, load, n).mem, load, load + size)
    {
      forall k: nat | k < n + 1
        ensures !Stops(Alone(v, load, k), load)
      {
        if k > 0 {
          assert Alone(v, load, k) == Alone(w, load, k - 1);
        } else {
          assert Alone(v, load, 0) == v;
        }
      }
      assert Alone(v, load, n + 1) == Alone(w, load, n);
    }
  }

  lemma {:induction false} AloneSum(v: Solo, load: int, a: nat, b: nat)
    ensures Alone(v, load, a + b) == Alone(Alone(v, load, a), load, b)
    decreases a
  {
    hide SoloStep;
    if a > 0 {
      AloneSum(SoloStep(v, load), load, a - 1, b);
    }
  }

  // ---------- a process in the system ----------

  // Only the cells of [lo, hi].
  function Isolate(m: Memory, lo: int, hi: int): Memory {
    seq(|m|, i requires 0 <= i < |m| => if lo <= i <= hi then m[i] else Cell(0, false))
  }

  // The true state of a process: the CPU if it runs, its block otherwise, and its own cells.
  function ContextOf(s: State, x: nat): Cpu {
    if s.running == Some(x) then s.cpu else Get(s, x).cpu
  }

  function View(s: State, x: nat): Solo {
    var p := Get(s, x);
    Solo(ContextOf(s, x), Isolate(s.mem, p.load, p.load + p.size))
  }

  ghost predicate AllKeep(s: State) {
    forall x: nat :: Live(s, x) ==> KeepsToItself(View(s, x), s.pcbs[x].load, s.pcbs[x].size)
  }

  // ---------- contexts ----------

  lemma {:induction false} AdmitContext(s: State, x: nat)
    ensures ContextOf(Admit(s), x) == ContextOf(s, x)
    ensures Admit(s).running == s.running && |Admit(s).pcbs| == |s.pcbs|
    decreases |s.arrived|
  {
    if s.arrived != [] {
      AdmitContext(Enqueue(s.(arrived := s.arrived[1..]), s.arrived[0], Ready), x);
    }
  }

  lemma SwitchInContext(s: State, x: nat)
    ensures s.running.None? ==> ContextOf(SwitchIn(s), x) == ContextOf(s, x) && ContextOf(TagRunning(SwitchIn(s)), x) == ContextOf(s, x)
    ensures !NoneReady(s) ==> ContextOf(TagRunning(SwitchIn(s)), x) == Get(s, x).cpu
  {
  }

  lemma PreemptContext(p: Policy, s: State, x: nat)
    requires Ranged(s) && (s.running.Some? ==> s.running.value < |s.pcbs|)
    ensures ContextOf(Preempt(p, s), x) == ContextOf(s, x)
  {
    if Preempts(p, s) {
      var h := s.running.value;
      var c := Charge(p, s, h);
      ChargeKeeps(p, s, h, x);
      assert Get(c, x).cpu == ContextOf(s, x);
      hide Charge;
      var q := Enqueue(c, h, Ready);
      assert Get(q, x).cpu == Get(c, x).cpu;
      EnqueueReadyFills(c, h);
      hide Enqueue;
      SwitchInContext(q, x);
    }
  }

  // Dispatching moves contexts between CPU and blocks without changing any process.
  lemma PrepareContext(p: Policy, s: State, x: nat)
    requires Sound(s)
    ensures ContextOf(Prepare(p, s), x) == ContextOf(s, x)
  {
    AdmitContext(s, x);
    var a := Admit(s);
    SwitchInContext(a, x);
    var d := DispatchIdle(p, a);
    AdmitPlaces(s, 0);
    DispatchPlaces(p, a, 0);
    if d.running.Some? {
      AdmitPlaces(s, d.running.value);
      DispatchPlaces(p, a, d.running.value);
      assert Places(s, d.running.value) == if d.running.value < |s.pcbs| then 1 else 0;
    }
    PreemptContext(p, d, x);
  }

  lemma InterruptedContext(p: Policy, s: State, h: nat, code: int, x: nat)
    requires s.waiting == [] && s.running == Some(h) && h < |s.pcbs| && PRINT_INT <= code <= INPUT
    ensures var t := Interrupted(p, s, h, code);
            && t.running.None?
            && Get(t, x).cpu == (if x == h then (if code == PRINT then AfterPrint(s.cpu, s.mem) else s.cpu) else Get(s, x).cpu)
  {
    var a := Park(s, h);
    assert Get(a, x).cpu == (if x == h then s.cpu else Get(s, x).cpu) && a.mem == s.mem && |a.pcbs| == |s.pcbs|;
    assert Get(a, h).cpu == s.cpu;
    hide Park;
    var b := Service(a, h, code);
    assert Get(b, x).cpu == (if x == h && code == PRINT then AfterPrint(s.cpu, s.mem) else Get(a, x).cpu);
    hide Service;
    var c := Reward(p, b, h);
    assert Get(c, x).cpu == Get(b, x).cpu;
  }

  lemma TerminateContext(p: Policy, s: State, h: nat, x: nat)
    requires h < |s.pcbs|
    ensures var t := Terminate(p, s, h);
            t.running.None? && Get(t, x).cpu == if x == h then s.cpu else Get(s, x).cpu
  {
    var t := Enqueue(Save(s, h), h, Terminated);
    assert Get(t, x).cpu == if x == h then s.cpu else Get(s, x).cpu;
    UnlinkKeeps(t, h);
  }

  // After a cycle the executor's state is what its cycle left; every other context is kept.
  lemma ActContext(p: Policy, s: State, x: nat)
    requires s.waiting == [] && s.running.Some? && s.running.value < |s.pcbs|
    requires var c := CycleOf(s, s.running.value).code; c == 0 || c == HALTED || PRINT_INT <= c <= INPUT
    ensures ContextOf(Act(p, s), x)
         == if s.running == Some(x) then CpuLeft(CycleOf(s, x)) else ContextOf(s, x)
  {
    var h := s.running.value;
    var o := CycleOf(s, h);
    var u := Execute(p, s, h);
    assert u.running == Some(h) && u.cpu == o.cpu && u.mem == o.mem && u.waiting == [] && |u.pcbs| == |s.pcbs|;
    assert Get(u, x).cpu == Get(s, x).cpu;
    hide Execute;
    if o.code >= 20 {
      InterruptedContext(p, u, h, o.code, x);
    } else if o.code == HALTED {
      TerminateContext(p, u, h, x);
    }
  }

  // ---------- memory contents ----------

  ghost predicate SameVals(m: Memory, n: Memory) {
    |m| == |n| && forall a :: 0 <= a < |m| ==> m[a].val == n[a].val
  }

  // After a call the bytes are those its cycle left.
  lemma ActVals(p: Policy, s: State)
    requires s.waiting == [] && s.running.Some? && CycleOf(s, s.running.value).code != FORK
    ensures SameVals(CycleOf(s, s.running.value).mem, Act(p, s).mem)
  {
    var h := s.running.value;
    CycleCodes(s.cpu, s.mem, Get(s, h).load);
    var u := Execute(p, s, h);
    assert u.mem == CycleOf(s, h).mem && u.waiting == [];
    SettleMap(p, u, h, CycleOf(s, h).code, h);
    hide Execute;
    hide Settle;
    assert SameVals(u.mem, Unlink(u, h).mem);
  }

  // Cells of a live program are marked, and belong to no other program.
  lemma LiveCells(s: State, x: nat, y: nat, a: int)
    requires MapOk(s) && Live(s, x) && 0 <= a < |s.mem| && s.pcbs[x].load <= a <= s.pcbs[x].load + s.pcbs[x].size
    ensures s.mem[a].marked
    ensures Live(s, y) && y != x ==> !(s.pcbs[y].load <= a <= s.pcbs[y].load + s.pcbs[y].size)
  {
    assert Owns(s, Program(x), a);
    if Live(s, y) && y != x {
      assert Owns(s, Program(y), a) ==> Program(x) == Program(y);
    }
  }

  // Two states in which x is live in the same place agree on its cells when the bytes agree.
  lemma IsolateSame(s: State, t: State, x: nat)
    requires MapOk(s) && MapOk(t) && Live(s, x) && Live(t, x) && |s.mem| == |t.mem|
    requires RegionOf(t, x) == RegionOf(s, x)
    requires forall a :: 0 <= a < |s.mem| && s.pcbs[x].load <= a <= s.pcbs[x].load + s.pcbs[x].size ==> s.mem[a].val == t.mem[a].val
    ensures View(t, x).mem == View(s, x).mem
  {
    assert s.pcbs[x].load == t.pcbs[x].load && s.pcbs[x].size == t.pcbs[x].size;
    forall a | 0 <= a < |s.mem| && s.pcbs[x].load <= a <= s.pcbs[x].load + s.pcbs[x].size
      ensures s.mem[a] == t.mem[a]
    {
      LiveCells(s, x, x, a);
      LiveCells(t, x, x, a);
    }
  }

  // ---------- one call ----------

  // A confined cycle gives no code of SWI 3-7, and ends its process only by a halt.
  lemma ConfinedCodes(c: Cpu, m: Memory, base: int, lo: int, hi: int)
    requires Confined(c, m, lo, hi)
    ensures var o := Exec(c, m, base).code; o == 0 || o == HALTED || PRINT_INT <= o <= INPUT
  {
    CycleCodes(c, m, base);
  }

  lemma IsolateOn(m: Memory, lo: int, hi: int)
    ensures SameOn(m, Isolate(m, lo, hi), lo, hi) && SameOn(Isolate(m, lo, hi), m, lo, hi)
  {
  }

  // A print cycle leaves the memory and R0 as they are.
  lemma PrintCycle(c: Cpu, m: Memory, base: int)
    requires Exec(c, m, base).code == PRINT
    ensures var o := Exec(c, m, base);
            Decode(m, c.pc) == Interrupt(1) && o.mem == m && Reg(o.cpu, 0) == Reg(c, 0)
  {
    CycleCodes(c, m, base);
  }

  lemma LeftLocal(c: Cpu, m: Memory, n: Memory, base: int, lo: int, hi: int)
    requires SameOn(m, n, lo, hi) && Confined(c, m, lo, hi)
    ensures CpuLeft(Exec(c, m, base)) == CpuLeft(Exec(c, n, base))
  {
    ExecLocal(c, m, n, base, lo, hi);
    var o := Exec(c, m, base);
    if o.code == PRINT {
      PrintCycle(c, m, base);
      PrintCycle(c, n, base);
      hide Exec;
      PrintLocal(o.cpu, m, n, lo, hi);
    }
  }

  // The cycle of the executor in the shared memory is its cycle alone, and touches no cell
  // outside its region.
  lemma CycleAlone(c: Cpu, m: Memory, load: int, size: int)
    requires Confined(c, Isolate(m, load, load + size), load, load + size)
    ensures var o, v := Exec(c, m, load), Solo(c, Isolate(m, load, load + size));
            && CpuLeft(o) == SoloStep(v, load).cpu
            && (o.code == HALTED <==> Stops(v, load))
            && (o.code == 0 || o.code == HALTED || PRINT_INT <= o.code <= INPUT)
            && SameOn(o.mem, SoloStep(v, load).mem, load, load + size)
            && SameOff(o.mem, m, load, load + size)
            && SameOff(SoloStep(v, load).mem, v.mem, load, load + size)
  {
    var lo, hi := load, load + size;
    var i := Isolate(m, lo, hi);
    hide Exec;
    hide Confined;
    hide SameOn;
    hide SameOff;
    hide CpuLeft;
    hide Isolate;
    IsolateOn(m, lo, hi);
    ConfinedLocal(c, i, m, lo, hi);
    ExecLocal(c, m, i, load, lo, hi);
    ExecLocal(c, i, m, load, lo, hi);
    LeftLocal(c, m, i, load, lo, hi);
    ConfinedCodes(c, m, load, lo, hi);
  }

  lemma PreparedMem(p: Policy, s: State, x: nat)
    ensures Prepare(p, s).mem == s.mem && Get(Prepare(p, s), x).load == Get(s, x).load
  {
    PrepareMap(p, s, x);
    assert RegionOf(Prepare(p, s), x).load == Get(Prepare(p, s), x).load;
  }

  // What one cycle of the running process does, in terms of its own view.
  lemma ActEffect(p: Policy, s: State, x: nat, load: int, size: int)
    requires s.waiting == [] && s.running.Some? && s.running.value < |s.pcbs|
    requires Get(s, s.running.value).load == load
    requires Confined(s.cpu, Isolate(s.mem, load, load + size), load, load + size)
    ensures var h := s.running.value;
            var v := Solo(s.cpu, Isolate(s.mem, load, load + size));
            var o := CycleOf(s, h).code;
            && (o == 0 || o == HALTED || PRINT_INT <= o <= INPUT)
            && (o == HALTED <==> Stops(v, load))
            && ContextOf(Act(p, s), x) == (if x == h then SoloStep(v, load).cpu else ContextOf(s, x))
            && |Act(p, s).mem| == |s.mem|
            && (forall a :: 0 <= a < |s.mem| ==>
                  Act(p, s).mem[a].val ==
                    if load <= a <= load + size then Val(SoloStep(v, load).mem, a) else s.mem[a].val)
  {
    var h := s.running.value;
    CycleAlone(s.cpu, s.mem, load, size);
    assert CycleOf(s, h) == Exec(s.cpu, s.mem, load);
    hide Exec;
    hide SoloStep;
    hide Confined;
    hide Stops;
    ActContext(p, s, x);
    ActVals(p, s);
    hide Act;
    hide CpuLeft;
  }

  // What one call does, in terms of the executor's view before it.
  lemma StepEffect(p: Policy, s: State, x: nat)
    requires Sound(s) && MapOk(s) && AllKeep(s) && Executor(p, s).Some?
    ensures var h := Executor(p, s).value;
            && Live(s, h)
            && var v, load, size := View(s, h), s.pcbs[h].load, s.pcbs[h].size;
            && (CodeOf(p, s) == 0 || CodeOf(p, s) == HALTED || PRINT_INT <= CodeOf(p, s) <= INPUT)
            && (CodeOf(p, s) == HALTED <==> Stops(v, load))
            && ContextOf(Step(p, s), x) == (if x == h then SoloStep(v, load).cpu else ContextOf(s, x))
            && |Step(p, s).mem| == |s.mem|
            && (forall a :: 0 <= a < |s.mem| ==>
                  Step(p, s).mem[a].val ==
                    if load <= a <= load + size then Val(SoloStep(v, load).mem, a) else s.mem[a].val)
  {
    var t, h := Prepare(p, s), Executor(p, s).value;
    ExecutorExists(p, s);
    assert Live(s, h);
    PrepareContext(p, s, h);
    PreparedMem(p, s, h);
    PrepareContext(p, s, x);
    var load, size := s.pcbs[h].load, s.pcbs[h].size;
    KeepsNow(View(s, h), load, size);
    assert View(s, h) == Solo(t.cpu, Isolate(t.mem, load, load + size));
    hide Prepare;
    hide Confined;
    hide View;
    hide ContextOf;
    hide Isolate;
    hide Act;
    hide SoloStep;
    hide Stops;
    hide MapOk;
    hide AllKeep;
    hide Conserved;
    ActEffect(p, t, x, load, size);
  }

  // The instructions process x has executed between two states.
  function Executed(s: State, t: State, x: nat): int {
    |Get(t, x).slices| - |Get(s, x).slices|
  }

  lemma StepExecuted(p: Policy, s: State, x: nat)
    requires Sound(s) && x < |s.pcbs|
    ensures Executed(s, Step(p, s), x) == if Executor(p, s) == Some(x) then 1 else 0
    ensures |Step(p, s).pcbs| >= |s.pcbs|
  {
    StepLedger(p, s, x);
    var t := Step(p, s);
    hide Step;
    hide Executor;
    hide StepEnds;
    assert LedgerAt(t, x).slices == Get(t, x).slices;
  }

  lemma StepSpares(p: Policy, s: State, x: nat)
    requires Sound(s) && x < |s.pcbs| && CodeOf(p, s) != FORK
    ensures RegionOf(Step(p, s), x) == RegionOf(s, x) && |Step(p, s).pcbs| == |s.pcbs|
    ensures Done(Step(p, s), x) <==> Done(s, x) || (StepEnds(p, s) && Executor(p, s) == Some(x))
  {
    StepMap(p, s, x);
    StepDone(p, s, x);
    hide Step;
    hide StepEnds;
    hide Executor;
    hide CodeOf;
  }

  lemma IdleKeeps(p: Policy, s: State, x: nat)
    requires Sound(s) && Executor(p, s).None?
    ensures ContextOf(Step(p, s), x) == ContextOf(s, x) && Step(p, s).mem == s.mem && CodeOf(p, s) == 0
  {
    PrepareContext(p, s, x);
    PreparedMem(p, s, x);
  }

  // One call moves the executor's view by exactly one instruction of its run alone, and
  // leaves the view of every other live process as it is.
  lemma StepView(p: Policy, s: State, x: nat)
    requires Sound(s) && MapOk(s) && AllKeep(s) && Live(s, x)
    ensures CodeOf(p, s) != FORK && MapOk(Step(p, s))
    ensures var t, v, load := Step(p, s), View(s, x), s.pcbs[x].load;
            && x < |t.pcbs| && RegionOf(t, x) == RegionOf(s, x)
            && (Live(t, x) <==> !(Executor(p, s) == Some(x) && Stops(v, load)))
            && ContextOf(t, x) == (if Executor(p, s) == Some(x) then SoloStep(v, load).cpu else v.cpu)
            && (Live(t, x) ==> View(t, x) == if Executor(p, s) == Some(x) then SoloStep(v, load) else v)
  {
    var t, e := Step(p, s), Executor(p, s);
    if e.None? {
      IdleKeeps(p, s, x);
      StepSpares(p, s, x);
      StepMapOk(p, s);
      StepEndsExecutor(p, s);
      hide Step;
      hide Executor;
      hide StepEnds;
      IsolateSame(s, t, x);
    } else {
      StepEffect(p, s, x);
      StepSpares(p, s, x);
      StepMapOk(p, s);
      EndsByHalt(p, s);
      hide Step;
      hide Executor;
      hide StepEnds;
      hide CodeOf;
      if Live(t, x) {
        if e == Some(x) {
          KeepsNow(View(s, x), s.pcbs[x].load, s.pcbs[x].size);
          MovedView(s, t, x);
        } else {
          OtherView(s, t, x, e.value);
        }
      }
    }
  }

  lemma EndsByHalt(p: Policy, s: State)
    requires Executor(p, s).Some? && CodeOf(p, s) != SHARED_ADDRESS
    ensures StepEnds(p, s) <==> CodeOf(p, s) == HALTED
  {
  }

  lemma MovedView(s: State, t: State, x: nat)
    requires MapOk(s) && MapOk(t) && Live(s, x) && Live(t, x) && |t.mem| == |s.mem| && RegionOf(t, x) == RegionOf(s, x)
    requires var v, load, size := View(s, x), s.pcbs[x].load, s.pcbs[x].size;
             && Confined(v.cpu, v.mem, load, load + size)
             && ContextOf(t, x) == SoloStep(v, load).cpu
             && forall a :: 0 <= a < |s.mem| ==>
                  t.mem[a].val == if load <= a <= load + size then Val(SoloStep(v, load).mem, a) else s.mem[a].val
    ensures View(t, x) == SoloStep(View(s, x), s.pcbs[x].load)
  {
    var v, load := View(s, x), s.pcbs[x].load;
    var w := SoloStep(v, load);
    SoloMarks(s, x);
    hide SoloStep;
    hide Confined;
    forall a | 0 <= a < |s.mem|
      ensures View(t, x).mem[a] == w.mem[a]
    {
      MovedCell(s, t, x, a);
    }
  }

  // A solo step keeps the size and the marks of memory.
  lemma SoloMarks(s: State, x: nat)
    requires MapOk(s) && Live(s, x)
    requires Confined(View(s, x).cpu, View(s, x).mem, s.pcbs[x].load, s.pcbs[x].load + s.pcbs[x].size)
    ensures var v := View(s, x);
            var w := SoloStep(v, s.pcbs[x].load);
            |v.mem| == |s.mem| && |w.mem| == |s.mem| && SameMarks(v.mem, w.mem)
            && forall a :: 0 <= a < |s.mem| && !(s.pcbs[x].load <= a <= s.pcbs[x].load + s.pcbs[x].size) ==> w.mem[a] == v.mem[a]
  {
    var v, load, size := View(s, x), s.pcbs[x].load, s.pcbs[x].size;
    CycleAlone(v.cpu, s.mem, load, size);
    ExecWrites(v.cpu, v.mem, load);
    hide Exec;
    hide Confined;
  }

  lemma MovedCell(s: State, t: State, x: nat, a: nat)
    requires MapOk(s) && MapOk(t) && Live(s, x) && Live(t, x) && |t.mem| == |s.mem| && RegionOf(t, x) == RegionOf(s, x)
    requires a < |s.mem|
    requires var v, load, size := View(s, x), s.pcbs[x].load, s.pcbs[x].size;
             var w := SoloStep(v, load);
             && |v.mem| == |s.mem| && |w.mem| == |s.mem| && SameMarks(v.mem, w.mem)
             && (load <= a <= load + size ==> t.mem[a].val == w.mem[a].val)
             && (!(load <= a <= load + size) ==> w.mem[a] == v.mem[a])
    ensures View(t, x).mem[a] == SoloStep(View(s, x), s.pcbs[x].load).mem[a]
  {
    var v, load, size := View(s, x), s.pcbs[x].load, s.pcbs[x].size;
    hide SoloStep;
    assert RegionOf(t, x).load == load && RegionOf(t, x).size == size;
    if load <= a <= load + size {
      LiveCells(s, x, x, a);
      LiveCells(t, x, x, a);
    }
  }

  lemma OtherView(s: State, t: State, x: nat, h: nat)
    requires MapOk(s) && MapOk(t) && Live(s, x) && Live(t, x) && Live(s, h) && h != x && |t.mem| == |s.mem|
    requires RegionOf(t, x) == RegionOf(s, x) && ContextOf(t, x) == ContextOf(s, x)
    requires forall a :: 0 <= a < |s.mem| && !(s.pcbs[h].load <= a <= s.pcbs[h].load + s.pcbs[h].size) ==> t.mem[a].val == s.mem[a].val
    ensures View(t, x) == View(s, x)
  {
    forall a | 0 <= a < |s.mem| && s.pcbs[x].load <= a <= s.pcbs[x].load + s.pcbs[x].size
      ensures s.mem[a].val == t.mem[a].val
    {
      LiveCells(s, x, h, a);
    }
    IsolateSame(s, t, x);
  }

  // ---------- runs ----------

  // Every program that arrives keeps to itself too, and shared segments are opened carefully.
  ghost predicate Modest(s: State, e: Event) {
    match e
    case Tick(p) => true
    case Arrive(name, i) => LoadCode(s, i) == 0 ==> KeepsToItself(View(Apply(s, e), |s.pcbs|), i.load, i.size)
    case _ => Careful(s, e)
  }

  ghost predicate ModestRun(s: State, es: seq<Event>)
    decreases |es|
  {
    es != [] ==> Modest(s, es[0]) && ModestRun(Apply(s, es[0]), es[1..])
  }

  ghost predicate Calm(s: State) {
    Sound(s) && MapOk(s) && AllKeep(s)
  }

  lemma StepCalm(p: Policy, s: State)
    requires Calm(s)
    ensures Calm(Step(p, s))
  {
    ApplySound(s, Tick(p));
    StepCodes(p, s);
    StepMapOk(p, s);
    var t := Step(p, s);
    forall x: nat | Live(t, x)
      ensures KeepsToItself(View(t, x), t.pcbs[x].load, t.pcbs[x].size)
    {
      StepSize(p, s, x);
      StepView(p, s, x);
      assert RegionOf(t, x).load == t.pcbs[x].load && RegionOf(t, x).size == t.pcbs[x].size;
      if Executor(p, s) == Some(x) {
        KeepsLater(View(s, x), s.pcbs[x].load, s.pcbs[x].size);
      }
    }
  }

  lemma StepCodes(p: Policy, s: State)
    requires Calm(s)
    ensures CodeOf(p, s) != FORK
  {
    if Executor(p, s).Some? {
      StepEffect(p, s, 0);
    }
  }

  lemma StepSize(p: Policy, s: State, x: nat)
    requires Calm(s) && Live(Step(p, s), x)
    ensures Live(s, x)
  {
    StepCodes(p, s);
    StepPlaces(p, s, 0);
    StepDone(p, s, x);
  }

  // The fields of x that an event other than a call leaves alone.
  ghost predicate SameProcess(s: State, t: State, x: nat) {
    && x < |t.pcbs| && ContextOf(t, x) == ContextOf(s, x) && Executed(s, t, x) == 0
    && Get(t, x).load == Get(s, x).load && Get(t, x).size == Get(s, x).size
  }

  lemma ShareContext(s: State, a: nat, b: nat, size: int, x: nat)
    requires x < |s.pcbs|
    ensures SameProcess(s, Share(s, a, b, size), x) && |Share(s, a, b, size).pcbs| == |s.pcbs|
  {
  }

  lemma UnlinkContext(s: State, a: nat, x: nat)
    requires x < |s.pcbs|
    ensures SameProcess(s, Unlink(s, a), x) && |Unlink(s, a).pcbs| == |s.pcbs|
  {
  }

  lemma OpenContext(s: State, size: int, one: string, two: string, x: nat)
    requires x < |s.pcbs|
    ensures SameProcess(s, OpenShared(s, size, one, two), x) && |OpenShared(s, size, one, two).pcbs| == |s.pcbs|
  {
    match (Lookup(s, one), Lookup(s, two))
    case (Some(a), Some(b)) =>
      UnlinkContext(s, a, x);
      UnlinkContext(Unlink(s, a), b, x);
      ShareContext(Unlink(Unlink(s, a), b), a, b, size, x);
      hide Unlink;
      hide Share;
    case _ =>
  }

  lemma SemaphoreContext(s: State, value: int, one: string, two: string, x: nat)
    requires x < |s.pcbs|
    ensures SameProcess(s, InitSemaphore(s, value, one, two), x) && |InitSemaphore(s, value, one, two).pcbs| == |s.pcbs|
  {
  }

  lemma LoadContext(s: State, name: string, i: Image, x: nat)
    requires x < |s.pcbs|
    ensures SameProcess(s, LoadProgram(s, name, i), x)
    ensures |LoadProgram(s, name, i).pcbs| == |s.pcbs| + if LoadCode(s, i) == 0 then 1 else 0
  {
  }

  lemma QuietContext(s: State, e: Event, x: nat)
    requires !e.Tick? && x < |s.pcbs|
    ensures SameProcess(s, Apply(s, e), x)
    ensures |Apply(s, e).pcbs| == |s.pcbs| + if e.Arrive? && LoadCode(s, e.image) == 0 then 1 else 0
  {
    match e
    case Arrive(name, i) => LoadContext(s, name, i, x);
    case NewSemaphore(value, one, two) => SemaphoreContext(s, value, one, two, x);
    case OpenSegment(size, one, two) => OpenContext(s, size, one, two, x);
    case Log =>
  }

  lemma QuietDone(s: State, e: Event, x: nat)
    requires !e.Tick? && x < |s.pcbs|
    ensures Live(Apply(s, e), x) <==> Live(s, x)
  {
    QuietContext(s, e, x);
    if !e.Arrive? {
      OtherLedgers(s, e, x);
    }
  }

  lemma OpenVals(s: State, size: int, one: string, two: string)
    ensures SameVals(s.mem, OpenShared(s, size, one, two).mem)
  {
    match (Lookup(s, one), Lookup(s, two))
    case (Some(a), Some(b)) =>
      var r := Unlink(s, a);
      assert SameVals(s.mem, r.mem);
      var u := Unlink(r, b);
      assert SameVals(r.mem, u.mem);
      hide Unlink;
      assert SameVals(u.mem, Share(u, a, b, size).mem);
    case _ =>
  }

  // The other events leave the view of every live process as it is.
  lemma QuietView(s: State, e: Event, x: nat)
    requires Calm(s) && !e.Tick? && Careful(s, e) && Live(s, x)
    ensures Live(Apply(s, e), x) && View(Apply(s, e), x) == View(s, x)
  {
    var t := Apply(s, e);
    QuietContext(s, e, x);
    QuietDone(s, e, x);
    ApplyMapOk(s, e);
    forall a | 0 <= a < |s.mem| && s.pcbs[x].load <= a <= s.pcbs[x].load + s.pcbs[x].size
      ensures |t.mem| == |s.mem| && s.mem[a].val == t.mem[a].val
    {
      LiveCells(s, x, x, a);
      if e.Arrive? {
        LoadEffect(s, e.name, e.image);
      } else if e.OpenSegment? {
        OpenVals(s, e.size, e.one, e.two);
      }
    }
    QuietLength(s, e);
    var p := t.pcbs[x];
    hide Apply;
    assert View(t, x).mem == View(s, x).mem by {
      forall a | 0 <= a < |s.mem| && p.load <= a <= p.load + p.size
        ensures s.mem[a] == t.mem[a]
      {
        LiveCells(s, x, x, a);
        LiveCells(t, x, x, a);
      }
    }
  }

  lemma QuietLength(s: State, e: Event)
    requires !e.Tick?
    ensures |Apply(s, e).mem| == |s.mem|
  {
    if e.Arrive? {
      LoadEffect(s, e.name, e.image);
    } else if e.OpenSegment? {
      OpenVals(s, e.size, e.one, e.two);
    }
  }

  lemma ApplyCalm(s: State, e: Event)
    requires Calm(s) && Modest(s, e)
    ensures Calm(Apply(s, e))
  {
    ApplySound(s, e);
    if e.Tick? {
      StepCalm(e.policy, s);
    } else {
      ApplyMapOk(s, e);
      var t := Apply(s, e);
      forall x: nat | Live(t, x)
        ensures KeepsToItself(View(t, x), t.pcbs[x].load, t.pcbs[x].size)
      {
        if x < |s.pcbs| {
          QuietContext(s, e, x);
          QuietDone(s, e, x);
          QuietView(s, e, x);
        } else {
          QuietNew(s, e, x);
        }
      }
    }
  }

  lemma QuietNew(s: State, e: Event, x: nat)
    requires !e.Tick? && |s.pcbs| <= x < |Apply(s, e).pcbs|
    ensures e.Arrive? && LoadCode(s, e.image) == 0 && x == |s.pcbs|
    ensures Apply(s, e).pcbs[x].load == e.image.load && Apply(s, e).pcbs[x].size == e.image.size
  {
    if !e.Arrive? {
      OtherLedgers(s, e, x);
    }
  }

  // How far process x is at the end of a run: its context is that of its own run alone, after
  // as many instructions as it executed; while it lives so are its cells, and its run alone has
  // not stopped; and when it is gone its run alone stopped at its last instruction and not before.
  ghost predicate AsAlone(s: State, t: State, x: nat) {
    var v, load, n := View(s, x), Get(s, x).load, Executed(s, t, x);
    && n >= 0
    && ContextOf(t, x) == Alone(v, load, n).cpu
    && (Live(t, x) ==> View(t, x) == Alone(v, load, n) && Going(v, load, n))
    && (!Live(t, x) ==> n >= 1 && Stops(Alone(v, load, n - 1), load) && Going(v, load, n - 1))
  }

  lemma DeadStays(s: State, e: Event, x: nat)
    requires Calm(s) && x < |s.pcbs| && !Live(s, x)
    ensures var t := Apply(s, e);
            x < |t.pcbs| && !Live(t, x) && ContextOf(t, x) == ContextOf(s, x) && Executed(s, t, x) == 0
  {
    if e.Tick? {
      var p := e.policy;
      StepExecuted(p, s, x);
      StepDone(p, s, x);
      if Executor(p, s).Some? {
        StepEffect(p, s, x);
      } else {
        IdleKeeps(p, s, x);
      }
    } else {
      QuietContext(s, e, x);
      QuietDone(s, e, x);
    }
  }

  lemma {:induction false} RunDead(s: State, es: seq<Event>, x: nat)
    requires Calm(s) && ModestRun(s, es) && x < |s.pcbs| && !Live(s, x)
    ensures var t := Run(s, es);
            x < |t.pcbs| && !Live(t, x) && ContextOf(t, x) == ContextOf(s, x) && Executed(s, t, x) == 0
    decreases |es|
  {
    if es != [] {
      ApplyCalm(s, es[0]);
      DeadStays(s, es[0], x);
      RunDead(Apply(s, es[0]), es[1..], x);
    }
  }

  lemma ApplyAsAlone(s: State, e: Event, x: nat)
    requires Calm(s) && Modest(s, e) && Live(s, x)
    ensures AsAlone(s, Apply(s, e), x) && x < |Apply(s, e).pcbs| && Get(Apply(s, e), x).load == s.pcbs[x].load
  {
    var v, load := View(s, x), s.pcbs[x].load;
    assert Alone(v, load, 0) == v && Alone(v, load, 1) == SoloStep(v, load) by {
      hide SoloStep;
      assert Alone(SoloStep(v, load), load, 0) == SoloStep(v, load);
    }
    OneGoing(v, load);
    hide Alone;
    hide Going;
    if e.Tick? {
      StepView(e.policy, s, x);
      StepExecuted(e.policy, s, x);
      assert RegionOf(Step(e.policy, s), x).load == load;
    } else {
      QuietView(s, e, x);
      QuietContext(s, e, x);
    }
  }

  lemma OneGoing(v: Solo, load: int)
    ensures Going(v, load, 0) && (Going(v, load, 1) <==> !Stops(v, load))
  {
    assert Alone(v, load, 0) == v;
  }

  lemma AsAloneComposes(s: State, t: State, u: State, x: nat)
    requires AsAlone(s, t, x) && Live(t, x) && Get(t, x).load == Get(s, x).load && AsAlone(t, u, x)
    ensures AsAlone(s, u, x)
  {
    var v, load := View(s, x), Get(s, x).load;
    var a, b := Executed(s, t, x), Executed(t, u, x);
    hide Alone;
    hide SoloStep;
    hide Stops;
    hide View;
    hide ContextOf;
    hide Live;
    hide Going;
    AloneSum(v, load, a, b);
    if Live(u, x) {
      GoingSum(v, load, a, b);
    } else {
      AloneSum(v, load, a, b - 1);
      GoingSum(v, load, a, b - 1);
    }
  }

  lemma AsAloneSelf(s: State, x: nat)
    requires Live(s, x)
    ensures AsAlone(s, s, x)
  {
    assert Alone(View(s, x), Get(s, x).load, 0) == View(s, x);
  }

  lemma DeadAsAlone(s: State, t: State, u: State, x: nat)
    requires AsAlone(s, t, x) && !Live(t, x) && !Live(u, x) && Executed(t, u, x) == 0 && ContextOf(u, x) == ContextOf(t, x)
    ensures AsAlone(s, u, x)
  {
    hide Alone;
    hide SoloStep;
    hide Stops;
    hide View;
    hide ContextOf;
    hide Live;
  }

  // Schedule transparency: when every process, run alone, keeps to its own memory and to
  // SWI 0-2 and 10, then under any policies, quanta, load order and arrivals each process
  // has after its n-th instruction exactly the registers, PC, Z and memory of its own run
  // alone after n instructions.
  lemma {:induction false} Transparent(s: State, es: seq<Event>, x: nat)
    requires Calm(s) && ModestRun(s, es) && Live(s, x)
    ensures x < |Run(s, es).pcbs| && AsAlone(s, Run(s, es), x)
    decreases |es|
  {
    if es == [] {
      AsAloneSelf(s, x);
    } else {
      var t := Apply(s, es[0]);
      ApplyCalm(s, es[0]);
      ApplyAsAlone(s, es[0], x);
      if Live(t, x) {
        Transparent(t, es[1..], x);
        AsAloneComposes(s, t, Run(s, es), x);
      } else {
        RunDead(t, es[1..], x);
        DeadAsAlone(s, t, Run(s, es), x);
      }
      hide AsAlone;
      hide Apply;
    }
  }

  lemma BootCalm()
    ensures Calm(Boot())
  {
    BootSound();
    BootMapOk();
  }

  lemma {:induction false} RunCalm(s: State, es: seq<Event>)
    requires Calm(s) && ModestRun(s, es)
    ensures Calm(Run(s, es))
    decreases |es|
  {
    if es != [] {
      ApplyCalm(s, es[0]);
      RunCalm(Apply(s, es[0]), es[1..]);
    }
  }

  // The state in which a program starts: cleared registers, PC at its first instruction, its
  // bytes in its own, marked cells.
  lemma StartOf(s: State, name: string, i: Image)
    requires Calm(s) && Modest(s, Arrive(name, i)) && LoadCode(s, i) == 0
    ensures var t, x := LoadProgram(s, name, i), |s.pcbs|;
            && Live(t, x) && View(t, x).cpu == ClearedCpu.(pc := i.first + i.load)
            && forall a :: 0 <= a < |s.mem| && i.load <= a <= i.load + i.size && a - i.load < |i.bytes| ==>
                 View(t, x).mem[a] == Cell(i.bytes[a - i.load], true)
  {
    var t, x := LoadProgram(s, name, i), |s.pcbs|;
    ApplySound(s, Arrive(name, i));
    UnknownNotDone(s, x);
    assert Places(s, x) == 0;
    assert s.running != Some(x);
  }

  // From power-on: a program loaded at any time of any such run behaves, whatever happens
  // before and after, as it does alone from its start.
  lemma TransparentFromBoot(before: seq<Event>, name: string, i: Image, after: seq<Event>)
    requires ModestRun(Boot(), before)
    requires var s := Run(Boot(), before);
             LoadCode(s, i) == 0 && Modest(s, Arrive(name, i)) && ModestRun(LoadProgram(s, name, i), after)
    ensures var s := Run(Boot(), before);
            var t, x := LoadProgram(s, name, i), |s.pcbs|;
            View(t, x).cpu == ClearedCpu.(pc := i.first + i.load) && AsAlone(t, Run(t, after), x)
  {
    var s := Run(Boot(), before);
    BootCalm();
    RunCalm(Boot(), before);
    StartOf(s, name, i);
    ApplyCalm(s, Arrive(name, i));
    Transparent(LoadProgram(s, name, i), after, |s.pcbs|);
  }
}
