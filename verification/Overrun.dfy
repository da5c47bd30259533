// A run in which a semaphore of one unit lets two processes in.
module Overrun {
  import opened Options
  import opened Machine
  import opened MachineLaws
  import opened Processes
  import opened System
  import opened Semaphores

  // SWI 5, SWI 6, SWI 5: acquire, release, acquire.
  const Holder: Image := Image(0, 17, 0, [20, 5, 0, 0, 0, 0, 20, 6, 0, 0, 0, 0, 20, 5, 0, 0, 0, 0])

  // SWI 5, SWI 0: acquire, print a number.
  const Waiter: Image := Image(100, 11, 0, [20, 5, 0, 0, 0, 0, 20, 0, 0, 0, 0, 0])

  ghost predicate Text(m: Memory) {
    && |m| == CAPACITY
    && Decode(m, 0) == Interrupt(5) && Decode(m, 6) == Interrupt(6) && Decode(m, 12) == Interrupt(5)
    && Decode(m, 100) == Interrupt(5) && Decode(m, 106) == Interrupt(0)
  }

  function At(pc: int): Cpu {
    ClearedCpu.(pc := pc)
  }

  // Between calls: the processes 0 and 1 at PC a and b, both of level 0 and using semaphore 0.
  ghost predicate Scene(s: State, queue: seq<nat>, a: int, b: int, sem: Semaphore) {
    && s.arrived == [] && s.waiting == [] && s.ready == [queue, [], []] && s.running == None
    && |s.pcbs| == 2 && s.semaphores == [sem] && Text(s.mem)
    && s.pcbs[0].cpu == At(a) && s.pcbs[0].priority == 0 && s.pcbs[0].semId == 0
    && s.pcbs[1].cpu == At(b) && s.pcbs[1].priority == 0 && s.pcbs[1].semId == 0
  }

  function PcOf(h: nat, a: int, b: int): int {
    if h == 0 then a else b
  }

  // The executing process right after its cycle.
  ghost predicate Interrupting(s: State, h: nat, rest: seq<nat>, a: int, b: int, sem: Semaphore) {
    && h < 2 && s.arrived == [] && s.waiting == [] && s.ready == [rest, [], []] && s.running == Some(h)
    && |s.pcbs| == 2 && s.semaphores == [sem] && Text(s.mem) && s.cpu == At(PcOf(h, a, b))
    && s.pcbs[0].priority == 0 && s.pcbs[0].semId == 0 && s.pcbs[1].priority == 0 && s.pcbs[1].semId == 0
    && s.pcbs[1 - h].cpu == At(PcOf(1 - h, a, b))
  }

  lemma CallStarts(s: State, h: nat, rest: seq<nat>, a: int, b: int, sem: Semaphore, n: int)
    requires Scene(s, [h] + rest, a, b, sem) && h < 2 && Recognised(n) && n != 10
    requires Decode(s.mem, PcOf(h, a, b)) == Interrupt(n)
    ensures Executor(Fcfs, s) == Some(h) && CodeOf(Fcfs, s) == 20 + n
    ensures var e := Execute(Fcfs, Prepare(Fcfs, s), h);
            && Interrupting(e, h, rest, if h == 0 then a + 6 else a, if h == 0 then b else b + 6, sem)
            && Step(Fcfs, s) == Interrupted(Fcfs, e, h, 20 + n)
  {
    var d := TagRunning(SwitchIn(s));
    assert Admit(s) == s;
    assert Top(s.ready) == 0 && s.ready[0][0] == h && s.ready[0][1..] == rest;
    assert Prepare(Fcfs, s) == d;
    assert d.ready == [rest, [], []] && d.running == Some(h) && d.cpu == At(PcOf(h, a, b)) && d.mem == s.mem;
    hide Prepare;
    hide SwitchIn;
    assert CycleOf(d, h) == Outcome(At(PcOf(h, a, b) + 6), s.mem, 2, 20 + n);
    hide Interrupted;
  }

  // What each of the three interrupts does to the scene.
  function After(h: nat, rest: seq<nat>, sem: Semaphore, n: int): seq<nat> {
    if n == 5 && sem.value == 0 then rest
    else rest + (if n == 6 && sem.blocked != [] then [sem.blocked[0]] else []) + [h]
  }

  lemma Parked(s: State, h: nat, rest: seq<nat>, a: int, b: int, sem: Semaphore)
    requires Interrupting(s, h, rest, a, b, sem)
    ensures var t := Park(s, h);
            && t.arrived == [] && t.waiting == [h] && t.ready == s.ready && t.semaphores == s.semaphores && t.mem == s.mem
            && |t.pcbs| == 2 && t.pcbs[h].cpu == s.cpu && t.pcbs[1 - h].cpu == s.pcbs[1 - h].cpu
            && t.pcbs[0].priority == 0 && t.pcbs[0].semId == 0 && t.pcbs[1].priority == 0 && t.pcbs[1].semId == 0
  {
  }

  // Serving the interrupt, once the process is parked.
  lemma Serves(t: State, h: nat, sem: Semaphore, n: int)
    requires n == 0 || n == 5 || n == 6
    requires h < 2 && |t.pcbs| == 2 && t.waiting == [h] && t.semaphores == [sem] && |t.ready[0]| >= 0
    requires t.pcbs[0].priority == 0 && t.pcbs[0].semId == 0 && t.pcbs[1].priority == 0 && t.pcbs[1].semId == 0
    requires sem.blocked != [] ==> sem.blocked[0] < 2
    ensures var u := Service(t, h, 20 + n);
            && u.arrived == t.arrived && u.semaphores == [Served(sem, h, 20 + n)] && u.mem == t.mem
            && u.waiting == (if n == 5 && sem.value == 0 then [] else [h])
            && u.ready[0] == t.ready[0] + (if n == 6 && sem.blocked != [] then [sem.blocked[0]] else [])
            && u.ready[1] == t.ready[1] && u.ready[2] == t.ready[2] && |u.pcbs| == 2
            && forall x :: 0 <= x < 2 ==> u.pcbs[x].cpu == t.pcbs[x].cpu && u.pcbs[x].priority == 0 && u.pcbs[x].semId == 0
  {
    if n == 5 {
      AcquireServes(t, h, sem);
      hide Acquire;
    } else if n == 6 {
      ReleaseServes(t, h, sem);
      hide Release;
    }
  }

  lemma AcquireServes(t: State, h: nat, sem: Semaphore)
    requires h < 2 && |t.pcbs| == 2 && t.waiting == [h] && t.semaphores == [sem]
    requires t.pcbs[0].priority == 0 && t.pcbs[0].semId == 0 && t.pcbs[1].priority == 0 && t.pcbs[1].semId == 0
    ensures var u := Acquire(t, h);
            && u.arrived == t.arrived && u.semaphores == [Served(sem, h, ACQUIRE)] && u.mem == t.mem
            && u.waiting == (if sem.value == 0 then [] else [h]) && u.ready == t.ready && |u.pcbs| == 2
            && forall x :: 0 <= x < 2 ==> u.pcbs[x].cpu == t.pcbs[x].cpu && u.pcbs[x].priority == 0 && u.pcbs[x].semId == 0
  {
  }

  lemma ReleaseServes(t: State, h: nat, sem: Semaphore)
    requires h < 2 && |t.pcbs| == 2 && t.waiting == [h] && t.semaphores == [sem]
    requires t.pcbs[0].priority == 0 && t.pcbs[0].semId == 0 && t.pcbs[1].priority == 0 && t.pcbs[1].semId == 0
    requires sem.blocked != [] ==> sem.blocked[0] < 2
    ensures var u := Release(t, h);
            && u.arrived == t.arrived && u.semaphores == [Served(sem, h, RELEASE)] && u.mem == t.mem && u.waiting == [h]
            && u.ready[0] == t.ready[0] + (if sem.blocked != [] then [sem.blocked[0]] else [])
            && u.ready[1] == t.ready[1] && u.ready[2] == t.ready[2] && |u.pcbs| == 2
            && forall x :: 0 <= x < 2 ==> u.pcbs[x].cpu == t.pcbs[x].cpu && u.pcbs[x].priority == 0 && u.pcbs[x].semId == 0
  {
  }

  // One call of the scene: its actions at the semaphore and the next scene.
  lemma Call(s: State, h: nat, rest: seq<nat>, a: int, b: int, sem: Semaphore, n: int)
    requires Scene(s, [h] + rest, a, b, sem) && h < 2 && (n == 0 || n == 5 || n == 6)
    requires Decode(s.mem, PcOf(h, a, b)) == Interrupt(n) && (sem.blocked != [] ==> sem.blocked[0] < 2)
    ensures CallActions(Fcfs, s, 0) == ActionsOf(sem, h, 20 + n)
    ensures Scene(Step(Fcfs, s), After(h, rest, sem, n), if h == 0 then a + 6 else a, if h == 0 then b else b + 6,
                  Served(sem, h, 20 + n))
  {
    hide Execute;
    hide Prepare;
    hide Text;
    hide Served;
    hide Interrupted;
    hide Interrupting;
    hide Executor;
    hide CodeOf;
    hide Step;
    TwoProcesses(s, [h] + rest, a, b, sem);
    hide Scene;
    CallStarts(s, h, rest, a, b, sem, n);
    CallEnds(Execute(Fcfs, Prepare(Fcfs, s), h), h, rest, if h == 0 then a + 6 else a, if h == 0 then b else b + 6, sem, n);
  }

  lemma TwoProcesses(s: State, queue: seq<nat>, a: int, b: int, sem: Semaphore)
    requires Scene(s, queue, a, b, sem)
    ensures |s.semaphores| == 1 && s.semaphores[0] == sem && Get(s, 0).semId == 0 && Get(s, 1).semId == 0
  {
  }

  lemma CallEnds(e: State, h: nat, rest: seq<nat>, a: int, b: int, sem: Semaphore, n: int)
    requires Interrupting(e, h, rest, a, b, sem) && (n == 0 || n == 5 || n == 6)
    requires sem.blocked != [] ==> sem.blocked[0] < 2
    ensures Scene(Interrupted(Fcfs, e, h, 20 + n), After(h, rest, sem, n), a, b, Served(sem, h, 20 + n))
  {
    hide Text;
    hide Served;
    hide Park;
    hide Service;
    Parked(e, h, rest, a, b, sem);
    Serves(Park(e, h), h, sem, n);
    Returned(Service(Park(e, h), h, 20 + n), h, rest, a, b, sem, n);
  }

  // Back to the ready queue, unless blocked.
  lemma Returned(u: State, h: nat, rest: seq<nat>, a: int, b: int, sem: Semaphore, n: int)
    requires h < 2 && (n == 0 || n == 5 || n == 6) && u.arrived == [] && |u.pcbs| == 2
    requires u.semaphores == [Served(sem, h, 20 + n)] && Text(u.mem) && u.waiting == (if n == 5 && sem.value == 0 then [] else [h])
    requires u.ready[0] == rest + (if n == 6 && sem.blocked != [] then [sem.blocked[0]] else []) && u.ready[1] == [] && u.ready[2] == []
    requires u.pcbs[0].cpu == At(a) && u.pcbs[0].priority == 0 && u.pcbs[0].semId == 0
    requires u.pcbs[1].cpu == At(b) && u.pcbs[1].priority == 0 && u.pcbs[1].semId == 0
    ensures Scene(Vacate(Fcfs, Resume(Reward(Fcfs, u, h), h)), After(h, rest, sem, n), a, b, Served(sem, h, 20 + n))
  {
    hide Text;
    hide Served;
    var r := Resume(u, h);
    assert r.ready[0] == After(h, rest, sem, n) && r.ready[1] == [] && r.ready[2] == [];
    assert r.ready == [After(h, rest, sem, n), [], []];
  }

  // ---------- the run ----------

  // Two programs and a semaphore of one unit for them.
  const Setting: seq<Event> := [Arrive("a", Holder), Arrive("b", Waiter), NewSemaphore(1, "a", "b")]

  function BothLoaded(): State {
    LoadProgram(LoadProgram(Boot(), "a", Holder), "b", Waiter)
  }

  function Start(): State {
    InitSemaphore(BothLoaded(), 1, "a", "b")
  }

  lemma StartIsRun()
    ensures Start() == Run(Boot(), Setting)
  {
    hide LoadProgram;
    hide InitSemaphore;
    hide Boot;
    var es: seq<Event> := [Arrive("b", Waiter), NewSemaphore(1, "a", "b")];
    var fs: seq<Event> := [NewSemaphore(1, "a", "b")];
    assert Setting[1..] == es && es[1..] == fs && fs[1..] == [];
    var one := Apply(Boot(), Setting[0]);
    assert one == LoadProgram(Boot(), "a", Holder);
    var two := Apply(one, es[0]);
    assert two == BothLoaded();
    assert Run(Boot(), Setting) == Run(one, es) == Run(two, fs) == Run(Apply(two, fs[0]), []);
    assert Apply(two, fs[0]) == Start();
  }

  lemma HolderLoaded()
    ensures var s := LoadProgram(Boot(), "a", Holder);
            && s.arrived == [0] && s.waiting == [] && s.ready == [[], [], []] && s.running == None
            && |s.pcbs| == 1 && s.pcbs[0].cpu == At(0) && s.pcbs[0].priority == 0 && s.names == map["a" := 0]
            && s.semaphores == [] && |s.mem| == CAPACITY
            && (forall c :: 0 <= c < CAPACITY ==> s.mem[c].val == if c < 18 then Holder.bytes[c] else 0)
            && (forall c :: 0 <= c < CAPACITY ==> (s.mem[c].marked <==> c <= 17))
  {
    assert LoadCode(Boot(), Holder) == 0;
  }

  lemma WaiterLoaded(s: State)
    requires s.arrived == [0] && s.waiting == [] && s.ready == [[], [], []] && s.running == None
    requires |s.pcbs| == 1 && s.pcbs[0].cpu == At(0) && s.pcbs[0].priority == 0 && s.names == map["a" := 0]
    requires s.semaphores == [] && |s.mem| == CAPACITY
    requires forall c :: 0 <= c < CAPACITY ==> (s.mem[c].marked <==> c <= 17)
    ensures var t := LoadProgram(s, "b", Waiter);
            && t.arrived == [0, 1] && t.waiting == [] && t.ready == [[], [], []] && t.running == None
            && |t.pcbs| == 2 && t.pcbs[0].cpu == At(0) && t.pcbs[0].priority == 0
            && t.pcbs[1].cpu == At(100) && t.pcbs[1].priority == 0 && t.names == map["a" := 0, "b" := 1]
            && t.semaphores == [] && |t.mem| == CAPACITY
            && forall c :: 0 <= c < CAPACITY ==> t.mem[c].val == if 100 <= c < 112 then Waiter.bytes[c - 100] else s.mem[c].val
  {
    assert LoadCode(s, Waiter) == 0;
  }

  lemma TextLoaded()
    ensures Text(BothLoaded().mem)
  {
    var s := LoadProgram(Boot(), "a", Holder);
    HolderLoaded();
    WaiterLoaded(s);
    var m := BothLoaded().mem;
    hide LoadProgram;
    hide Decode;
    HolderText(m);
    WaiterText(m);
  }

  lemma HolderText(m: Memory)
    requires |m| == CAPACITY && forall c :: 0 <= c < 18 ==> m[c].val == Holder.bytes[c]
    ensures Decode(m, 0) == Interrupt(5) && Decode(m, 6) == Interrupt(6) && Decode(m, 12) == Interrupt(5)
  {
    hide Decode;
    Code(m, 0, 5);
    Code(m, 6, 6);
    Code(m, 12, 5);
  }

  lemma WaiterText(m: Memory)
    requires |m| == CAPACITY && forall c :: 100 <= c < 112 ==> m[c].val == Waiter.bytes[c - 100]
    ensures Decode(m, 100) == Interrupt(5) && Decode(m, 106) == Interrupt(0)
  {
    hide Decode;
    Code(m, 100, 5);
    Code(m, 106, 0);
  }

  lemma Code(m: Memory, pc: int, n: byte)
    requires Val(m, pc) == 20 && Val(m, pc + 1) == n && n < 8
    requires Val(m, pc + 2) == 0 && Val(m, pc + 3) == 0 && Val(m, pc + 4) == 0
    ensures Decode(m, pc) == Interrupt(n)
  {
  }

  // The first call admits both programs; it does what it would do if they were ready already.
  lemma Opening()
    ensures var s := Start();
            && s.semaphores == [Semaphore(1, [])] && Scene(Admit(s), [0, 1], 0, 100, Semaphore(1, []))
            && Step(Fcfs, s) == Step(Fcfs, Admit(s)) && CallActions(Fcfs, s, 0) == CallActions(Fcfs, Admit(s), 0)
  {
    hide Scene;
    hide Prepare;
    hide Act;
    hide Admit;
    hide Start;
    OpeningScene();
    var s := Start();
    AdmitTwice(s);
    assert Prepare(Fcfs, s) == Prepare(Fcfs, Admit(s)) by {
      PrepareAdmitted(s);
    }
  }

  lemma PrepareAdmitted(s: State)
    requires Admit(Admit(s)) == Admit(s)
    ensures Prepare(Fcfs, s) == Prepare(Fcfs, Admit(s))
  {
    hide Admit;
  }

  lemma AdmitTwice(s: State)
    requires Admit(s).arrived == []
    ensures Admit(Admit(s)) == Admit(s)
  {
  }

  // The opening scene, once both programs are admitted.
  lemma OpeningScene()
    ensures var s := Start();
            && s.semaphores == [Semaphore(1, [])] && Scene(Admit(s), [0, 1], 0, 100, Semaphore(1, []))
            && Admit(s).arrived == [] && Admit(s).semaphores == s.semaphores
            && forall h: nat :: Get(Admit(s), h).semId == Get(s, h).semId
  {
    HolderLoaded();
    WaiterLoaded(LoadProgram(Boot(), "a", Holder));
    TextLoaded();
    SemaphoreGiven(BothLoaded());
    hide LoadProgram;
    hide BothLoaded;
    hide InitSemaphore;
    hide Text;
    AdmitTwo(Start());
  }

  lemma SemaphoreGiven(b: State)
    requires |b.pcbs| == 2 && b.names == map["a" := 0, "b" := 1] && b.semaphores == []
    ensures InitSemaphore(b, 1, "a", "b")
         == b.(semaphores := [Semaphore(1, [])], pcbs := [b.pcbs[0].(semId := 0), b.pcbs[1].(semId := 0)])
  {
    assert "a" != "b";
    assert b.pcbs[0 := b.pcbs[0].(semId := 0)][1 := b.pcbs[1].(semId := 0)]
        == [b.pcbs[0].(semId := 0), b.pcbs[1].(semId := 0)];
  }

  lemma AdmitTwo(s: State)
    requires s.arrived == [0, 1] && |s.pcbs| == 2 && s.ready == [[], [], []]
    requires s.pcbs[0].priority == 0 && s.pcbs[1].priority == 0
    ensures Admit(s) == s.(arrived := [], ready := [[0, 1], [], []],
                           pcbs := [s.pcbs[0].(tag := Ready), s.pcbs[1].(tag := Ready)])
  {
    var t := Enqueue(s.(arrived := s.arrived[1..]), 0, Ready);
    assert t.ready[0] == [0] && t.ready[1] == [] && t.ready[2] == [] && t.ready == [[0], [], []];
    assert t.pcbs == [s.pcbs[0].(tag := Ready), s.pcbs[1]] && t.arrived == [1];
    var u := Enqueue(t.(arrived := t.arrived[1..]), 1, Ready);
    assert u.ready[0] == [0, 1] && u.ready[1] == [] && u.ready[2] == [] && u.ready == [[0, 1], [], []];
    assert u.pcbs == [s.pcbs[0].(tag := Ready), s.pcbs[1].(tag := Ready)] && u.arrived == [];
    assert Admit(s) == Admit(t) == Admit(u) == u;
  }

  // Five FCFS calls after the setting: process 0 acquires, process 1 blocks, process 0 releases
  // and so wakes process 1, process 1 runs on, process 0 acquires again. Both are now inside,
  // although the semaphore has one unit.
  const FiveCalls: seq<Event> := [Tick(Fcfs), Tick(Fcfs), Tick(Fcfs), Tick(Fcfs), Tick(Fcfs)]

  lemma LogStep(s: State, es: seq<Event>)
    ensures ActionLog(s, [Tick(Fcfs)] + es, 0) == CallActions(Fcfs, s, 0) + ActionLog(Step(Fcfs, s), es, 0)
  {
    hide Step;
    hide CallActions;
    assert ([Tick(Fcfs)] + es)[1..] == es;
  }

  lemma TextOf(s: State, queue: seq<nat>, a: int, b: int, sem: Semaphore)
    requires Scene(s, queue, a, b, sem)
    ensures Text(s.mem)
  {
  }

  lemma FirstCall(s: State)
    requires Scene(s, [0, 1], 0, 100, Semaphore(1, []))
    ensures CallActions(Fcfs, s, 0) == [Granted(0)] && Scene(Step(Fcfs, s), [1, 0], 6, 100, Semaphore(0, []))
  {
    hide Step;
    hide CallActions;
    hide Scene;
    hide Decode;
    assert [0] + [1] == [0, 1];
    TextOf(s, [0, 1], 0, 100, Semaphore(1, []));
    Call(s, 0, [1], 0, 100, Semaphore(1, []), 5);
    assert After(0, [1], Semaphore(1, []), 5) == [1, 0];
  }

  lemma SecondCall(s: State)
    requires Scene(s, [1, 0], 6, 100, Semaphore(0, []))
    ensures CallActions(Fcfs, s, 0) == [Refused(1)] && Scene(Step(Fcfs, s), [0], 6, 106, Semaphore(0, [1]))
  {
    hide Step;
    hide CallActions;
    hide Scene;
    hide Decode;
    assert [1] + [0] == [1, 0];
    TextOf(s, [1, 0], 6, 100, Semaphore(0, []));
    Call(s, 1, [0], 6, 100, Semaphore(0, []), 5);
    assert Served(Semaphore(0, []), 1, ACQUIRE) == Semaphore(0, [1]);
  }

  lemma ThirdCall(s: State)
    requires Scene(s, [0], 6, 106, Semaphore(0, [1]))
    ensures CallActions(Fcfs, s, 0) == [Released(0), Woken(1)]
    ensures Scene(Step(Fcfs, s), [1, 0], 12, 106, Semaphore(1, []))
  {
    hide Step;
    hide CallActions;
    hide Scene;
    hide Decode;
    assert [0] + [] == [0];
    TextOf(s, [0], 6, 106, Semaphore(0, [1]));
    Call(s, 0, [], 6, 106, Semaphore(0, [1]), 6);
    assert After(0, [], Semaphore(0, [1]), 6) == [1, 0] && [1][1..] == [];
  }

  lemma FourthCall(s: State)
    requires Scene(s, [1, 0], 12, 106, Semaphore(1, []))
    ensures CallActions(Fcfs, s, 0) == [] && Scene(Step(Fcfs, s), [0, 1], 12, 112, Semaphore(1, []))
  {
    hide Step;
    hide CallActions;
    hide Scene;
    hide Decode;
    assert [1] + [0] == [1, 0];
    TextOf(s, [1, 0], 12, 106, Semaphore(1, []));
    Call(s, 1, [0], 12, 106, Semaphore(1, []), 0);
    assert After(1, [0], Semaphore(1, []), 0) == [0, 1];
  }

  lemma FifthCall(s: State)
    requires Scene(s, [0, 1], 12, 112, Semaphore(1, []))
    ensures CallActions(Fcfs, s, 0) == [Granted(0)]
  {
    assert [0] + [1] == [0, 1];
    Call(s, 0, [1], 12, 112, Semaphore(1, []), 5);
  }

  lemma FiveCallsLog()
    ensures ActionLog(Start(), FiveCalls, 0) == [Granted(0), Refused(1), Released(0), Woken(1), Granted(0)]
  {
    hide *;
    Opening();
    var s0 := Admit(Start());
    var s1 := Step(Fcfs, s0);
    var s2 := Step(Fcfs, s1);
    var s3 := Step(Fcfs, s2);
    var s4 := Step(Fcfs, s3);
    FirstCall(s0);
    SecondCall(s1);
    ThirdCall(s2);
    FourthCall(s3);
    FifthCall(s4);
    FiveLogs(Start(), s1, s2, s3, s4);
  }

  lemma FiveLogs(s: State, s1: State, s2: State, s3: State, s4: State)
    requires s1 == Step(Fcfs, s) && s2 == Step(Fcfs, s1) && s3 == Step(Fcfs, s2) && s4 == Step(Fcfs, s3)
    ensures ActionLog(s, FiveCalls, 0)
         == CallActions(Fcfs, s, 0) + CallActions(Fcfs, s1, 0) + CallActions(Fcfs, s2, 0) + CallActions(Fcfs, s3, 0)
            + CallActions(Fcfs, s4, 0)
  {
    hide Step;
    hide CallActions;
    hide ActionLog;
    var t: Event := Tick(Fcfs);
    LogStep(s, [t, t, t, t]);
    LogStep(s1, [t, t, t]);
    LogStep(s2, [t, t]);
    LogStep(s3, [t]);
    LogStep(s4, []);
    NoLog(Step(Fcfs, s4));
    assert FiveCalls == [t] + [t, t, t, t] && [t, t, t, t] == [t] + [t, t, t] && [t, t, t] == [t] + [t, t];
    assert [t, t] == [t] + [t] && [t] == [t] + [];
  }

  lemma NoLog(s: State)
    ensures ActionLog(s, [], 0) == []
  {
  }

  lemma TwoInside()
    ensures var s, log := Run(Boot(), Setting), ActionLog(Run(Boot(), Setting), FiveCalls, 0);
            && s.semaphores == [Semaphore(1, [])] && ProperUse(multiset{}, log)
            && Inside(multiset{}, log) == multiset{0, 1}
  {
    StartIsRun();
    Opening();
    FiveCallsLog();
    hide Run;
    hide ActionLog;
    hide Step;
    hide Scene;
    hide Admit;
    InsideOf();
  }

  lemma InsideOf()
    ensures var log := [Granted(0), Refused(1), Released(0), Woken(1), Granted(0)];
            ProperUse(multiset{}, log) && Inside(multiset{}, log) == multiset{0, 1}
  {
    var log := [Granted(0), Refused(1), Released(0), Woken(1), Granted(0)];
    assert log[..4] == [Granted(0), Refused(1), Released(0), Woken(1)];
    assert log[..4][..3] == [Granted(0), Refused(1), Released(0)];
    assert log[..4][..3][..2] == [Granted(0), Refused(1)];
    assert log[..4][..3][..2][..1] == [Granted(0)];
    assert log[..4][..3][..2][..1][..0] == [];
    assert Inside(multiset{}, [Granted(0)]) == multiset{0};
    assert Inside(multiset{}, [Granted(0), Refused(1)]) == multiset{0};
    assert Inside(multiset{}, [Granted(0), Refused(1), Released(0)]) == multiset{};
    assert Inside(multiset{}, [Granted(0), Refused(1), Released(0), Woken(1)]) == multiset{1};
  }
}
