// The whole simulator as a state machine: one call of a scheduling function is one Tick
// (src/kernel/scheduler.cpp); loading, semaphores, shared memory and logging are the other
// events (src/kernel/kernel.cpp, src/kernel/loader.cpp).
module System {
  import opened Options
  import opened Machine
  import opened Processes

  type Levels = q: seq<seq<nat>> | |q| == 3 witness [[], [], []]

  datatype Semaphore = Semaphore(value: int, blocked: seq<nat>)
  datatype Segment = Segment(load: int, size: int, links: int)

  // A process is named by its handle, its index in `pcbs`, as the program names it by
  // its address. `logged` are the processes drained from the terminated queue.
  datatype State = State(
    pcbs: seq<Process>, loaded: nat, names: map<string, nat>,
    segments: seq<Segment>, semaphores: seq<Semaphore>,
    arrived: seq<nat>, waiting: seq<nat>, ready: Levels, terminated: seq<nat>, logged: seq<nat>,
    running: Option<nat>, quantumClock: int,
    cpu: Cpu, mem: Memory, clock: int)

  datatype Policy = Fcfs | Rr(quantum: int) | Mlfq(quantum: int, scaler: int)

  function Boot(): State {
    State([], 0, map[], [], [], [], [], [[], [], []], [], [], None, 0, ClearedCpu,
          seq(CAPACITY, _ => Cell(0, false)), 0)
  }

  function Get(s: State, h: nat): Process {
    if h < |s.pcbs| then s.pcbs[h] else NoProcess
  }

  function Put(s: State, h: nat, p: Process): State {
    if h < |s.pcbs| then s.(pcbs := s.pcbs[h := p]) else s
  }

  // ---------- queues ----------

  // Index of the first non-empty ready queue, 3 when all are empty.
  function Top(q: Levels): nat {
    if q[0] != [] then 0 else if q[1] != [] then 1 else if q[2] != [] then 2 else 3
  }

  predicate NoneReady(s: State) {
    Top(s.ready) == 3
  }

  predicate AllEmpty(s: State) {
    s.arrived == [] && s.running.None? && NoneReady(s) && s.waiting == []
  }

  function Retag(s: State, h: nat, t: Tag): State {
    Put(s, h, Get(s, h).(tag := t))
  }

  function Push(s: State, h: nat, t: Tag): State {
    match t
    case New => s.(arrived := s.arrived + [h])
    case Ready =>
      var k := Get(s, h).priority;
      if 0 <= k <= 2 then s.(ready := s.ready[k := s.ready[k] + [h]]) else s
    case Waiting => s.(waiting := s.waiting + [h])
    case Terminated => s.(terminated := s.terminated + [h])
    case _ => s
  }

  // queuePcb
  function Enqueue(s: State, h: nat, t: Tag): State {
    Retag(Push(s, h, t), h, t)
  }

  // Moves every new process to the ready queues.
  function Admit(s: State): State
    decreases |s.arrived|
  {
    if s.arrived == [] then s else Admit(Enqueue(s.(arrived := s.arrived[1..]), s.arrived[0], Ready))
  }

  // ---------- context switches ----------

  function Save(s: State, h: nat): State {
    Put(s, h, Get(s, h).(cpu := s.cpu))
  }

  function Restore(s: State, h: nat): State {
    s.(cpu := Get(s, h).cpu)
  }

  // pRunningPcb = popQueue(READY), then its context goes to the CPU.
  function SwitchIn(s: State): State {
    var k := Top(s.ready);
    if k == 3 then s
    else
      var h := s.ready[k][0];
      Restore(s.(ready := s.ready[k := s.ready[k][1..]], running := Some(h)), h)
  }

  function TagRunning(s: State): State {
    if s.running.Some? then Retag(s, s.running.value, Running) else s
  }

  // quantumClock has reached a positive multiple of the quantum.
  predicate Expired(clock: int, quantum: int) {
    quantum > 0 && clock != 0 && clock % quantum == 0
  }

  // The quantum of a priority level.
  function QuantumAt(p: Policy, level: int): int
    requires p.Mlfq?
  {
    if level == 1 then p.quantum * p.scaler else if level == 2 then p.quantum * 1000 else p.quantum
  }

  // ---------- dispatching, by policy ----------

  function DispatchIdle(p: Policy, s: State): State {
    if s.running.Some? then s
    else match p
      case Fcfs => if NoneReady(s) then s else TagRunning(SwitchIn(s))
      case Rr(q) => if AllEmpty(s) then s else SwitchIn(s)
      case Mlfq(q, f) => if NoneReady(s) then s else SwitchIn(s).(quantumClock := 0)
  }

  // Whether the running process is preempted at the start of a call.
  predicate Preempts(p: Policy, s: State) {
    s.running.Some? &&
    match p
    case Fcfs => false
    case Rr(q) => Expired(s.quantumClock, q) && s.ready[0] != []
    case Mlfq(q, f) => Expired(s.quantumClock, QuantumAt(p, Get(s, s.running.value).priority)) && !NoneReady(s)
  }

  // The preempted process gets its context back and, under MLFQ, is charged a quantum.
  function Charge(p: Policy, s: State, h: nat): State {
    var t := Save(s, h);
    if p.Mlfq? then Put(t, h, UseQuantum(Get(t, h))).(quantumClock := 0) else t
  }

  function Preempt(p: Policy, s: State): State {
    if !Preempts(p, s) then s
    else TagRunning(SwitchIn(Enqueue(Charge(p, s, s.running.value), s.running.value, Ready)))
  }

  function Prepare(p: Policy, s: State): State {
    Preempt(p, DispatchIdle(p, Admit(s)))
  }

  // ---------- execution ----------

  function CycleOf(s: State, h: nat): Outcome {
    Exec(s.cpu, s.mem, Get(s, h).load)
  }

  // One cycle of `h`, with its time slice.
  function Execute(p: Policy, s: State, h: nat): State {
    var o := CycleOf(s, h);
    var t := s.(cpu := o.cpu, mem := o.mem, clock := s.clock + o.ticks,
                quantumClock := if p.Fcfs? then s.quantumClock else s.quantumClock + 1);
    Put(t, h, Capture(Get(t, h), t.clock))
  }

  // ---------- memory ----------

  // Drops the link of `h` to its segment; the last link frees the segment's cells.
  function Unlink(s: State, h: nat): State {
    var g := Get(s, h).shm;
    if g.None? || g.value >= |s.segments| then s
    else
      var was := s.segments[g.value];
      var seg := was.(links := was.links - 1);
      var t := s.(segments := s.segments[g.value := seg]);
      if seg.links <= 0 then t.(mem := SetMarks(t.mem, seg.load, seg.load + seg.size, false)) else t
  }

  // deallocateMemory, with the two times computed right after it.
  function Deallocate(s: State, h: nat): State {
    var t := Unlink(s, h);
    var p := Get(t, h);
    var u := t.(mem := SetMarks(t.mem, p.load, p.load + p.size, false), names := t.names - {p.name});
    Put(u, h, Finish(p, u.clock))
  }

  // ---------- interrupts ----------

  function Fork(s: State, h: nat): State {
    var c := |s.pcbs|;
    var child := Child(Get(s, h), s.clock);
    var t := Put(s, h, Get(s, h).(child := Some(c)));
    Enqueue(t.(pcbs := t.pcbs + [child], names := t.names[child.name := c]), c, Ready)
  }

  function PopWaiting(s: State): State {
    if s.waiting == [] then s else s.(waiting := s.waiting[1..])
  }

  function FrontWaiting(s: State, h: nat): nat {
    if s.waiting == [] then h else s.waiting[0]
  }

  function Halt(s: State, h: nat): State {
    Deallocate(Enqueue(PopWaiting(s), FrontWaiting(s, h), Terminated), h)
  }

  function SharedAddress(s: State, h: nat): State {
    var g := Get(s, h).shm;
    if g.None? then Halt(s, h)
    else if g.value >= |s.segments| then s
    else Put(s, h, Get(s, h).(cpu := SetReg(Get(s, h).cpu, 0, s.segments[g.value].load)))
  }

  predicate HasSemaphore(s: State, h: nat) {
    0 <= Get(s, h).semId < |s.semaphores|
  }

  // Puts the waiting process on its semaphore's block queue.
  function Block(s: State, h: nat): State
    requires HasSemaphore(s, h)
  {
    var i := Get(s, h).semId;
    var sem := s.semaphores[i];
    var t := PopWaiting(s);
    Retag(t.(semaphores := t.semaphores[i := sem.(blocked := sem.blocked + [FrontWaiting(s, h)])]), h, Waiting)
  }

  function Acquire(s: State, h: nat): State {
    if !HasSemaphore(s, h) then s
    else
      var i := Get(s, h).semId;
      var sem := s.semaphores[i];
      if sem.value == 0 then Block(s, h)
      else s.(semaphores := s.semaphores[i := sem.(value := sem.value - 1)])
  }

  function Release(s: State, h: nat): State {
    if !HasSemaphore(s, h) then s
    else
      var i := Get(s, h).semId;
      var sem := s.semaphores[i].(value := s.semaphores[i].value + 1);
      if sem.blocked == [] then s.(semaphores := s.semaphores[i := sem])
      else
        Enqueue(s.(semaphores := s.semaphores[i := sem.(blocked := sem.blocked[1..])]), sem.blocked[0], Ready)
  }

  function WaitSemaphore(s: State, h: nat): State {
    if HasSemaphore(s, h) then Block(s, h) else s
  }

  // interruptServiceRoutine
  function Service(s: State, h: nat, code: int): State {
    if code == PRINT then Put(s, h, Get(s, h).(cpu := AfterPrint(Get(s, h).cpu, s.mem)))
    else if code == FORK then Fork(s, h)
    else if code == SHARED_ADDRESS then SharedAddress(s, h)
    else if code == ACQUIRE then Acquire(s, h)
    else if code == RELEASE then Release(s, h)
    else if code == WAIT then WaitSemaphore(s, h)
    else s
  }

  // ---------- the end of a call ----------

  function Vacate(p: Policy, s: State): State {
    s.(running := None, quantumClock := if p.Fcfs? then s.quantumClock else 0)
  }

  // The interrupt leaves `h` in the waiting queue unless it blocked or halted it.
  function Resume(s: State, h: nat): State {
    if s.waiting == [] then s else Enqueue(PopWaiting(s), h, Ready)
  }

  // The interrupted process waits while the interrupt is served.
  function Park(s: State, h: nat): State {
    Enqueue(Save(s, h), h, Waiting).(cpu := ClearedCpu)
  }

  function Reward(p: Policy, s: State, h: nat): State {
    if p.Mlfq? then Put(s, h, Promote(Get(s, h))) else s
  }

  function Interrupted(p: Policy, s: State, h: nat, code: int): State {
    Vacate(p, Resume(Reward(p, Service(Park(s, h), h, code), h), h))
  }

  function Terminate(p: Policy, s: State, h: nat): State {
    Vacate(p, Deallocate(Enqueue(Save(s, h), h, Terminated), h))
  }

  function Settle(p: Policy, s: State, h: nat, code: int): State {
    if code >= 20 then Interrupted(p, s, h, code)
    else if code == HALTED then Terminate(p, s, h)
    else s
  }

  // A cycle of the running process and what its return code asks for, or an idle tick.
  function Act(p: Policy, s: State): State {
    match s.running
    case None => s.(clock := s.clock + 1)
    case Some(h) => Settle(p, Execute(p, s, h), h, CycleOf(s, h).code)
  }

  // One call of firstComeFirstServe, roundRobin or multiLevelFeedbackQueue.
  function Step(p: Policy, s: State): State {
    Act(p, Prepare(p, s))
  }

  // The process that executes in a call, if any.
  function Executor(p: Policy, s: State): Option<nat> {
    Prepare(p, s).running
  }

  // The code its cycle returns.
  function CodeOf(p: Policy, s: State): int {
    var t := Prepare(p, s);
    if t.running.Some? then CycleOf(t, t.running.value).code else 0
  }

  // ---------- the kernel's other operations ----------

  datatype Image = Image(load: int, size: int, first: int, bytes: seq<byte>)

  predicate Occupied(m: Memory, lo: int, hi: int) {
    exists a :: 0 <= a < |m| && lo <= a <= hi && m[a].marked
  }

  // 201 memory overflow, 202 memory occupied, 0 loaded.
  function LoadCode(s: State, i: Image): int {
    if i.load + i.size > CAPACITY then 201
    else if Occupied(s.mem, i.load, i.load + i.size) then 202
    else 0
  }

  // The bytes of the file go to the cells from `load` on; a short file leaves the rest.
  function Written(m: Memory, i: Image): Memory {
    seq(|m|, a requires 0 <= a < |m| =>
      if i.load <= a <= i.load + i.size && a - i.load < |i.bytes| then m[a].(val := i.bytes[a - i.load]) else m[a])
  }

  // kernelLoadProgram
  function LoadProgram(s: State, name: string, i: Image): State {
    if LoadCode(s, i) != 0 then s
    else
      var h := |s.pcbs|;
      var p := Loaded(name, s.loaded, i.load, i.size, i.first, s.clock);
      Enqueue(s.(pcbs := s.pcbs + [p], loaded := s.loaded + 1, names := s.names[name := h],
                 mem := SetMarks(Written(s.mem, i), i.load, i.load + i.size, true)), h, New)
  }

  // getPcb
  function Lookup(s: State, name: string): Option<nat> {
    if name in s.names then Some(s.names[name]) else None
  }

  // kernelInitSemaphore
  function InitSemaphore(s: State, value: int, one: string, two: string): State {
    var id := |s.semaphores|;
    var t := s.(semaphores := s.semaphores + [Semaphore(value, [])]);
    match (Lookup(t, one), Lookup(t, two))
    case (Some(a), Some(b)) =>
      var u := Put(t, a, Get(t, a).(semId := id));
      Put(u, b, Get(u, b).(semId := id))
    case _ => t
  }

  predicate FreeRun(m: Memory, a: int, n: int) {
    0 <= a && a + n <= |m| && forall i :: a <= i < a + n && i < |m| ==> !m[i].marked
  }

  // The lowest address from `a` on where a run of `n` free cells starts.
  function FirstFit(m: Memory, n: int, a: nat): Option<nat>
    decreases |m| - a
  {
    if a > |m| || a + n > |m| then None
    else if FreeRun(m, a, n) then Some(a)
    else FirstFit(m, n, a + 1)
  }

  // Gives `a` and `b` a new segment of 6*size cells (one more is marked).
  function Share(s: State, a: nat, b: nat, size: int): State {
    match FirstFit(s.mem, 6 * size, 0)
    case None => s
    case Some(at) =>
      var g := |s.segments|;
      var t := s.(mem := SetMarks(s.mem, at, at + 6 * size, true),
                  segments := s.segments + [Segment(at, 6 * size, 2)]);
      var u := Put(t, a, Get(t, a).(shm := Some(g)));
      Put(u, b, Get(u, b).(shm := Some(g)))
  }

  // kernelOpenSharedMemory
  function OpenShared(s: State, size: int, one: string, two: string): State {
    match (Lookup(s, one), Lookup(s, two))
    case (Some(a), Some(b)) => Share(Unlink(Unlink(s, a), b), a, b, size)
    case _ => s
  }

  // logTerminatedProcesses
  function Drain(s: State): State {
    s.(terminated := [], logged := s.logged + s.terminated)
  }

  // ---------- runs ----------

  datatype Event =
    | Tick(policy: Policy)
    | Arrive(name: string, image: Image)
    | NewSemaphore(value: int, one: string, two: string)
    | OpenSegment(size: int, one: string, two: string)
    | Log

  function Apply(s: State, e: Event): State {
    match e
    case Tick(p) => Step(p, s)
    case Arrive(name, image) => LoadProgram(s, name, image)
    case NewSemaphore(value, one, two) => InitSemaphore(s, value, one, two)
    case OpenSegment(size, one, two) => OpenShared(s, size, one, two)
    case Log => Drain(s)
  }

  // The state after the events of a run.
  function Run(s: State, es: seq<Event>): State
    decreases |es|
  {
    if es == [] then s else Run(Apply(s, es[0]), es[1..])
  }
}
