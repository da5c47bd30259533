// The scheduler as an object: queues, running slot, quantum clock and semaphores updated in
// place (src/kernel/scheduler.h, src/kernel/scheduler.cpp). The ghost field `view` is its
// state as a value; every method says what it does to the view.
module Scheduling {
  import opened Options
  import opened Machine
  import opened Processes
  import opened MachineLaws
  import opened System
  import opened Hardware
  import Census

  class SemaphoreCell {
    const sId: nat
    var value: int
    var blockQueue: seq<Pcb>

    constructor (sId: nat, value: int)
      ensures this.sId == sId && this.value == value && blockQueue == []
    {
      this.sId := sId;
      this.value := value;
      blockQueue := [];
    }
  }

  // The state after popQueue.
  function Pop(s: State, queue: Tag): State {
    match queue
    case New => if s.arrived == [] then s else s.(arrived := s.arrived[1..])
    case Ready =>
      var k := Top(s.ready);
      if k == 3 then s else s.(ready := s.ready[k := s.ready[k][1..]])
    case Waiting => PopWaiting(s)
    case Terminated => if s.terminated == [] then s else s.(terminated := s.terminated[1..])
    case _ => s
  }

  // The handle popQueue finds.
  function Front(s: State, queue: Tag): Option<nat> {
    match queue
    case New => if s.arrived == [] then None else Some(s.arrived[0])
    case Ready =>
      var k := Top(s.ready);
      if k == 3 then None else Some(s.ready[k][0])
    case Waiting => if s.waiting == [] then None else Some(s.waiting[0])
    case Terminated => if s.terminated == [] then None else Some(s.terminated[0])
    case _ => None
  }

  // ---------- objects and handles ----------

  // `p` is the object with its handle in the table `t` of all blocks.
  ghost predicate KnownIn(t: seq<Pcb>, p: Pcb) {
    p.id < |t| && t[p.id] == p
  }

  ghost predicate QueueIs(t: seq<Pcb>, q: seq<Pcb>, hs: seq<nat>) {
    |q| == |hs| && forall i :: 0 <= i < |q| ==> q[i].id == hs[i] && KnownIn(t, q[i])
  }

  ghost predicate RunningIs(t: seq<Pcb>, p: Pcb?, o: Option<nat>) {
    if p == null then o == None else o == Some(p.id) && KnownIn(t, p)
  }

  ghost predicate PcbIs(g: seq<Shm>, p: Pcb, image: Process)
    reads p
  {
    p.Image() == image && |p.Reg| == 6
    && (p.sharedMemory != null ==> p.sharedMemory.id < |g| && g[p.sharedMemory.id] == p.sharedMemory)
  }

  ghost predicate IdsOk(t: seq<Pcb>) {
    forall i :: 0 <= i < |t| ==> t[i].id == i
  }

  ghost predicate PcbsAre(t: seq<Pcb>, g: seq<Shm>, pcbs: seq<Process>)
    reads t
  {
    && |t| == |pcbs| && IdsOk(t)
    && forall i :: 0 <= i < |pcbs| ==> PcbIs(g, t[i], pcbs[i])
  }

  // All blocks but `p`.
  ghost predicate OthersAre(t: seq<Pcb>, g: seq<Shm>, p: Pcb, pcbs: seq<Process>)
    reads set q | q in t && q != p
  {
    && |t| == |pcbs| && IdsOk(t)
    && forall i :: 0 <= i < |pcbs| && t[i] != p ==> PcbIs(g, t[i], pcbs[i])
  }

  ghost predicate SegmentsAre(g: seq<Shm>, segments: seq<Segment>)
    reads g
  {
    && |g| == |segments|
    && forall i :: 0 <= i < |segments| ==> g[i].id == i && g[i].Image() == segments[i]
  }

  ghost predicate SemaphoresAre(t: seq<Pcb>, cells: seq<SemaphoreCell>, sems: seq<Semaphore>)
    reads cells
  {
    && |cells| == |sems|
    && forall i :: 0 <= i < |cells| ==>
         cells[i].sId == i && cells[i].value == sems[i].value && QueueIs(t, cells[i].blockQueue, sems[i].blocked)
  }

  ghost predicate LookupIs(t: seq<Pcb>, lookup: map<string, Pcb>, names: map<string, nat>) {
    && lookup.Keys == names.Keys
    && forall n :: n in names ==> lookup[n].id == names[n] && KnownIn(t, lookup[n])
  }

  lemma QueueGrows(t: seq<Pcb>, c: Pcb, q: seq<Pcb>, hs: seq<nat>)
    requires QueueIs(t, q, hs)
    ensures QueueIs(t + [c], q, hs)
  {
  }

  lemma LookupGrows(t: seq<Pcb>, c: Pcb, lookup: map<string, Pcb>, names: map<string, nat>)
    requires LookupIs(t, lookup, names) && c.id == |t|
    ensures LookupIs(t + [c], lookup[c.name := c], names[c.name := c.id])
  {
  }

  lemma SemaphoresGrow(t: seq<Pcb>, c: Pcb, cells: seq<SemaphoreCell>, sems: seq<Semaphore>)
    requires SemaphoresAre(t, cells, sems)
    ensures SemaphoresAre(t + [c], cells, sems)
  {
    forall i | 0 <= i < |cells|
      ensures QueueIs(t + [c], cells[i].blockQueue, sems[i].blocked)
    {
      QueueGrows(t, c, cells[i].blockQueue, sems[i].blocked);
    }
  }

  lemma PcbsGrow(t: seq<Pcb>, g: seq<Shm>, c: Pcb, pcbs: seq<Process>)
    requires PcbsAre(t, g, pcbs) && c.id == |t| && |c.Reg| == 6 && c.sharedMemory == null
    ensures PcbsAre(t + [c], g, pcbs + [c.Image()])
  {
  }

  // ---------- what the program needs to be defined ----------

  predicate InArray(lo: int, hi: int) {
    lo <= hi ==> 0 <= lo && hi < CAPACITY
  }

  // The cells of a segment whose last link goes exist.
  predicate UnlinkDefined(s: State, h: nat) {
    var g := Get(s, h).shm;
    g.Some? && g.value < |s.segments| && s.segments[g.value].links <= 1 ==>
      InArray(s.segments[g.value].load, s.segments[g.value].load + s.segments[g.value].size)
  }

  // The cells of the process exist, and its name can still be looked up.
  predicate DeallocateDefined(s: State, h: nat) {
    && UnlinkDefined(s, h) && InArray(Get(s, h).load, Get(s, h).load + Get(s, h).size)
    && Get(s, h).name in s.names && Get(s, h).slices != []
  }

  // deallocateMemory alone, without the two calculations that follow it.
  function FreeMemory(s: State, h: nat): State {
    var t := Unlink(s, h);
    var p := Get(t, h);
    Put(t.(mem := SetMarks(t.mem, p.load, p.load + p.size, false), names := t.names - {p.name}), h,
        p.(termination := t.clock))
  }

  // The walk of a string print stays in the array.
  predicate PrintDefined(s: State, h: nat) {
    var r := Machine.Reg(Get(s, h).cpu, 0);
    && 0 <= r < CAPACITY
    && (Val(s.mem, r) == QUOTE ==> StringEnd(s.mem, r + 1) < CAPACITY)
  }

  // What serving interrupt `code` needs: a string inside memory, an existing semaphore to
  // release or wait on, and a block that can be deallocated when the process is halted.
  predicate ServiceDefined(s: State, h: nat, code: int) {
    && (code == PRINT ==> PrintDefined(s, h))
    && (code == RELEASE || code == WAIT ==> HasSemaphore(s, h))
    && (code == SHARED_ADDRESS && Get(s, h).shm.None? ==> DeallocateDefined(s, h))
  }

  // What the end of a call needs.
  predicate SettleDefined(s: State, h: nat, code: int) {
    && (code >= 20 ==> ServiceDefined(Park(s, h), h, code))
    && (code == HALTED ==> DeallocateDefined(s, h))
  }

  // What a whole call needs of the state it is made in: a defined instruction (no division by
  // zero, overflow, register byte of 6 or more or address outside the array) and a defined
  // interrupt or termination.
  predicate ActDefined(p: Policy, s: State) {
    s.running.Some? ==>
      var h := s.running.value;
      Defined(s.cpu, s.mem, Get(s, h).load) && SettleDefined(Execute(p, s, h), h, CycleOf(s, h).code)
  }

  predicate StepDefined(p: Policy, s: State) {
    ActDefined(p, Prepare(p, s))
  }

  // calculateResponse and calculateTurnAround.
  function WithTimes(p: Process): Process
    requires p.slices != []
  {
    p.(response := p.slices[0] - p.arrival, turnAround := p.termination - p.arrival)
  }

  lemma UnlinkSpares(s: State, h: nat)
    ensures Unlink(s, h).names == s.names && Unlink(s, h).clock == s.clock && Unlink(s, h).pcbs == s.pcbs
  {
  }

  lemma DeallocateSplit(s: State, h: nat)
    requires h < |s.pcbs| && Get(s, h).slices != []
    ensures var f := FreeMemory(s, h);
            && Get(f, h).slices == Get(s, h).slices
            && Deallocate(s, h) == Put(f, h, WithTimes(Get(f, h)))
  {
    Census.UnlinkKeeps(s, h);
  }

  class Scheduler {
    const machine: VirtualMachine
    var newQueue: seq<Pcb>
    var waitingQueue: seq<Pcb>
    var readyQueue0: seq<Pcb>
    var readyQueue1: seq<Pcb>
    var readyQueue2: seq<Pcb>
    var terminatedQueue: seq<Pcb>
    var pRunningPcb: Pcb?
    var quantumClock: int
    var semaphoreTable: seq<SemaphoreCell>
    ghost var view: State

    ghost predicate Known(p: Pcb)
      reads machine.ram`table
    {
      KnownIn(machine.ram.table, p)
    }

    ghost predicate QueuesAre(t: seq<Pcb>, s: State)
      reads this
    {
      && QueueIs(t, newQueue, s.arrived) && QueueIs(t, waitingQueue, s.waiting)
      && QueueIs(t, readyQueue0, s.ready[0]) && QueueIs(t, readyQueue1, s.ready[1]) && QueueIs(t, readyQueue2, s.ready[2])
      && QueueIs(t, terminatedQueue, s.terminated)
      && RunningIs(t, pRunningPcb, s.running) && quantumClock == s.quantumClock
    }

    ghost predicate MachineIs(cpu: Cpu, mem: Memory, clock: int)
      reads machine, machine.Reg, machine.ram.mem
    {
      && machine.Reg.Length == 6 && machine.ram.mem.Length == CAPACITY
      && machine.Context() == cpu && machine.ram.mem[..] == mem && machine.clock == clock
    }

    ghost predicate Valid()
      reads this, machine, machine.Reg, machine.ram, machine.ram.mem
      reads machine.ram.table, machine.ram.segments, semaphoreTable
    {
      var t, g := machine.ram.table, machine.ram.segments;
      && QueuesAre(t, view) && MachineIs(view.cpu, view.mem, view.clock)
      && PcbsAre(t, g, view.pcbs) && SegmentsAre(g, view.segments)
      && SemaphoresAre(t, semaphoreTable, view.semaphores) && LookupIs(t, machine.ram.lookup, view.names)
    }

    lemma WithoutOne(p: Pcb, pcbs: seq<Process>)
      requires PcbsAre(machine.ram.table, machine.ram.segments, pcbs) && Known(p)
      ensures OthersAre(machine.ram.table, machine.ram.segments, p, pcbs)
      ensures p.id < |pcbs| && PcbIs(machine.ram.segments, p, pcbs[p.id])
    {
    }

    lemma WithOne(p: Pcb, pcbs: seq<Process>, image: Process)
      requires OthersAre(machine.ram.table, machine.ram.segments, p, pcbs) && Known(p) && PcbIs(machine.ram.segments, p, image)
      ensures PcbsAre(machine.ram.table, machine.ram.segments, pcbs[p.id := image])
    {
    }

    constructor (machine: VirtualMachine)
      requires machine.Reg.Length == 6 && machine.Context() == ClearedCpu && machine.clock == 0 && machine.ram.Empty()
      ensures this.machine == machine && Valid() && view == Boot()
    {
      this.machine := machine;
      newQueue, waitingQueue, readyQueue0, readyQueue1, readyQueue2, terminatedQueue := [], [], [], [], [], [];
      pRunningPcb := null;
      quantumClock := 0;
      semaphoreTable := [];
      view := Boot();
    }

    // ---------- queues ----------

    method PushPcb(process: Pcb, queue: Tag)
      requires QueuesAre(machine.ram.table, view) && Known(process) && process.pPriority == Get(view, process.id).priority
      modifies this`newQueue, this`readyQueue0, this`readyQueue1, this`readyQueue2, this`waitingQueue, this`terminatedQueue
      ensures QueuesAre(machine.ram.table, Push(view, process.id, queue))
    {
      match queue {
        case New => newQueue := newQueue + [process];
        case Ready =>
          if process.pPriority == 0 {
            readyQueue0 := readyQueue0 + [process];
          } else if process.pPriority == 1 {
            readyQueue1 := readyQueue1 + [process];
          } else if process.pPriority == 2 {
            readyQueue2 := readyQueue2 + [process];
          }
        case Waiting => waitingQueue := waitingQueue + [process];
        case Terminated => terminatedQueue := terminatedQueue + [process];
        case _ =>
      }
    }

    method QueuePcb(process: Pcb, queue: Tag)
      requires Valid() && Known(process)
      modifies this, process
      ensures Valid() && view == Enqueue(old(view), process.id, queue)
      ensures semaphoreTable == old(semaphoreTable)
    {
      hide MachineIs;
      hide SegmentsAre;
      hide SemaphoresAre;
      hide LookupIs;
      hide PcbsAre;
      hide OthersAre;
      hide QueueIs;
      WithoutOne(process, view.pcbs);
      PushPcb(process, queue);
      process.UpdateState(queue);
      WithOne(process, view.pcbs, process.Image());
      view := Enqueue(view, process.id, queue);
    }

    method PopQueue(queue: Tag) returns (pPcb: Pcb?)
      requires Valid()
      requires queue == Ready || Front(view, queue).Some?
      modifies this
      ensures Valid() && view == Pop(old(view), queue)
      ensures if pPcb == null then Front(old(view), queue).None? else Front(old(view), queue) == Some(pPcb.id) && Known(pPcb)
      ensures semaphoreTable == old(semaphoreTable)
    {
      hide MachineIs;
      hide PcbsAre;
      hide SegmentsAre;
      hide SemaphoresAre;
      hide LookupIs;
      pPcb := null;
      match queue {
        case New =>
          pPcb := newQueue[0];
          newQueue := newQueue[1..];
        case Ready =>
          if readyQueue0 != [] {
            pPcb := readyQueue0[0];
            readyQueue0 := readyQueue0[1..];
          } else if readyQueue1 != [] {
            pPcb := readyQueue1[0];
            readyQueue1 := readyQueue1[1..];
          } else if readyQueue2 != [] {
            pPcb := readyQueue2[0];
            readyQueue2 := readyQueue2[1..];
          }
        case Waiting =>
          pPcb := waitingQueue[0];
          waitingQueue := waitingQueue[1..];
        case Terminated =>
          pPcb := terminatedQueue[0];
          terminatedQueue := terminatedQueue[1..];
        case _ =>
      }
      view := Pop(view, queue);
    }

    method ReadyQueuesEmpty() returns (empty: bool)
      requires Valid()
      ensures empty == NoneReady(view)
    {
      empty := readyQueue0 == [] && readyQueue1 == [] && readyQueue2 == [];
    }

    method AllQueuesEmpty() returns (empty: bool)
      requires Valid()
      ensures empty == AllEmpty(view)
    {
      empty := newQueue == [] && pRunningPcb == null && readyQueue0 == [] && readyQueue1 == [] && readyQueue2 == []
               && waitingQueue == [];
    }

    method TerminatedFront() returns (process: Pcb)
      requires Valid() && view.terminated != []
      ensures Known(process) && process.id == view.terminated[0] && terminatedQueue != []
      ensures process.Image() == Get(view, process.id)
    {
      process := terminatedQueue[0];
      ImageOf(process);
    }

    // The front of the terminated queue has been logged.
    method PopTerminated()
      requires Valid() && view.terminated != []
      modifies this
      ensures Valid() && semaphoreTable == old(semaphoreTable) && |terminatedQueue| == |old(terminatedQueue)| - 1
      ensures view == old(view).(terminated := old(view).terminated[1..], logged := old(view).logged + [old(view).terminated[0]])
    {
      TerminatedLength();
      ghost var h := view.terminated[0];
      var process := PopQueue(Terminated);
      TerminatedLength();
      hide QueueIs;
      hide MachineIs;
      hide PcbsAre;
      hide SegmentsAre;
      hide SemaphoresAre;
      hide LookupIs;
      view := view.(logged := view.logged + [h]);
    }

    lemma TerminatedLength()
      requires Valid()
      ensures |terminatedQueue| == |view.terminated|
    {
    }

    // ---------- context switches ----------

    // The register loop of contextToCpu.
    method LoadRegisters(process: Pcb)
      requires machine.Reg.Length == 6 && |process.Reg| == 6
      modifies machine.Reg
      ensures machine.Reg[..] == process.Reg
    {
      for i := 0 to 6
        invariant machine.Reg[..i] == process.Reg[..i]
      {
        machine.Reg[i] := process.Reg[i];
      }
      assert machine.Reg[..6] == machine.Reg[..] && process.Reg[..6] == process.Reg;
    }

    method ContextToCpu(process: Pcb)
      requires Valid() && Known(process)
      modifies this`view, machine`PC, machine`Z, machine.Reg
      ensures Valid() && view == Restore(old(view), process.id)
    {
      hide QueueIs;
      hide PcbsAre;
      hide OthersAre;
      hide SegmentsAre;
      hide SemaphoresAre;
      hide LookupIs;
      ImageOf(process);
      machine.PC := process.PC;
      machine.Z := process.Z;
      LoadRegisters(process);
      view := Restore(view, process.id);
    }

    // The register loop of contextToPcb.
    method SaveRegisters(process: Pcb)
      requires machine.Reg.Length == 6 && |process.Reg| == 6
      modifies process`Reg
      ensures process.Reg == machine.Reg[..]
    {
      for i := 0 to 6
        invariant |process.Reg| == 6 && process.Reg[..i] == machine.Reg[..i]
      {
        process.Reg := process.Reg[i := machine.Reg[i]];
      }
      assert machine.Reg[..6] == machine.Reg[..] && process.Reg[..6] == process.Reg;
    }

    method ContextToPcb(process: Pcb)
      requires Valid() && Known(process)
      modifies this`view, process`PC, process`Z, process`Reg
      ensures Valid() && view == Save(old(view), process.id)
    {
      hide QueueIs;
      hide PcbsAre;
      hide OthersAre;
      hide SegmentsAre;
      hide SemaphoresAre;
      hide LookupIs;
      WithoutOne(process, view.pcbs);
      process.PC := machine.PC;
      process.Z := machine.Z;
      SaveRegisters(process);
      WithOne(process, view.pcbs, process.Image());
      view := Save(view, process.id);
    }

    method ClearCpu()
      requires Valid()
      modifies this`view, machine`PC, machine`Z, machine.Reg
      ensures Valid() && view == old(view).(cpu := ClearedCpu)
    {
      hide QueueIs;
      hide PcbsAre;
      hide SegmentsAre;
      hide SemaphoresAre;
      hide LookupIs;
      machine.PC := 0;
      machine.Z := 0;
      for i := 0 to 6
        modifies machine.Reg
        invariant forall j :: 0 <= j < i ==> machine.Reg[j] == 0
      {
        machine.Reg[i] := 0;
      }
      assert machine.Reg[..] == ClearedCpu.reg;
      view := view.(cpu := ClearedCpu);
    }

    // pRunningPcb = popQueue(READY), whose context goes to the CPU (cleared first or not).
    method SwitchToNext(clear: bool)
      requires Valid() && !NoneReady(view)
      modifies this, machine, machine.Reg
      ensures Valid() && view == SwitchIn(old(view)) && pRunningPcb != null && Known(pRunningPcb)
      ensures semaphoreTable == old(semaphoreTable)
    {
      var next := PopQueue(Ready);
      pRunningPcb := next;
      view := view.(running := Some(next.id));
      if clear {
        ClearCpu();
      }
      ContextToCpu(pRunningPcb);
    }

    // pRunningPcb->updateState(RUNNING)
    method MarkRunning()
      requires Valid() && pRunningPcb != null
      modifies this`view, pRunningPcb`pState
      ensures Valid() && view == TagRunning(old(view))
    {
      hide QueueIs;
      hide MachineIs;
      hide PcbsAre;
      hide OthersAre;
      hide SegmentsAre;
      hide SemaphoresAre;
      hide LookupIs;
      WithoutOne(pRunningPcb, view.pcbs);
      pRunningPcb.UpdateState(Running);
      WithOne(pRunningPcb, view.pcbs, pRunningPcb.Image());
      view := TagRunning(view);
    }

    // The loop that sends every new process to the ready queues.
    method AdmitNew()
      requires Valid()
      modifies this, machine.ram.table
      ensures Valid() && view == Admit(old(view)) && semaphoreTable == old(semaphoreTable)
    {
      hide Valid;
      hide Enqueue;
      ArrivedLength();
      while newQueue != []
        invariant Valid() && |newQueue| == |view.arrived|
        invariant Admit(view) == Admit(old(view)) && semaphoreTable == old(semaphoreTable)
        decreases |newQueue|
      {
        AdmitStep(view);
        var n := PopQueue(New);
        QueuePcb(n, Ready);
        ArrivedLength();
      }
    }

    lemma ArrivedLength()
      requires Valid()
      ensures |newQueue| == |view.arrived|
    {
    }

    // ---------- memory ----------

    method DeallocateShMemory(process: Pcb)
      requires Valid() && Known(process) && UnlinkDefined(view, process.id)
      modifies this`view, machine.ram.mem, machine.ram.segments
      ensures Valid() && view == Unlink(old(view), process.id)
    {
      hide QueueIs;
      hide OthersAre;
      hide SemaphoresAre;
      hide LookupIs;
      assert PcbIs(machine.ram.segments, process, view.pcbs[process.id]);
      hide PcbsAre;
      var sharedMemory := process.sharedMemory;
      if sharedMemory == null {
        return;
      }
      sharedMemory.sLinkedPrcCount := sharedMemory.sLinkedPrcCount - 1;
      if sharedMemory.sLinkedPrcCount <= 0 {
        machine.ram.MarkCells(sharedMemory.sLoadAddress, sharedMemory.sLoadAddress + sharedMemory.sSize, false);
      }
      view := Unlink(view, process.id);
    }

    // The loops that set the mark bits of a region.
    method MarkRegion(lo: int, hi: int, marked: bool)
      requires Valid() && InArray(lo, hi)
      modifies this`view, machine.ram.mem
      ensures Valid() && view == old(view).(mem := SetMarks(old(view).mem, lo, hi, marked))
    {
      hide QueueIs;
      hide PcbsAre;
      hide SegmentsAre;
      hide SemaphoresAre;
      hide LookupIs;
      machine.ram.MarkCells(lo, hi, marked);
      view := view.(mem := SetMarks(view.mem, lo, hi, marked));
    }

    method EraseName(name: string)
      requires Valid() && name in view.names
      modifies this`view, machine.ram`lookup
      ensures Valid() && view == old(view).(names := old(view).names - {name})
    {
      hide QueueIs;
      hide MachineIs;
      hide PcbsAre;
      hide SegmentsAre;
      hide SemaphoresAre;
      machine.ram.lookup := machine.ram.lookup - {name};
      view := view.(names := view.names - {name});
    }

    method StampTermination(process: Pcb)
      requires Valid() && Known(process)
      modifies this`view, process`pTerminationTime
      ensures Valid() && view == Put(old(view), process.id, Get(old(view), process.id).(termination := old(view).clock))
    {
      hide QueueIs;
      hide PcbsAre;
      hide OthersAre;
      hide SegmentsAre;
      hide SemaphoresAre;
      hide LookupIs;
      WithoutOne(process, view.pcbs);
      process.pTerminationTime := machine.clock;
      WithOne(process, view.pcbs, process.Image());
      view := Put(view, process.id, Get(view, process.id).(termination := view.clock));
    }

    lemma ImageOf(process: Pcb)
      requires Valid() && Known(process)
      ensures process.id < |view.pcbs| && process.Image() == Get(view, process.id) && |process.Reg| == 6
      ensures process.pLoadAddress == Get(view, process.id).load
    {
      assert PcbIs(machine.ram.segments, process, view.pcbs[process.id]);
    }

    method DeallocateMemory(process: Pcb)
      requires Valid() && Known(process) && DeallocateDefined(view, process.id)
      modifies this`view, process`pTerminationTime, machine.ram.mem, machine.ram.segments, machine.ram`lookup
      ensures Valid() && view == FreeMemory(old(view), process.id)
    {
      hide Valid;
      hide Unlink;
      ImageOf(process);
      UnlinkSpares(view, process.id);
      DeallocateShMemory(process);
      ImageOf(process);
      MarkRegion(process.pLoadAddress, process.pLoadAddress + process.pSize, false);
      EraseName(process.name);
      StampTermination(process);
    }

    method CalculateTimes(process: Pcb)
      requires Valid() && Known(process) && Get(view, process.id).slices != []
      modifies this`view, process`response, process`turnAround
      ensures Valid()
      ensures view == Put(old(view), process.id, WithTimes(Get(old(view), process.id)))
    {
      hide QueueIs;
      hide MachineIs;
      hide PcbsAre;
      hide OthersAre;
      hide SegmentsAre;
      hide SemaphoresAre;
      hide LookupIs;
      WithoutOne(process, view.pcbs);
      ghost var p := Get(view, process.id);
      process.CalculateResponse();
      process.CalculateTurnAround();
      WithOne(process, view.pcbs, process.Image());
      view := Put(view, process.id, WithTimes(p));
    }

    // deallocateMemory, calculateResponse and calculateTurnAround.
    method Retire(process: Pcb)
      requires Valid() && Known(process) && DeallocateDefined(view, process.id)
      modifies this`view, process, machine.ram.mem, machine.ram.segments, machine.ram`lookup
      ensures Valid() && view == Deallocate(old(view), process.id)
    {
      hide Valid;
      hide FreeMemory;
      hide Deallocate;
      hide Unlink;
      ImageOf(process);
      DeallocateSplit(view, process.id);
      DeallocateMemory(process);
      CalculateTimes(process);
    }

    // ---------- interrupt service routines ----------

    method SetRegister0(process: Pcb, value: int)
      requires Valid() && Known(process)
      modifies this`view, process`Reg
      ensures Valid()
      ensures var p := Get(old(view), process.id);
              view == Put(old(view), process.id, p.(cpu := SetReg(p.cpu, 0, value)))
    {
      hide QueueIs;
      hide MachineIs;
      hide PcbsAre;
      hide OthersAre;
      hide SegmentsAre;
      hide SemaphoresAre;
      hide LookupIs;
      WithoutOne(process, view.pcbs);
      ghost var p := Get(view, process.id);
      process.Reg := process.Reg[0 := value];
      WithOne(process, view.pcbs, process.Image());
      view := Put(view, process.id, p.(cpu := SetReg(p.cpu, 0, value)));
    }

    lemma MemoryIs()
      requires Valid()
      ensures machine.ram.mem.Length == CAPACITY && machine.ram.mem[..] == view.mem
    {
    }

    // Walks from the opening quote to the closing one (or to the limit).
    method IsrPrintString(process: Pcb)
      requires Valid() && Known(process) && PrintDefined(view, process.id)
      requires Val(view.mem, Machine.Reg(Get(view, process.id).cpu, 0)) == QUOTE
      modifies this`view, process`Reg
      ensures Valid()
      ensures var p := Get(old(view), process.id);
              view == Put(old(view), process.id, p.(cpu := AfterPrint(p.cpu, old(view).mem)))
    {
      hide Valid;
      ImageOf(process);
      MemoryIs();
      ghost var p := Get(view, process.id);
      var r := process.Reg[0] + 1;
      ghost var start := r;
      StringEndLater(view.mem, r);
      while machine.ram.mem[r].val != QUOTE && r < PRINT_LIMIT
        modifies {}
        invariant start <= r <= StringEnd(view.mem, start)
        invariant StringEnd(view.mem, r) == StringEnd(view.mem, start)
        decreases PRINT_LIMIT - r
      {
        r := r + 1;
        StringEndLater(view.mem, r);
      }
      SetRegister0(process, r);
    }

    // Objects with handles are known by them.
    lemma SameObject(process: Pcb)
      requires Known(process)
      ensures forall q: Pcb :: q.id == process.id && Known(q) ==> q == process
    {
    }

    method IsrHalt(process: Pcb)
      requires Valid() && Known(process) && view.waiting == [process.id] && DeallocateDefined(view, process.id)
      modifies this, process, machine.ram.mem, machine.ram.segments, machine.ram`lookup
      ensures Valid() && view == Halt(old(view), process.id) && semaphoreTable == old(semaphoreTable)
    {
      hide Deallocate;
      hide Valid;
      hide UnlinkDefined;
      hide Enqueue;
      HaltDefined(view, process.id);
      SameObject(process);
      hide DeallocateDefined;
      var waiting := PopQueue(Waiting);
      QueuePcb(waiting, Terminated);
      Retire(process);
    }

    lemma PrintedByte(process: Pcb)
      requires Valid() && Known(process) && PrintDefined(view, process.id)
      ensures |process.Reg| == 6 && 0 <= process.Reg[0] < machine.ram.mem.Length
      ensures var p := Get(view, process.id);
              && machine.ram.mem[process.Reg[0]].val == Val(view.mem, Machine.Reg(p.cpu, 0))
              && Service(view, process.id, PRINT)
                 == if Val(view.mem, Machine.Reg(p.cpu, 0)) == QUOTE
                    then Put(view, process.id, p.(cpu := AfterPrint(p.cpu, view.mem))) else view
    {
      ImageOf(process);
      var p := Get(view, process.id);
      assert view.pcbs[process.id := p] == view.pcbs;
    }

    // String prints move R0; character and integer prints change nothing.
    method IsrPrint(process: Pcb)
      requires Valid() && Known(process) && PrintDefined(view, process.id)
      modifies this`view, process`Reg
      ensures Valid() && view == Service(old(view), process.id, PRINT)
    {
      hide *;
      PrintedByte(process);
      if machine.ram.mem[process.Reg[0]].val == QUOTE {
        IsrPrintString(process);
      }
    }

    method IsrReturnSharedMemPtr(process: Pcb)
      requires Valid() && Known(process) && view.waiting == [process.id]
      requires Get(view, process.id).shm.None? ==> DeallocateDefined(view, process.id)
      modifies this, process, machine.ram.mem, machine.ram.segments, machine.ram`lookup
      ensures Valid() && view == SharedAddress(old(view), process.id) && semaphoreTable == old(semaphoreTable)
    {
      ImageOf(process);
      if process.sharedMemory == null {
        IsrHalt(process);
        return;
      }
      assert PcbIs(machine.ram.segments, process, view.pcbs[process.id]);
      assert machine.ram.segments[process.sharedMemory.id].Image() == view.segments[process.sharedMemory.id];
      SetRegister0(process, process.sharedMemory.sLoadAddress);
    }

    lemma QueuesGrow(t: seq<Pcb>, c: Pcb)
      requires QueuesAre(t, view)
      ensures QueuesAre(t + [c], view)
    {
    }

    // vMemory.push_back and the new lookup entry.
    method Register(child: Pcb)
      requires Valid() && child.id == |machine.ram.table| && |child.Reg| == 6 && child.sharedMemory == null
      modifies this`view, machine.ram`table, machine.ram`lookup
      ensures Valid() && machine.ram.table == old(machine.ram.table) + [child] && Known(child)
      ensures view == old(view).(pcbs := old(view).pcbs + [child.Image()], names := old(view).names[child.name := child.id])
    {
      hide QueueIs;
      hide MachineIs;
      hide PcbsAre;
      hide SegmentsAre;
      hide SemaphoresAre;
      hide LookupIs;
      hide RunningIs;
      QueuesGrow(machine.ram.table, child);
      PcbsGrow(machine.ram.table, machine.ram.segments, child, view.pcbs);
      SemaphoresGrow(machine.ram.table, child, semaphoreTable, view.semaphores);
      LookupGrows(machine.ram.table, child, machine.ram.lookup, view.names);
      machine.ram.table := machine.ram.table + [child];
      machine.ram.lookup := machine.ram.lookup[child.name := child];
      view := view.(pcbs := view.pcbs + [child.Image()], names := view.names[child.name := child.id]);
    }

    method LinkChild(process: Pcb, child: Pcb)
      requires Valid() && Known(process)
      modifies this`view, process`pChild
      ensures Valid() && view == Put(old(view), process.id, Get(old(view), process.id).(child := Some(child.id)))
    {
      hide QueueIs;
      hide MachineIs;
      hide PcbsAre;
      hide OthersAre;
      hide SegmentsAre;
      hide SemaphoresAre;
      hide LookupIs;
      WithoutOne(process, view.pcbs);
      process.pChild := child;
      WithOne(process, view.pcbs, process.Image());
      view := Put(view, process.id, Get(view, process.id).(child := Some(child.id)));
    }

    // The copied block, with its arrival time and Z set.
    method CopyPcb(process: Pcb) returns (child: Pcb)
      requires Valid() && Known(process)
      ensures fresh(child) && child.id == |machine.ram.table| && |child.Reg| == 6 && child.sharedMemory == null
      ensures child.Image() == Child(Get(view, process.id), view.clock)
    {
      ImageOf(process);
      child := new Pcb.Copy(|machine.ram.table|, process);
      child.pArrivalTime := machine.clock;
      child.Z := 1;
    }

    method IsrVFork(process: Pcb)
      requires Valid() && Known(process)
      modifies this, process, machine.ram`table, machine.ram`lookup
      ensures Valid() && view == Fork(old(view), process.id) && semaphoreTable == old(semaphoreTable)
      ensures |machine.ram.table| == |old(machine.ram.table)| + 1 && old(machine.ram.table) < machine.ram.table
      ensures fresh(machine.ram.table[|old(machine.ram.table)|])
    {
      TableSize();
      var child := CopyPcb(process);
      hide Valid;
      hide Enqueue;
      LinkChild(process, child);
      Register(child);
      QueuePcb(child, Ready);
    }

    lemma TableSize()
      requires Valid()
      ensures |machine.ram.table| == |view.pcbs|
    {
    }

    // ---------- semaphores ----------

    method InitSemaphore(value: int) returns (sId: nat)
      requires Valid()
      modifies this`semaphoreTable, this`view
      ensures Valid() && sId == |old(view).semaphores|
      ensures |semaphoreTable| == sId + 1 && semaphoreTable[..sId] == old(semaphoreTable) && fresh(semaphoreTable[sId])
      ensures view == old(view).(semaphores := old(view).semaphores + [Semaphore(value, [])])
    {
      hide MachineIs;
      hide PcbsAre;
      hide SegmentsAre;
      hide LookupIs;
      sId := |semaphoreTable|;
      var newSemaphore := new SemaphoreCell(sId, value);
      semaphoreTable := semaphoreTable + [newSemaphore];
      view := view.(semaphores := view.semaphores + [Semaphore(value, [])]);
    }

    method SetValue(i: nat, value: int)
      requires Valid() && i < |semaphoreTable|
      modifies this`view, semaphoreTable[i]
      ensures Valid()
      ensures view == old(view).(semaphores := old(view).semaphores[i := old(view).semaphores[i].(value := value)])
    {
      hide MachineIs;
      hide PcbsAre;
      hide SegmentsAre;
      hide LookupIs;
      hide QueueIs;
      semaphoreTable[i].value := value;
      view := view.(semaphores := view.semaphores[i := view.semaphores[i].(value := value)]);
    }

    method PushBlocked(i: nat, p: Pcb)
      requires Valid() && i < |semaphoreTable| && Known(p)
      modifies this`view, semaphoreTable[i]
      ensures Valid()
      ensures var sem := old(view).semaphores[i];
              view == old(view).(semaphores := old(view).semaphores[i := sem.(blocked := sem.blocked + [p.id])])
    {
      hide MachineIs;
      hide PcbsAre;
      hide SegmentsAre;
      hide LookupIs;
      semaphoreTable[i].blockQueue := semaphoreTable[i].blockQueue + [p];
      ghost var sem := view.semaphores[i];
      view := view.(semaphores := view.semaphores[i := sem.(blocked := sem.blocked + [p.id])]);
    }

    method PopBlocked(i: nat) returns (p: Pcb)
      requires Valid() && i < |semaphoreTable| && semaphoreTable[i].blockQueue != []
      modifies this`view, semaphoreTable[i]
      ensures Valid() && Known(p)
      ensures var sem := old(view).semaphores[i];
              && sem.blocked != [] && p.id == sem.blocked[0]
              && view == old(view).(semaphores := old(view).semaphores[i := sem.(blocked := sem.blocked[1..])])
    {
      hide MachineIs;
      hide PcbsAre;
      hide SegmentsAre;
      hide LookupIs;
      p := semaphoreTable[i].blockQueue[0];
      semaphoreTable[i].blockQueue := semaphoreTable[i].blockQueue[1..];
      ghost var sem := view.semaphores[i];
      view := view.(semaphores := view.semaphores[i := sem.(blocked := sem.blocked[1..])]);
    }

    // Moves the waiting process to the block queue of its semaphore.
    method BlockWaiting(process: Pcb)
      requires Valid() && Known(process) && view.waiting == [process.id] && HasSemaphore(view, process.id)
      modifies this, process, semaphoreTable
      ensures Valid() && view == Block(old(view), process.id) && semaphoreTable == old(semaphoreTable)
    {
      ImageOf(process);
      SameObject(process);
      SemaphoreCount();
      ghost var v := view;
      hide Valid;
      hide Known;
      var waiting := PopQueue(Waiting);
      PushBlocked(process.semId, waiting);
      MarkWaiting(process);
      BlockSteps(v, process.id);
    }

    lemma SemaphoreCount()
      requires Valid()
      ensures |semaphoreTable| == |view.semaphores|
      ensures forall i :: 0 <= i < |semaphoreTable| ==>
                semaphoreTable[i].value == view.semaphores[i].value
                && |semaphoreTable[i].blockQueue| == |view.semaphores[i].blocked|
    {
    }

    lemma SemaphoreOf(process: Pcb)
      requires Valid() && Known(process) && HasSemaphore(view, process.id)
      ensures var i := process.semId;
              && i == Get(view, process.id).semId && 0 <= i < |semaphoreTable| && i < |view.semaphores|
              && semaphoreTable[i].value == view.semaphores[i].value
    {
      ImageOf(process);
    }

    method MarkWaiting(process: Pcb)
      requires Valid() && Known(process)
      modifies this`view, process`pState
      ensures Valid() && view == Retag(old(view), process.id, Waiting)
    {
      hide QueueIs;
      hide MachineIs;
      hide PcbsAre;
      hide OthersAre;
      hide SegmentsAre;
      hide SemaphoresAre;
      hide LookupIs;
      WithoutOne(process, view.pcbs);
      process.UpdateState(Waiting);
      WithOne(process, view.pcbs, process.Image());
      view := Retag(view, process.id, Waiting);
    }

    method IsrSemaphoreAquire(process: Pcb)
      requires Valid() && Known(process) && view.waiting == [process.id]
      modifies this, process, semaphoreTable
      ensures Valid() && view == Acquire(old(view), process.id) && semaphoreTable == old(semaphoreTable)
    {
      ImageOf(process);
      SemaphoreCount();
      hide Valid;
      if process.semId < 0 || process.semId >= |semaphoreTable| {
        return;
      }
      if semaphoreTable[process.semId].value == 0 {
        BlockWaiting(process);
      } else {
        SetValue(process.semId, semaphoreTable[process.semId].value - 1);
      }
    }

    method IsrSemaphoreRelease(process: Pcb)
      requires Valid() && Known(process) && HasSemaphore(view, process.id)
      modifies this, machine.ram.table, semaphoreTable
      ensures Valid() && view == Release(old(view), process.id) && semaphoreTable == old(semaphoreTable)
    {
      hide *;
      SemaphoreOf(process);
      ReleaseSteps(view, process.id);
      SetValue(process.semId, semaphoreTable[process.semId].value + 1);
      WakeFirst(process.semId);
    }

    // Moves the first blocked process, if any, to the ready queues.
    method WakeFirst(i: nat)
      requires Valid() && i < |semaphoreTable|
      modifies this, machine.ram.table, semaphoreTable
      ensures Valid() && view == Wake(old(view), i) && semaphoreTable == old(semaphoreTable)
    {
      SemaphoreCount();
      hide Valid;
      hide Enqueue;
      if semaphoreTable[i].blockQueue != [] {
        var woken := PopBlocked(i);
        QueuePcb(woken, Ready);
      }
    }

    method IsrSemaphoreWait(process: Pcb)
      requires Valid() && Known(process) && view.waiting == [process.id] && HasSemaphore(view, process.id)
      modifies this, process, semaphoreTable
      ensures Valid() && view == WaitSemaphore(old(view), process.id) && semaphoreTable == old(semaphoreTable)
    {
      BlockWaiting(process);
    }

    // ---------- one call of a scheduling function ----------

    // Everything a call may change.
    ghost function Parts(): set<object>
      reads this`semaphoreTable, machine.ram`table, machine.ram`segments
    {
      {this, machine, machine.Reg, machine.ram, machine.ram.mem} + (set p | p in machine.ram.table)
      + (set g | g in machine.ram.segments) + (set c | c in semaphoreTable)
    }

    method InterruptServiceRoutine(process: Pcb, returnCode: int)
      requires Valid() && Known(process) && view.waiting == [process.id] && ServiceDefined(view, process.id, returnCode)
      modifies Parts()
      ensures Valid() && view == Service(old(view), process.id, returnCode) && semaphoreTable == old(semaphoreTable)
      ensures Known(process) && fresh(Parts() - old(Parts()))
    {
      hide Valid;
      hide PrintDefined;
      hide DeallocateDefined;
      hide HasSemaphore;
      hide Fork;
      hide SharedAddress;
      hide Acquire;
      hide Release;
      hide WaitSemaphore;
      if returnCode == PRINT {
        IsrPrint(process);
      } else if returnCode == FORK {
        IsrVFork(process);
      } else if returnCode == SHARED_ADDRESS {
        IsrReturnSharedMemPtr(process);
      } else if returnCode == ACQUIRE {
        IsrSemaphoreAquire(process);
      } else if returnCode == RELEASE {
        IsrSemaphoreRelease(process);
      } else if returnCode == WAIT {
        IsrSemaphoreWait(process);
      }
    }

    method CaptureSlice(process: Pcb)
      requires Valid() && Known(process)
      modifies this`view, process`wait, process`cpuTimeSlices
      ensures Valid() && view == Put(old(view), process.id, Capture(Get(old(view), process.id), old(view).clock))
    {
      hide QueueIs;
      hide PcbsAre;
      hide OthersAre;
      hide SegmentsAre;
      hide SemaphoresAre;
      hide LookupIs;
      WithoutOne(process, view.pcbs);
      process.CaptureTimeSlice(machine.clock);
      WithOne(process, view.pcbs, process.Image());
      view := Put(view, process.id, Capture(Get(view, process.id), view.clock));
    }

    method MachineCycle(process: Pcb, ghost o: Outcome) returns (returnCode: int)
      requires Valid() && Defined(view.cpu, view.mem, process.pLoadAddress)
      requires o == Exec(view.cpu, view.mem, process.pLoadAddress)
      modifies this`view, machine, machine.Reg, machine.ram.mem
      ensures Valid() && view == old(view).(cpu := o.cpu, mem := o.mem, clock := old(view).clock + o.ticks)
      ensures returnCode == o.code
    {
      hide QueueIs;
      hide PcbsAre;
      hide SegmentsAre;
      hide SemaphoresAre;
      hide LookupIs;
      hide Defined;
      hide Exec;
      returnCode := machine.FetchDecodeExecute(process);
      view := view.(cpu := o.cpu, mem := o.mem, clock := view.clock + o.ticks);
    }

    // fetchDecodeExecute and captureTimeSlice on the running process.
    method RunCycle(process: Pcb) returns (returnCode: int)
      requires Valid() && Known(process) && Defined(view.cpu, view.mem, Get(view, process.id).load)
      modifies this`view, machine, machine.Reg, machine.ram.mem, process
      ensures Valid() && view == Execute(Fcfs, old(view), process.id)
      ensures returnCode == CycleOf(old(view), process.id).code
    {
      hide *;
      ImageOf(process);
      ghost var o := CycleOf(view, process.id);
      CycleSteps(view, process.id, o);
      returnCode := MachineCycle(process, o);
      CaptureSlice(process);
    }

    method IdleTick()
      requires Valid()
      modifies this`view, machine`clock
      ensures Valid() && view == old(view).(clock := old(view).clock + 1)
    {
      hide QueueIs;
      hide PcbsAre;
      hide SegmentsAre;
      hide SemaphoresAre;
      hide LookupIs;
      machine.Idle();
      view := view.(clock := view.clock + 1);
    }

    // The interrupted process waits while its interrupt is served.
    method EnterInterrupt(process: Pcb, returnCode: int)
      requires Valid() && Known(process) && view.waiting == []
      requires ServiceDefined(Park(view, process.id), process.id, returnCode)
      modifies Parts()
      ensures Valid() && view == Service(Park(old(view), process.id), process.id, returnCode)
      ensures Known(process) && semaphoreTable == old(semaphoreTable) && fresh(Parts() - old(Parts()))
    {
      hide Valid;
      hide ServiceDefined;
      hide Service;
      hide Enqueue;
      hide Save;
      hide Park;
      TableSize();
      ParkSteps(view, process.id);
      ContextToPcb(process);
      QueuePcb(process, Waiting);
      ClearCpu();
      InterruptServiceRoutine(process, returnCode);
    }

    method PromotePcb(process: Pcb)
      requires Valid() && Known(process)
      modifies this`view, process`pPriority, process`pQuantumCount
      ensures Valid() && view == Put(old(view), process.id, Promote(Get(old(view), process.id)))
    {
      hide QueueIs;
      hide MachineIs;
      hide PcbsAre;
      hide OthersAre;
      hide SegmentsAre;
      hide SemaphoresAre;
      hide LookupIs;
      WithoutOne(process, view.pcbs);
      process.PromotePriority();
      WithOne(process, view.pcbs, process.Image());
      view := Put(view, process.id, Promote(Get(view, process.id)));
    }

    // Back to the ready queues, unless the interrupt blocked or halted the process.
    method LeaveInterrupt(process: Pcb)
      requires Valid() && Known(process)
      modifies this, process
      ensures Valid() && view == Resume(old(view), process.id).(running := None)
      ensures semaphoreTable == old(semaphoreTable)
    {
      WaitingLength();
      hide Valid;
      hide Enqueue;
      if waitingQueue != [] {
        var _ := PopQueue(Waiting);
        QueuePcb(process, Ready);
      }
      ReleaseCpu();
    }

    lemma WaitingLength()
      requires Valid()
      ensures |waitingQueue| == |view.waiting|
    {
    }

    // pRunningPcb = NULL
    method ReleaseCpu()
      requires Valid()
      modifies this`pRunningPcb, this`view
      ensures Valid() && view == old(view).(running := None)
    {
      hide QueueIs;
      hide MachineIs;
      hide PcbsAre;
      hide SegmentsAre;
      hide SemaphoresAre;
      hide LookupIs;
      pRunningPcb := null;
      view := view.(running := None);
    }

    method SetQuantumClock(value: int)
      requires Valid()
      modifies this`quantumClock, this`view
      ensures Valid() && view == old(view).(quantumClock := value)
    {
      hide QueueIs;
      hide MachineIs;
      hide PcbsAre;
      hide SegmentsAre;
      hide SemaphoresAre;
      hide LookupIs;
      quantumClock := value;
      view := view.(quantumClock := value);
    }

    method TerminateProcess(process: Pcb)
      requires Valid() && Known(process) && DeallocateDefined(view, process.id)
      modifies this, process, machine.ram.mem, machine.ram.segments, machine.ram`lookup
      ensures Valid()
      ensures var h := process.id;
              view == Deallocate(Enqueue(Save(old(view), h), h, Terminated), h).(running := None)
      ensures semaphoreTable == old(semaphoreTable)
    {
      TerminateDefined(view, process.id);
      hide Valid;
      hide Enqueue;
      hide Deallocate;
      hide DeallocateDefined;
      ContextToPcb(process);
      QueuePcb(process, Terminated);
      Retire(process);
      ReleaseCpu();
    }

    // The running object is the one the view names.
    lemma RunningObject()
      requires Valid()
      ensures if pRunningPcb == null then view.running.None?
              else Known(pRunningPcb) && view.running == Some(pRunningPcb.id) && pRunningPcb.id < |view.pcbs|
      ensures quantumClock == view.quantumClock
    {
    }

    method CountQuantum(process: Pcb)
      requires Valid() && Known(process)
      modifies this`view, process`pQuantumCount
      ensures Valid()
      ensures var p := Get(old(view), process.id);
              view == Put(old(view), process.id, p.(quantumCount := p.quantumCount + 1))
    {
      hide QueueIs;
      hide MachineIs;
      hide PcbsAre;
      hide OthersAre;
      hide SegmentsAre;
      hide SemaphoresAre;
      hide LookupIs;
      WithoutOne(process, view.pcbs);
      process.IncrementQuantumCount();
      WithOne(process, view.pcbs, process.Image());
      ghost var p := Get(view, process.id);
      view := Put(view, process.id, p.(quantumCount := p.quantumCount + 1));
    }

    method DemotePcb(process: Pcb)
      requires Valid() && Known(process)
      modifies this`view, process`pPriority, process`pQuantumCount
      ensures Valid() && view == Put(old(view), process.id, Demote(Get(old(view), process.id)))
    {
      hide QueueIs;
      hide MachineIs;
      hide PcbsAre;
      hide OthersAre;
      hide SegmentsAre;
      hide SemaphoresAre;
      hide LookupIs;
      WithoutOne(process, view.pcbs);
      process.DemotePriority();
      WithOne(process, view.pcbs, process.Image());
      view := Put(view, process.id, Demote(Get(view, process.id)));
    }

    // The preempted process goes to the back of its ready queue and the next one runs.
    method SwapRunning(process: Pcb)
      requires Valid() && pRunningPcb == process && Known(process) && 0 <= Get(view, process.id).priority <= 2
      modifies this, machine, machine.Reg, machine.ram.table
      ensures Valid() && view == TagRunning(SwitchIn(Enqueue(old(view), process.id, Ready)))
      ensures pRunningPcb != null && semaphoreTable == old(semaphoreTable)
    {
      Census.EnqueueReadyFills(view, process.id);
      hide *;
      QueuePcb(process, Ready);
      SwitchToNext(false);
      MarkRunning();
    }

    // incrementQuatumCount, contextToPcb and, at the fifth quantum, demotePriority.
    method ChargeQuantum(process: Pcb, ghost p: Policy)
      requires Valid() && Known(process) && p.Mlfq?
      modifies this, process
      ensures Valid() && view == Charge(p, old(view), process.id)
      ensures pRunningPcb == old(pRunningPcb) && semaphoreTable == old(semaphoreTable)
    {
      hide Valid;
      hide Demote;
      hide Save;
      hide Charge;
      hide Put;
      TableSize();
      ChargeSteps(p, view, process.id);
      SetQuantumClock(0);
      CountQuantum(process);
      ContextToPcb(process);
      ImageOf(process);
      if process.pQuantumCount >= 5 {
        DemotePcb(process);
      }
    }

    method DispatchFcfs()
      requires Valid()
      modifies this, machine, machine.Reg, machine.ram.table
      ensures Valid() && view == DispatchIdle(Fcfs, old(view)) && semaphoreTable == old(semaphoreTable)
    {
      RunningObject();
      var empty := ReadyQueuesEmpty();
      hide Valid;
      hide SwitchIn;
      hide TagRunning;
      hide NoneReady;
      if pRunningPcb == null && !empty {
        SwitchToNext(true);
        MarkRunning();
      }
    }

    method DispatchRr(ghost p: Policy)
      requires Valid() && p.Rr? && view.arrived == [] && view.waiting == []
      modifies this, machine, machine.Reg
      ensures Valid() && view == DispatchIdle(p, old(view)) && semaphoreTable == old(semaphoreTable)
    {
      RunningObject();
      var empty := AllQueuesEmpty();
      hide Valid;
      hide SwitchIn;
      hide NoneReady;
      if pRunningPcb == null && !empty {
        SwitchToNext(true);
      }
    }

    method DispatchMlfq(ghost p: Policy)
      requires Valid() && p.Mlfq?
      modifies this, machine, machine.Reg
      ensures Valid() && view == DispatchIdle(p, old(view)) && semaphoreTable == old(semaphoreTable)
    {
      RunningObject();
      var empty := ReadyQueuesEmpty();
      hide Valid;
      hide SwitchIn;
      hide NoneReady;
      if pRunningPcb == null && !empty {
        SwitchToNext(true);
        SetQuantumClock(0);
      }
    }

    // The dereferenced pointers are not NULL: a quantum can only run out with a process running.
    method PreemptRr(quantum: int)
      requires Valid() && quantum >= 1 && Census.Ranged(view) && (view.running.None? ==> NoneReady(view))
      modifies this, machine, machine.Reg, machine.ram.table
      ensures Valid() && view == Preempt(Rr(quantum), old(view)) && semaphoreTable == old(semaphoreTable)
    {
      RunningObject();
      hide Save;
      if quantumClock % quantum == 0 && quantumClock != 0 && readyQueue0 != [] {
        var process := pRunningPcb;
        ReadyLength();
        SaveKeepsPriority(view, process.id);
        hide Valid;
        ContextToPcb(process);
        SwapRunning(process);
      }
    }

    lemma ReadyLength()
      requires Valid()
      ensures |readyQueue0| == |view.ready[0]|
    {
    }

    // The quantum of the running process's level.
    method QuantumSet(quantum: int, scaler: int) returns (quantumSet: int)
      requires Valid() && pRunningPcb != null && quantum >= 1 && scaler >= 1
      ensures quantumSet == QuantumAt(Mlfq(quantum, scaler), Get(view, pRunningPcb.id).priority) && quantumSet >= 1
    {
      var quantum0 := quantum;
      var quantum1 := quantum * scaler;
      var quantum2 := quantum * 1000;
      PositiveQuantum(quantum, scaler);
      RunningObject();
      ImageOf(pRunningPcb);
      quantumSet := quantum0;
      if pRunningPcb.pPriority == 1 {
        quantumSet := quantum1;
      } else if pRunningPcb.pPriority == 2 {
        quantumSet := quantum2;
      }
    }

    method PreemptMlfq(quantum: int, scaler: int)
      requires Valid() && quantum >= 1 && scaler >= 1 && Census.Ranged(view)
      modifies this, machine, machine.Reg, machine.ram.table
      ensures Valid() && view == Preempt(Mlfq(quantum, scaler), old(view)) && semaphoreTable == old(semaphoreTable)
    {
      ghost var p := Mlfq(quantum, scaler);
      var empty := ReadyQueuesEmpty();
      RunningObject();
      hide Valid;
      hide Charge;
      hide SwitchIn;
      hide TagRunning;
      hide Enqueue;
      hide NoneReady;
      hide QuantumAt;
      if pRunningPcb != null {
        var quantumSet := QuantumSet(quantum, scaler);
        if quantumClock != 0 && quantumClock % quantumSet == 0 && !empty {
          var process := pRunningPcb;
          ChargeRanged(p, view, process.id);
          ChargeQuantum(process, p);
          SwapRunning(process);
        }
      }
    }

    // Everything up to the running process's cycle.
    method PrepareFcfs()
      requires Valid() && Census.Sound(view)
      modifies this, machine, machine.Reg, machine.ram.table
      ensures Valid() && view == Prepare(Fcfs, old(view)) && Prepare(Fcfs, old(view)).waiting == []
      ensures semaphoreTable == old(semaphoreTable)
    {
      hide Valid;
      hide Admit;
      hide DispatchIdle;
      hide Census.Sound;
      PrepareSafe(Fcfs, view);
      AdmitNew();
      DispatchFcfs();
    }

    // The interrupt of a first-come-first-served call, from the saved context to the empty CPU.
    method InterruptFcfs(process: Pcb, returnCode: int)
      requires Valid() && Known(process) && view.waiting == []
      requires ServiceDefined(Park(view, process.id), process.id, returnCode)
      modifies Parts()
      ensures Valid() && view == Interrupted(Fcfs, old(view), process.id, returnCode)
      ensures fresh(Parts() - old(Parts()))
    {
      hide Valid;
      hide ServiceDefined;
      hide Service;
      hide Park;
      hide Resume;
      hide Put;
      EnterInterrupt(process, returnCode);
      LeaveInterrupt(process);
    }

    method FirstComeFirstServe() returns (returnCode: int)
      requires Valid() && Census.Sound(view) && StepDefined(Fcfs, view)
      modifies Parts()
      ensures Valid() && view == Step(Fcfs, old(view)) && returnCode == CodeOf(Fcfs, old(view))
      ensures fresh(Parts() - old(Parts()))
    {
      hide Valid;
      hide Prepare;
      hide CycleOf;
      hide Execute;
      hide Interrupted;
      hide Park;
      hide Deallocate;
      hide Enqueue;
      hide Save;
      hide Census.Sound;
      hide Defined;
      hide ServiceDefined;
      hide DeallocateDefined;
      ghost var t := Prepare(Fcfs, view);
      PrepareSafe(Fcfs, view);
      CodeCases(Fcfs, view);
      PrepareFcfs();
      assert view == t;
      RunningObject();
      if pRunningPcb == null {
        IdleTick();
        return 0;
      }
      var process := pRunningPcb;
      returnCode := RunCycle(process);
      if returnCode >= 20 {
        InterruptFcfs(process, returnCode);
        return;
      }
      if returnCode == HALTED {
        TerminateProcess(process);
        return;
      }
      return 0;
    }

    // A cycle that counts toward the quantum.
    method RunCounted(process: Pcb, ghost p: Policy) returns (returnCode: int)
      requires Valid() && Known(process) && Defined(view.cpu, view.mem, Get(view, process.id).load) && !p.Fcfs?
      modifies this, machine, machine.Reg, machine.ram.mem, process
      ensures Valid() && view == Execute(p, old(view), process.id) && semaphoreTable == old(semaphoreTable)
      ensures returnCode == CycleOf(old(view), process.id).code
    {
      CountedCycle(p, view, process.id);
      returnCode := RunCycle(process);
      RunningObject();
      hide *;
      SetQuantumClock(quantumClock + 1);
    }

    // The interrupt of a round-robin call, from the saved context to the empty CPU.
    method InterruptRr(process: Pcb, returnCode: int, ghost p: Policy)
      requires Valid() && Known(process) && view.waiting == [] && p.Rr?
      requires ServiceDefined(Park(view, process.id), process.id, returnCode)
      modifies Parts()
      ensures Valid() && view == Interrupted(p, old(view), process.id, returnCode)
      ensures fresh(Parts() - old(Parts()))
    {
      hide Valid;
      hide ServiceDefined;
      hide Service;
      hide Park;
      hide Promote;
      hide Resume;
      hide Put;
      EnterInterrupt(process, returnCode);
      LeaveInterrupt(process);
      SetQuantumClock(0);
    }

    // The interrupt of a MLFQ call, from the saved context to the empty CPU.
    method InterruptMlfq(process: Pcb, returnCode: int, ghost p: Policy)
      requires Valid() && Known(process) && view.waiting == [] && p.Mlfq?
      requires ServiceDefined(Park(view, process.id), process.id, returnCode)
      modifies Parts()
      ensures Valid() && view == Interrupted(p, old(view), process.id, returnCode)
      ensures fresh(Parts() - old(Parts()))
    {
      hide Valid;
      hide ServiceDefined;
      hide Service;
      hide Park;
      hide Promote;
      hide Resume;
      hide Put;
      EnterInterrupt(process, returnCode);
      PromotePcb(process);
      LeaveInterrupt(process);
      SetQuantumClock(0);
    }

    // Everything up to the running process's cycle.
    method PrepareRr(quantum: int)
      requires Valid() && Census.Sound(view) && quantum >= 1
      modifies this, machine, machine.Reg, machine.ram.table
      ensures Valid() && view == Prepare(Rr(quantum), old(view)) && Prepare(Rr(quantum), old(view)).waiting == []
      ensures semaphoreTable == old(semaphoreTable)
    {
      hide Valid;
      hide Admit;
      hide DispatchIdle;
      hide Preempt;
      hide Census.Sound;
      ghost var p := Rr(quantum);
      PrepareSafe(p, view);
      AdmitNew();
      DispatchRr(p);
      PreemptRr(quantum);
    }

    method RoundRobin(quantum: int) returns (returnCode: int)
      requires Valid() && Census.Sound(view) && quantum >= 1 && StepDefined(Rr(quantum), view)
      modifies Parts()
      ensures Valid() && view == Step(Rr(quantum), old(view)) && returnCode == CodeOf(Rr(quantum), old(view))
      ensures fresh(Parts() - old(Parts()))
    {
      hide Valid;
      hide Prepare;
      hide CycleOf;
      hide Execute;
      hide Interrupted;
      hide Deallocate;
      hide Enqueue;
      hide Save;
      hide Put;
      hide Park;
      hide Census.Sound;
      hide Defined;
      hide ServiceDefined;
      hide DeallocateDefined;
      ghost var p := Rr(quantum);
      ghost var t := Prepare(p, view);
      PrepareSafe(p, view);
      CodeCases(p, view);
      PrepareRr(quantum);
      assert view == t;
      RunningObject();
      if pRunningPcb == null {
        IdleTick();
        return 0;
      }
      var process := pRunningPcb;
      returnCode := RunCounted(process, p);
      if returnCode >= 20 {
        InterruptRr(process, returnCode, p);
        return;
      }
      if returnCode == HALTED {
        TerminateProcess(process);
        SetQuantumClock(0);
        return;
      }
      return 0;
    }

    // Everything up to the running process's cycle.
    method PrepareMlfq(quantum: int, scaler: int)
      requires Valid() && Census.Sound(view) && quantum >= 1 && scaler >= 1
      modifies this, machine, machine.Reg, machine.ram.table
      ensures Valid() && view == Prepare(Mlfq(quantum, scaler), old(view)) && Prepare(Mlfq(quantum, scaler), old(view)).waiting == []
      ensures semaphoreTable == old(semaphoreTable)
    {
      hide Valid;
      hide Admit;
      hide DispatchIdle;
      hide Preempt;
      hide Census.Sound;
      ghost var p := Mlfq(quantum, scaler);
      PrepareSafe(p, view);
      AdmitNew();
      DispatchMlfq(p);
      PreemptMlfq(quantum, scaler);
    }

    method MultiLevelFeedbackQueue(quantum: int, scaler: int) returns (returnCode: int)
      requires Valid() && Census.Sound(view) && quantum >= 1 && scaler >= 1 && StepDefined(Mlfq(quantum, scaler), view)
      modifies Parts()
      ensures Valid() && view == Step(Mlfq(quantum, scaler), old(view)) && returnCode == CodeOf(Mlfq(quantum, scaler), old(view))
      ensures fresh(Parts() - old(Parts()))
    {
      hide Valid;
      hide Prepare;
      hide CycleOf;
      hide Execute;
      hide Interrupted;
      hide Deallocate;
      hide Enqueue;
      hide Save;
      hide Put;
      hide Park;
      hide Census.Sound;
      hide Defined;
      hide ServiceDefined;
      hide DeallocateDefined;
      ghost var p := Mlfq(quantum, scaler);
      ghost var t := Prepare(p, view);
      PrepareSafe(p, view);
      CodeCases(p, view);
      PrepareMlfq(quantum, scaler);
      assert view == t;
      RunningObject();
      if pRunningPcb == null {
        IdleTick();
        return 0;
      }
      var process := pRunningPcb;
      returnCode := RunCounted(process, p);
      if returnCode >= 20 {
        InterruptMlfq(process, returnCode, p);
        return;
      }
      if returnCode == HALTED {
        TerminateProcess(process);
        SetQuantumClock(0);
        return;
      }
      return 0;
    }
  }

  lemma BlockSteps(s: State, h: nat)
    requires s.waiting == [h] && HasSemaphore(s, h)
    ensures var i := Get(s, h).semId;
            var t := Pop(s, Waiting);
            var sem := t.semaphores[i];
            && Front(s, Waiting) == Some(h) && t.semaphores == s.semaphores && t.pcbs == s.pcbs
            && Block(s, h) == Retag(t.(semaphores := t.semaphores[i := sem.(blocked := sem.blocked + [h])]), h, Waiting)
  {
  }

  // The first process blocked on semaphore `i` becomes ready.
  function Wake(s: State, i: nat): State
    requires i < |s.semaphores|
  {
    var sem := s.semaphores[i];
    if sem.blocked == [] then s
    else Enqueue(s.(semaphores := s.semaphores[i := sem.(blocked := sem.blocked[1..])]), sem.blocked[0], Ready)
  }

  lemma ReleaseSteps(s: State, h: nat)
    requires HasSemaphore(s, h)
    ensures var i := Get(s, h).semId;
            var t := s.(semaphores := s.semaphores[i := s.semaphores[i].(value := s.semaphores[i].value + 1)]);
            |t.semaphores| == |s.semaphores| && Release(s, h) == Wake(t, i)
  {
    var i := Get(s, h).semId;
    var sem := s.semaphores[i].(value := s.semaphores[i].value + 1);
    if sem.blocked != [] {
      var left := sem.(blocked := sem.blocked[1..]);
      assert s.semaphores[i := sem][i := left] == s.semaphores[i := left];
    }
  }

  lemma HaltDefined(s: State, h: nat)
    requires DeallocateDefined(s, h) && s.waiting == [h]
    ensures DeallocateDefined(Enqueue(PopWaiting(s), h, Terminated), h) && Pop(s, Waiting) == PopWaiting(s)
  {
  }

  lemma TerminateDefined(s: State, h: nat)
    requires DeallocateDefined(s, h)
    ensures DeallocateDefined(Enqueue(Save(s, h), h, Terminated), h)
  {
  }

  lemma ParkSteps(s: State, h: nat)
    requires s.waiting == [] && h < |s.pcbs|
    ensures Park(s, h) == Enqueue(Save(s, h), h, Waiting).(cpu := ClearedCpu) && Park(s, h).waiting == [h]
  {
  }

  lemma CycleSteps(s: State, h: nat, o: Outcome)
    requires o == CycleOf(s, h)
    ensures var t := s.(cpu := o.cpu, mem := o.mem, clock := s.clock + o.ticks);
            o == Exec(s.cpu, s.mem, Get(s, h).load) && Execute(Fcfs, s, h) == Put(t, h, Capture(Get(t, h), t.clock))
  {
  }

  lemma SaveKeepsPriority(s: State, h: nat)
    requires h < |s.pcbs| && Census.Ranged(s)
    ensures 0 <= Get(Save(s, h), h).priority <= 2
  {
  }

  lemma ChargeSteps(policy: Policy, s: State, h: nat)
    requires h < |s.pcbs| && policy.Mlfq?
    ensures var p := Get(s, h);
            var t := Save(Put(s.(quantumClock := 0), h, p.(quantumCount := p.quantumCount + 1)), h);
            Charge(policy, s, h) == if Get(t, h).quantumCount >= 5 then Put(t, h, Demote(Get(t, h))) else t
  {
    var p := Get(s, h);
    var counted := p.(quantumCount := p.quantumCount + 1);
    var saved := counted.(cpu := s.cpu);
    assert s.pcbs[h := counted][h := saved] == s.pcbs[h := saved];
    assert s.pcbs[h := p.(cpu := s.cpu)][h := UseQuantum(p.(cpu := s.cpu))] == s.pcbs[h := UseQuantum(p.(cpu := s.cpu))];
    assert s.pcbs[h := saved][h := Demote(saved)] == s.pcbs[h := Demote(saved)];
  }

  lemma ChargeRanged(p: Policy, s: State, h: nat)
    requires h < |s.pcbs| && Census.Ranged(s)
    ensures 0 <= Get(Charge(p, s, h), h).priority <= 2
  {
  }

  lemma PositiveQuantum(quantum: int, scaler: int)
    requires quantum >= 1 && scaler >= 1
    ensures quantum * scaler >= 1
  {
  }

  // What holds when the running process starts its cycle.
  lemma PrepareSafe(p: Policy, s: State)
    requires Census.Sound(s)
    ensures var a := Admit(s);
            && a.arrived == [] && a.waiting == [] && Census.Ranged(a)
            && Census.Ranged(DispatchIdle(p, a)) && Prepare(p, s).waiting == []
            && (p.Rr? && DispatchIdle(p, a).running.None? ==> NoneReady(DispatchIdle(p, a)))
    ensures forall h :: Execute(p, Prepare(p, s), h).waiting == []
  {
    Census.AdmitPlaces(s, 0);
    Census.DispatchPlaces(p, Admit(s), 0);
    Census.PreparePlaces(p, s, 0);
  }

  lemma CodeCases(p: Policy, s: State)
    ensures CodeOf(p, s) == 0 || CodeOf(p, s) == HALTED || 20 <= CodeOf(p, s) <= 27
  {
    var t := Prepare(p, s);
    if t.running.Some? {
      CycleCodes(t.cpu, t.mem, Get(t, t.running.value).load);
    }
  }

  lemma CountedCycle(p: Policy, s: State, h: nat)
    requires !p.Fcfs?
    ensures Execute(p, s, h) == Execute(Fcfs, s, h).(quantumClock := s.quantumClock + 1)
    ensures Execute(Fcfs, s, h).quantumClock == s.quantumClock
  {
  }

  lemma AdmitStep(s: State)
    requires s.arrived != []
    ensures Front(s, New) == Some(s.arrived[0])
    ensures var t := Enqueue(Pop(s, New), s.arrived[0], Ready);
            Admit(s) == Admit(t) && |t.arrived| == |s.arrived| - 1
  {
  }
}
