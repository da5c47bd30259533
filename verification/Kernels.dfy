// The kernel: loading, semaphores, shared memory and the two loops that run the scheduler
// (src/kernel/kernel.h, src/kernel/kernel.cpp).
module Kernels {
  import opened Options
  import opened Machine
  import opened Processes
  import opened System
  import opened Census
  import opened Sessions
  import Fairness
  import Timekeeping
  import opened Hardware
  import opened Scheduling
  import opened Loading
  import opened Charts
  import opened Logging

  const FCFS := 6
  const RR := 7
  const MLFQ := 8

  // What opening a segment needs: the cells of a segment that is closed exist, a large enough
  // free run exists, and so does the one cell more that gets marked.
  predicate OpenDefined(s: State, size: int, one: string, two: string) {
    match (Lookup(s, one), Lookup(s, two))
    case (Some(a), Some(b)) => ConnectDefined(s, a, b, size)
    case _ => true
  }

  // The names of the programs with the codes of their loads, as kernelExecuteProgram returns them.
  function Codes(loads: seq<Attempt>): Multimap<string> {
    if loads == [] then []
    else
      var l := loads[|loads| - 1];
      Insert(Codes(loads[..|loads| - 1]), if l.code == 0 then 0 else 1, l.listed.name)
  }

  // The codes of the loads that failed, as they are kept in the error list.
  function Errors(loads: seq<Attempt>): seq<int> {
    if loads == [] then []
    else Errors(loads[..|loads| - 1]) + var c := loads[|loads| - 1].code; if c == 0 then [] else [c]
  }

  // Every call until the session is over is defined.
  ghost predicate SessionDefined(p: Policy, disk: Disk, start: int, z: Session) {
    forall n: nat :: var r := Rounds(p, disk, start, z, n);
      !Over(r) ==> StepDefined(p, LoadDue(disk, start, r).state)
  }

  lemma SessionDefinedNext(p: Policy, disk: Disk, start: int, z: Session)
    requires SessionDefined(p, disk, start, z)
    ensures !Over(z) ==> StepDefined(p, LoadDue(disk, start, z).state)
    ensures SessionDefined(p, disk, start, Round(p, disk, start, z))
  {
    assert Rounds(p, disk, start, z, 0) == z;
    forall n: nat
      ensures var r := Rounds(p, disk, start, Round(p, disk, start, z), n);
              !Over(r) ==> StepDefined(p, LoadDue(disk, start, r).state)
    {
      assert Rounds(p, disk, start, z, n + 1) == Rounds(p, disk, start, Round(p, disk, start, z), n);
    }
  }

  class Kernel {
    const machine: VirtualMachine
    const scheduler: Scheduler
    const loader: Loader
    const errorHandler: ErrorHandler
    var schedulerAlgo: int
    var schedulerQuantum: int
    var mlfqRatio: int

    constructor (machine: VirtualMachine)
      requires machine.Reg.Length == 6 && machine.Context() == ClearedCpu && machine.clock == 0 && machine.ram.Empty()
      ensures Valid() && scheduler.view == Boot() && PolicyOf() == Mlfq(5, 3)
    {
      this.machine := machine;
      scheduler := new Scheduler(machine);
      loader := new Loader(machine);
      errorHandler := new ErrorHandler();
      schedulerAlgo, schedulerQuantum, mlfqRatio := MLFQ, 5, 3;
      new;
      BootSound();
    }

    ghost predicate Valid()
      reads this, loader, scheduler, machine, machine.Reg, machine.ram, machine.ram.mem
      reads machine.ram.table, machine.ram.segments, scheduler.machine, scheduler.machine.Reg, scheduler.machine.ram
      reads scheduler.machine.ram.mem, scheduler.machine.ram.table, scheduler.machine.ram.segments, scheduler.semaphoreTable
    {
      && scheduler.machine == machine && loader.machine == machine
      && schedulerAlgo in {FCFS, RR, MLFQ}
      && scheduler.Valid() && Sound(scheduler.view) && loader.currentIdCount == scheduler.view.loaded
    }

    function PolicyOf(): Policy
      reads this
    {
      if schedulerAlgo == FCFS then Fcfs
      else if schedulerAlgo == RR then Rr(schedulerQuantum)
      else Mlfq(schedulerQuantum, mlfqRatio)
    }

    // The code of the policy now in force, or 1 for a name that is none of the three.
    method KernelSetScheduler(arg: string, quantum: int, ratio: int) returns (code: int)
      modifies this`schedulerAlgo, this`schedulerQuantum, this`mlfqRatio, errorHandler`errorList
      ensures PolicyOf() == if arg == "fcfs" then Fcfs
                            else if arg == "rr" then Rr(quantum)
                            else if arg == "mlfq" then Mlfq(quantum, ratio)
                            else old(PolicyOf())
      ensures if arg in {"fcfs", "rr", "mlfq"}
              then code == schedulerAlgo && errorHandler.errorList == old(errorHandler.errorList)
              else code == 1 && errorHandler.errorList == old(errorHandler.errorList) + [1]
    {
      if arg == "fcfs" {
        schedulerAlgo := FCFS;
        return FCFS;
      }
      if arg == "mlfq" {
        schedulerAlgo := MLFQ;
        schedulerQuantum := quantum;
        mlfqRatio := ratio;
        return MLFQ;
      }
      if arg == "rr" {
        schedulerAlgo := RR;
        schedulerQuantum := quantum;
        return RR;
      }
      errorHandler.errorList := errorHandler.errorList + [1];
      return 1;
    }

    // ---------- loading ----------

    method ReadProgram(file: Option<Image>) returns (code: int)
      requires scheduler.Valid() && scheduler.machine == machine && loader.machine == machine
      requires file.Some? ==> Proper(file.value)
      modifies scheduler`view, machine.ram.mem
      ensures scheduler.Valid() && code == if file.Some? then LoadCode(old(scheduler.view), file.value) else 200
      ensures var s := old(scheduler.view);
              scheduler.view == if code == 0 then s.(mem := Written(s.mem, file.value)) else s
    {
      hide QueueIs;
      hide PcbsAre;
      hide SegmentsAre;
      hide SemaphoresAre;
      hide LookupIs;
      code := loader.LoadProgram(file);
      if code == 0 {
        scheduler.view := scheduler.view.(mem := Written(scheduler.view.mem, file.value));
      }
    }

    method MarkLoaded(process: Pcb)
      requires scheduler.Valid() && scheduler.machine == machine && loader.machine == machine
      requires InArray(process.pLoadAddress, process.pLoadAddress + process.pSize)
      modifies scheduler`view, machine.ram.mem
      ensures scheduler.Valid()
      ensures var s, lo, hi := old(scheduler.view), process.pLoadAddress, process.pLoadAddress + process.pSize;
              scheduler.view == s.(mem := SetMarks(s.mem, lo, hi, true))
    {
      hide QueueIs;
      hide PcbsAre;
      hide SegmentsAre;
      hide SemaphoresAre;
      hide LookupIs;
      loader.AllocateMemory(process);
      scheduler.view := scheduler.view.(mem :=
        SetMarks(scheduler.view.mem, process.pLoadAddress, process.pLoadAddress + process.pSize, true));
    }

    method NewPcb(image: Image, filePath: string) returns (pPcb: Pcb)
      requires scheduler.Valid() && scheduler.machine == machine && loader.machine == machine
      requires loader.currentIdCount == scheduler.view.loaded
      modifies scheduler`view, loader`currentIdCount, machine.ram`table, machine.ram`lookup
      ensures scheduler.Valid() && fresh(pPcb) && scheduler.Known(pPcb) && pPcb.id == |old(scheduler.view).pcbs|
      ensures pPcb.pLoadAddress == image.load && pPcb.pSize == image.size
      ensures machine.ram.table == old(machine.ram.table) + [pPcb] && loader.currentIdCount == old(loader.currentIdCount) + 1
      ensures var s := old(scheduler.view);
              scheduler.view == s.(pcbs := s.pcbs + [Loaded(filePath, s.loaded, image.load, image.size, image.first, s.clock)],
                                   loaded := s.loaded + 1, names := s.names[filePath := pPcb.id])
    {
      hide QueueIs;
      hide RunningIs;
      hide PcbsAre;
      hide SegmentsAre;
      hide SemaphoresAre;
      hide LookupIs;
      scheduler.TableSize();
      ghost var t, g, lookup, s := machine.ram.table, machine.ram.segments, machine.ram.lookup, scheduler.view;
      pPcb := loader.CreatePcb(image.load, image.size, image.first, machine.clock, filePath);
      scheduler.QueuesGrow(t, pPcb);
      PcbsGrow(t, g, pPcb, s.pcbs);
      SemaphoresGrow(t, pPcb, scheduler.semaphoreTable, s.semaphores);
      LookupGrows(t, pPcb, lookup, s.names);
      scheduler.view := s.(pcbs := s.pcbs + [pPcb.Image()], loaded := s.loaded + 1, names := s.names[filePath := pPcb.id]);
    }

    // The block, the marks and the place in the new queue of a program whose bytes are in memory.
    method Install(image: Image, filePath: string, ghost s: State)
      requires scheduler.Valid() && scheduler.machine == machine && loader.machine == machine
      requires loader.currentIdCount == s.loaded && Proper(image) && LoadCode(s, image) == 0
      requires scheduler.view == s.(mem := Written(s.mem, image))
      modifies loader`currentIdCount, scheduler, machine.ram`table, machine.ram`lookup, machine.ram.mem
      ensures scheduler.Valid() && scheduler.view == LoadProgram(s, filePath, image)
      ensures loader.currentIdCount == s.loaded + 1 && scheduler.semaphoreTable == old(scheduler.semaphoreTable)
      ensures |machine.ram.table| == |old(machine.ram.table)| + 1 && old(machine.ram.table) < machine.ram.table
      ensures fresh(machine.ram.table[|old(machine.ram.table)|])
    {
      hide *;
      LoadedInArray(s, image);
      LoadSteps(s, filePath, image);
      var pPcb := NewPcb(image, filePath);
      MarkLoaded(pPcb);
      scheduler.QueuePcb(pPcb, New);
    }

    // The loader's code is reported as 0 or 1, and kept in the error list when it is not 0.
    method KernelLoadProgram(filePath: string, disk: Disk) returns (code: int)
      requires Valid() && (filePath in disk ==> Proper(disk[filePath]))
      modifies loader`currentIdCount, errorHandler`errorList, scheduler, machine.ram`table, machine.ram`lookup, machine.ram.mem
      ensures Valid() && scheduler.view == LoadFile(old(scheduler.view), disk, filePath)
      ensures fresh(scheduler.Parts() - old(scheduler.Parts()))
      ensures var c := FileCode(old(scheduler.view), disk, filePath);
              && code == (if c == 0 then 0 else 1)
              && errorHandler.errorList == old(errorHandler.errorList) + if c == 0 then [] else [c]
    {
      hide Scheduler.Valid;
      hide Scheduler.Parts;
      hide Sound;
      hide LoadFile;
      hide FileCode;
      hide Proper;
      LoadFileKeeps(disk, scheduler.view, filePath);
      LoadedCount(disk, scheduler.view, filePath);
      var returnCode := LoadOrRefuse(filePath, disk);
      errorHandler.errorList := errorHandler.errorList + if returnCode == 0 then [] else [returnCode];
      code := if returnCode == 0 then 0 else 1;
    }

    method LoadOrRefuse(filePath: string, disk: Disk) returns (returnCode: int)
      requires scheduler.Valid() && scheduler.machine == machine && loader.machine == machine
      requires loader.currentIdCount == scheduler.view.loaded && (filePath in disk ==> Proper(disk[filePath]))
      modifies loader`currentIdCount, scheduler, machine.ram`table, machine.ram`lookup, machine.ram.mem
      ensures scheduler.Valid() && scheduler.view == LoadFile(old(scheduler.view), disk, filePath)
      ensures returnCode == FileCode(old(scheduler.view), disk, filePath)
      ensures loader.currentIdCount == old(loader.currentIdCount) + if returnCode == 0 then 1 else 0
      ensures fresh(scheduler.Parts() - old(scheduler.Parts()))
    {
      ghost var s := scheduler.view;
      hide Scheduler.Valid;
      hide Proper;
      hide LoadProgram;
      hide LoadCode;
      hide Written;
      var file := if filePath in disk then Some(disk[filePath]) else None;
      returnCode := ReadProgram(file);
      if returnCode == 0 {
        Install(file.value, filePath, s);
      } else {
        NotLoaded(disk, s, filePath);
      }
    }

    // ---------- semaphores and shared memory ----------

    method SetSemaphore(process: Pcb, id: nat)
      requires scheduler.Valid() && scheduler.Known(process)
      modifies scheduler`view, process`semId
      ensures scheduler.Valid()
      ensures var s := old(scheduler.view);
              scheduler.view == Put(s, process.id, Get(s, process.id).(semId := id))
    {
      hide QueueIs;
      hide Scheduler.MachineIs;
      hide PcbsAre;
      hide OthersAre;
      hide SegmentsAre;
      hide SemaphoresAre;
      hide LookupIs;
      scheduler.WithoutOne(process, scheduler.view.pcbs);
      process.semId := id;
      scheduler.WithOne(process, scheduler.view.pcbs, process.Image());
      scheduler.view := Put(scheduler.view, process.id, Get(scheduler.view, process.id).(semId := id));
    }

    lemma FoundPcb(name: string)
      requires scheduler.Valid() && scheduler.machine == machine
      ensures name in machine.ram.lookup <==> name in scheduler.view.names
      ensures name in machine.ram.lookup ==>
                var p := machine.ram.lookup[name];
                p.id == scheduler.view.names[name] && scheduler.Known(p) && p in machine.ram.table
    {
    }

    // getPcb, as the specification's Lookup answers it: the block with the handle found, or none.
    method FindPcb(name: string) returns (pcb: Pcb?)
      requires scheduler.Valid() && scheduler.machine == machine
      ensures match Lookup(scheduler.view, name)
              case None => pcb == null
              case Some(h) => pcb != null && pcb.id == h && scheduler.Known(pcb) && pcb in machine.ram.table
    {
      hide Scheduler.Valid;
      FoundPcb(name);
      pcb := machine.ram.GetPcb(name);
    }

    // Both processes get the semaphore, if both are found.
    method ShareSemaphore(id: nat, one: string, two: string) returns (found: bool)
      requires scheduler.Valid() && scheduler.machine == machine
      modifies scheduler`view, machine.ram.table
      ensures scheduler.Valid() && scheduler.view == WithSemaphore(old(scheduler.view), id, one, two)
      ensures found <==> one in old(scheduler.view).names && two in old(scheduler.view).names
    {
      hide Scheduler.Valid;
      hide Put;
      hide Get;
      var processOne := FindPcb(one);
      var processTwo := FindPcb(two);
      found := processOne != null && processTwo != null;
      if found {
        SetSemaphore(processOne, id);
        SetSemaphore(processTwo, id);
      }
    }

    method KernelInitSemaphore(value: int, filePathOne: string, filePathTwo: string) returns (code: int)
      requires Valid()
      modifies scheduler, errorHandler`errorList, machine.ram.table
      ensures Valid() && scheduler.view == InitSemaphore(old(scheduler.view), value, filePathOne, filePathTwo)
      ensures fresh(scheduler.Parts() - old(scheduler.Parts()))
      ensures code == (if filePathOne in old(scheduler.view).names && filePathTwo in old(scheduler.view).names then 0 else -1)
      ensures errorHandler.errorList == old(errorHandler.errorList) + if code == 0 then [] else [302]
    {
      hide Scheduler.Valid;
      hide Sound;
      hide InitSemaphore;
      hide WithSemaphore;
      InitSound(scheduler.view, value, filePathOne, filePathTwo);
      SemaphoreSteps(scheduler.view, value, filePathOne, filePathTwo);
      var newSemId := scheduler.InitSemaphore(value);
      var found := ShareSemaphore(newSemId, filePathOne, filePathTwo);
      code := if found then 0 else -1;
      errorHandler.errorList := errorHandler.errorList + if found then [] else [302];
    }

    // openSharedMemory on the first process.
    method OpenSegment(process: Pcb, size: int, address: int) returns (newSharedMemory: Shm)
      requires scheduler.Valid() && scheduler.machine == machine && scheduler.Known(process)
      modifies scheduler`view, process`sharedMemory, machine.ram`segments
      ensures scheduler.Valid() && scheduler.Known(process) && fresh(newSharedMemory)
      ensures machine.ram.segments == old(machine.ram.segments) + [newSharedMemory]
      ensures newSharedMemory.id == |old(machine.ram.segments)| == |old(scheduler.view).segments|
      ensures scheduler.view == WithSegment(old(scheduler.view), process.id, size, address)
    {
      hide QueueIs;
      hide Scheduler.MachineIs;
      hide PcbsAre;
      hide OthersAre;
      hide SemaphoresAre;
      hide LookupIs;
      ghost var s, t, g := scheduler.view, machine.ram.table, machine.ram.segments;
      scheduler.WithoutOne(process, s.pcbs);
      newSharedMemory := process.OpenSharedMemory(|g|, size, address);
      OthersKept(t, g, newSharedMemory, process, s.pcbs);
      machine.ram.segments := g + [newSharedMemory];
      scheduler.WithOne(process, s.pcbs, process.Image());
      scheduler.view := WithSegment(s, process.id, size, address);
    }

    // linkSharedMemory on the second one.
    method LinkSegment(process: Pcb, sharedMemory: Shm)
      requires scheduler.Valid() && scheduler.machine == machine && scheduler.Known(process)
      requires sharedMemory.id < |machine.ram.segments| && machine.ram.segments[sharedMemory.id] == sharedMemory
      modifies scheduler`view, process`sharedMemory, sharedMemory`sLinkedPrcCount
      ensures scheduler.Valid() && scheduler.view == WithLink(old(scheduler.view), process.id, sharedMemory.id)
    {
      hide QueueIs;
      hide Scheduler.MachineIs;
      hide PcbsAre;
      hide OthersAre;
      hide SemaphoresAre;
      hide LookupIs;
      scheduler.WithoutOne(process, scheduler.view.pcbs);
      process.LinkSharedMemory(sharedMemory);
      scheduler.WithOne(process, scheduler.view.pcbs, process.Image());
      scheduler.view := WithLink(scheduler.view, process.id, sharedMemory.id);
    }

    method Allocate(size: int) returns (address: nat)
      requires scheduler.Valid() && scheduler.machine == machine && loader.machine == machine
      requires RoomFor(scheduler.view, size)
      modifies scheduler`view, machine.ram.mem
      ensures scheduler.Valid() && FirstFit(old(scheduler.view).mem, 6 * size, 0) == Some(address)
      ensures var s := old(scheduler.view);
              scheduler.view == s.(mem := SetMarks(s.mem, address, address + 6 * size, true))
    {
      hide QueueIs;
      hide PcbsAre;
      hide SegmentsAre;
      hide SemaphoresAre;
      hide LookupIs;
      address := loader.AllocateSharedMemory(size);
      scheduler.view := scheduler.view.(mem := SetMarks(scheduler.view.mem, address, address + 6 * size, true));
    }

    // A new segment, linked to both processes.
    method Connect(processOne: Pcb, processTwo: Pcb, size: int) returns (address: nat, newSharedMemory: Shm)
      requires scheduler.Valid() && scheduler.machine == machine && loader.machine == machine
      requires scheduler.Known(processOne) && scheduler.Known(processTwo) && RoomFor(scheduler.view, size)
      modifies scheduler`view, processOne`sharedMemory, processTwo`sharedMemory, machine.ram`segments, machine.ram.mem
      ensures scheduler.Valid() && fresh(newSharedMemory)
      ensures machine.ram.segments == old(machine.ram.segments) + [newSharedMemory]
      ensures scheduler.view == Share(old(scheduler.view), processOne.id, processTwo.id, size)
      ensures FirstFit(old(scheduler.view).mem, 6 * size, 0) == Some(address)
    {
      hide *;
      ShareSteps(scheduler.view, processOne.id, processTwo.id, size);
      address := Allocate(size);
      newSharedMemory := OpenSegment(processOne, size * 6, address);
      LinkSegment(processTwo, newSharedMemory);
    }

    // Each process gives up the segment it had; then both get the new one.
    method Reconnect(processOne: Pcb, processTwo: Pcb, size: int) returns (address: nat, newSharedMemory: Shm)
      requires scheduler.Valid() && scheduler.machine == machine && loader.machine == machine
      requires scheduler.Known(processOne) && scheduler.Known(processTwo)
      requires ConnectDefined(scheduler.view, processOne.id, processTwo.id, size)
      modifies scheduler`view, processOne`sharedMemory, processTwo`sharedMemory
      modifies machine.ram.segments, machine.ram`segments, machine.ram.mem
      ensures scheduler.Valid() && fresh(newSharedMemory)
      ensures machine.ram.segments == old(machine.ram.segments) + [newSharedMemory]
      ensures var t := Unlink(Unlink(old(scheduler.view), processOne.id), processTwo.id);
              && scheduler.view == Share(t, processOne.id, processTwo.id, size)
              && FirstFit(t.mem, 6 * size, 0) == Some(address)
    {
      hide Scheduler.Valid;
      hide Unlink;
      hide UnlinkDefined;
      hide Share;
      hide FirstFit;
      hide RoomFor;
      scheduler.DeallocateShMemory(processOne);
      scheduler.DeallocateShMemory(processTwo);
      address, newSharedMemory := Connect(processOne, processTwo, size);
    }

    method OpenNamed(size: int, one: string, two: string) returns (address: Option<nat>, ghost more: seq<Shm>)
      requires scheduler.Valid() && scheduler.machine == machine && loader.machine == machine
      requires OpenDefined(scheduler.view, size, one, two)
      modifies scheduler`view, machine.ram.table, machine.ram.segments, machine.ram`segments, machine.ram.mem
      ensures scheduler.Valid() && scheduler.view == OpenShared(old(scheduler.view), size, one, two)
      ensures machine.ram.segments == old(machine.ram.segments) + more && fresh(set g | g in more)
      ensures var s := old(scheduler.view);
              if one in s.names && two in s.names
              then FirstFit(Unlink(Unlink(s, s.names[one]), s.names[two]).mem, 6 * size, 0) == address && address.Some?
              else address.None?
    {
      hide *;
      OpenSteps(scheduler.view, size, one, two);
      LookupNames(scheduler.view, one);
      LookupNames(scheduler.view, two);
      var processOne := FindPcb(one);
      var processTwo := FindPcb(two);
      address, more := None, [];
      if processOne != null && processTwo != null {
        var at, newSharedMemory := Reconnect(processOne, processTwo, size);
        address, more := Some(at), [newSharedMemory];
      }
    }

    // The address of the new segment, or -1 when a process is not found.
    method KernelOpenSharedMemory(size: int, pOne: string, pTwo: string) returns (address: int)
      requires Valid() && OpenDefined(scheduler.view, size, pOne, pTwo)
      modifies scheduler`view, errorHandler`errorList
      modifies machine.ram.table, machine.ram.segments, machine.ram`segments, machine.ram.mem
      ensures Valid() && scheduler.view == OpenShared(old(scheduler.view), size, pOne, pTwo)
      ensures fresh(scheduler.Parts() - old(scheduler.Parts()))
      ensures var s := old(scheduler.view);
              if pOne in s.names && pTwo in s.names
              then FirstFit(Unlink(Unlink(s, s.names[pOne]), s.names[pTwo]).mem, 6 * size, 0) == Some(address)
              else address == -1
      ensures errorHandler.errorList == old(errorHandler.errorList) + if address >= 0 then [] else [302]
    {
      OpenSound(scheduler.view, size, pOne, pTwo);
      hide Scheduler.Valid;
      hide Sound;
      hide OpenDefined;
      hide ConnectDefined;
      hide OpenShared;
      hide Share;
      hide Unlink;
      hide FirstFit;
      ghost var more: seq<Shm>;
      var at: Option<nat>;
      at, more := OpenNamed(size, pOne, pTwo);
      address := if at.Some? then at.value else -1;
      errorHandler.errorList := errorHandler.errorList + if at.Some? then [] else [302];
    }

    // ---------- running ----------

    method CallScheduler(ghost p: Policy)
      requires p == PolicyOf() && schedulerAlgo in {FCFS, RR, MLFQ} && Quanta(p)
      requires scheduler.Valid() && Sound(scheduler.view) && StepDefined(p, scheduler.view)
      modifies scheduler.Parts()
      ensures scheduler.Valid() && scheduler.view == Step(p, old(scheduler.view))
      ensures fresh(scheduler.Parts() - old(scheduler.Parts()))
    {
      hide Scheduler.Valid;
      hide Scheduler.Parts;
      hide Sound;
      hide Step;
      hide StepDefined;
      if schedulerAlgo == FCFS {
        var _ := scheduler.FirstComeFirstServe();
      } else if schedulerAlgo == RR {
        var _ := scheduler.RoundRobin(schedulerQuantum);
      } else {
        var _ := scheduler.MultiLevelFeedbackQueue(schedulerQuantum, mlfqRatio);
      }
    }

    // The objects a call may change are not the kernel's own.
    lemma Apart()
      ensures this !in scheduler.Parts() && loader !in scheduler.Parts() && errorHandler !in scheduler.Parts()
      ensures scheduler in scheduler.Parts()
      ensures scheduler.machine == machine ==> machine.ram in scheduler.Parts() && machine.ram.mem in scheduler.Parts()
    {
    }

    // One log has been added, of the processes that had terminated in `s`; none if there were none.
    ghost predicate NewLog(logs: seq<ProcessLog>, s: State)
      reads errorHandler`cpuLogs, errorHandler.cpuLogs, scheduler.machine.ram`table
    {
      if s.terminated == [] then errorHandler.cpuLogs == logs
      else
        && |errorHandler.cpuLogs| == |logs| + 1 && errorHandler.cpuLogs[..|logs|] == logs
        && LogIs(errorHandler.cpuLogs[|logs|], scheduler.machine.ram.table, s, |s.terminated|)
    }

    // Logs the terminated processes, if there are any.
    method LogFinished()
      requires scheduler.Valid()
      modifies scheduler, errorHandler`cpuLogs, errorHandler`cpuLogCount
      ensures scheduler.Valid() && scheduler.view == Drain(old(scheduler.view))
      ensures scheduler.Parts() == old(scheduler.Parts())
      ensures NewLog(old(errorHandler.cpuLogs), old(scheduler.view))
    {
      scheduler.TerminatedLength();
      hide Scheduler.Valid;
      NothingToDrain(scheduler.view);
      if scheduler.terminatedQueue != [] {
        errorHandler.LogTerminatedProcesses(scheduler, schedulerAlgo, schedulerQuantum, mlfqRatio);
      }
    }

    lemma ClockIs()
      requires Valid()
      ensures machine.clock == scheduler.view.clock && Sound(scheduler.view)
    {
    }

    // The kernel has come to session `z` while loading the programs that are due in session
    // `z0`; what calls may change lies in `repr`.
    ghost predicate Reached(disk: Disk, start: int, z0: Session, z: Session, codes: Multimap<string>, base: seq<int>, repr: set<object>)
      reads this, loader, errorHandler`errorList, scheduler, machine, machine.Reg, machine.ram, machine.ram.mem
      reads machine.ram.table, machine.ram.segments, scheduler.machine, scheduler.machine.Reg, scheduler.machine.ram
      reads scheduler.machine.ram.mem, scheduler.machine.ram.table, scheduler.machine.ram.segments, scheduler.semaphoreTable
    {
      && Valid() && AllProper(disk) && z.state == scheduler.view && codes == Codes(z.loads)
      && LoadDue(disk, start, z) == LoadDue(disk, start, z0) && scheduler.Parts() <= repr
      && errorHandler.errorList == base + Errors(z.loads)
    }

    method LeftOver() returns (over: bool)
      requires Valid()
      ensures over == AllEmpty(scheduler.view)
    {
      over := scheduler.AllQueuesEmpty();
    }

    // Loads the next listed program.
    method LoadListed(l: Listed, disk: Disk, clockImage: int, codes: Multimap<string>,
                      ghost z0: Session, ghost z: Session, ghost base: seq<int>, ghost repr: set<object>)
      returns (returnMap: Multimap<string>, ghost d: Session, ghost now: set<object>)
      requires Reached(disk, clockImage, z0, z, codes, base, repr) && z.todo != [] && z.todo[0] == l
      requires l.time + clockImage <= machine.clock
      modifies loader`currentIdCount, errorHandler`errorList, scheduler, machine.ram`table, machine.ram`lookup, machine.ram.mem
      ensures Reached(disk, clockImage, z0, d, returnMap, base, now) && d.todo == z.todo[1..]
      ensures repr <= now && fresh(now - repr)
    {
      ClockIs();
      CodesNext(disk, z);
      DueNext(disk, clockImage, z);
      d := LoadNext(disk, z);
      hide Valid;
      hide Codes;
      hide LoadNext;
      hide LoadDue;
      hide AllProper;
      hide Scheduler.Parts;
      ghost var parts := scheduler.Parts();
      var returnCode := LoadAllowed(l.name, disk);
      returnMap := Insert(codes, returnCode, l.name);
      now := repr + (scheduler.Parts() - parts);
    }

    method LoadAllowed(name: string, disk: Disk) returns (returnCode: int)
      requires Valid() && AllProper(disk)
      modifies loader`currentIdCount, errorHandler`errorList, scheduler, machine.ram`table, machine.ram`lookup, machine.ram.mem
      ensures Valid() && scheduler.view == LoadFile(old(scheduler.view), disk, name)
      ensures var c := FileCode(old(scheduler.view), disk, name);
              && returnCode == (if c == 0 then 0 else 1)
              && errorHandler.errorList == old(errorHandler.errorList) + if c == 0 then [] else [c]
      ensures fresh(scheduler.Parts() - old(scheduler.Parts()))
    {
      hide Valid;
      hide Proper;
      hide Scheduler.Parts;
      returnCode := KernelLoadProgram(name, disk);
    }

    // Loads the programs listed for the first arrival time, and takes them off the list.
    method LoadGroup(listed: seq<Listed>, disk: Disk, clockImage: int, codes: Multimap<string>,
                     ghost z0: Session, ghost z: Session, ghost base: seq<int>, ghost repr: set<object>)
      returns (argMap: seq<Listed>, returnMap: Multimap<string>, ghost d: Session, ghost now: set<object>)
      requires Reached(disk, clockImage, z0, z, codes, base, repr) && z.todo == listed
      requires listed != [] && listed[0].time + clockImage <= machine.clock
      modifies loader`currentIdCount, errorHandler`errorList, scheduler, machine.ram`table, machine.ram`lookup, machine.ram.mem
      ensures Reached(disk, clockImage, z0, d, returnMap, base, now) && d.todo == argMap && |argMap| < |listed|
      ensures repr <= now && fresh(now - repr)
    {
      hide *;
      var arrival := listed[0].time;
      returnMap, d, now := codes, z, repr;
      var i := 0;
      while i < |listed| && listed[i].time == arrival
        invariant 0 <= i <= |listed| && (i == 0 ==> listed[0].time == arrival)
        invariant Reached(disk, clockImage, z0, d, returnMap, base, now) && d.todo == listed[i..]
        invariant arrival + clockImage <= machine.clock && repr <= now && fresh(now - repr)
      {
        returnMap, d, now := LoadListed(listed[i], disk, clockImage, returnMap, z0, d, base, now);
        i := i + 1;
      }
      argMap := listed[i..];
    }

    // Drains all programs whose arrival time has been reached, one arrival time after another.
    method LoadReached(listed: seq<Listed>, disk: Disk, clockImage: int, codes: Multimap<string>,
                       ghost z: Session, ghost base: seq<int>, ghost repr: set<object>)
      returns (argMap: seq<Listed>, returnMap: Multimap<string>, ghost d: Session, ghost now: set<object>)
      requires Reached(disk, clockImage, z, z, codes, base, repr) && z.todo == listed
      modifies loader`currentIdCount, errorHandler`errorList, scheduler, machine.ram`table, machine.ram`lookup, machine.ram.mem
      ensures Reached(disk, clockImage, z, d, returnMap, base, now) && d == LoadDue(disk, clockImage, z) && d.todo == argMap
      ensures repr <= now && fresh(now - repr)
    {
      hide *;
      argMap, returnMap, d, now := listed, codes, z, repr;
      while argMap != [] && argMap[0].time + clockImage <= machine.clock
        invariant Reached(disk, clockImage, z, d, returnMap, base, now) && d.todo == argMap
        invariant repr <= now && fresh(now - repr)
        decreases |argMap|
      {
        argMap, returnMap, d, now := LoadGroup(argMap, disk, clockImage, returnMap, z, d, base, now);
      }
      NoneDue(disk, clockImage, z, d, returnMap, base, now);
    }

    lemma NoneDue(disk: Disk, start: int, z0: Session, z: Session, codes: Multimap<string>, base: seq<int>, repr: set<object>)
      requires Reached(disk, start, z0, z, codes, base, repr)
      requires z.todo == [] || z.todo[0].time + start > machine.clock
      ensures z == LoadDue(disk, start, z0)
    {
      ClockIs();
    }

    // The kernel is running `plan`, has made `n` rounds and is at `z`.
    ghost predicate Running(plan: Plan, n: nat, z: Session, codes: Multimap<string>, base: seq<int>, repr: set<object>)
      reads this, loader, errorHandler`errorList, scheduler, machine, machine.Reg, machine.ram, machine.ram.mem
      reads machine.ram.table, machine.ram.segments, scheduler.machine, scheduler.machine.Reg, scheduler.machine.ram
      reads scheduler.machine.ram.mem, scheduler.machine.ram.table, scheduler.machine.ram.segments, scheduler.semaphoreTable
    {
      && Valid() && plan.policy == PolicyOf() && At(plan, n, z) && z.state == scheduler.view && codes == Codes(z.loads)
      && scheduler.Parts() <= repr && errorHandler.errorList == base + Errors(z.loads)
    }

    lemma RunningFacts(plan: Plan, n: nat, z: Session, codes: Multimap<string>, base: seq<int>, repr: set<object>)
      requires Running(plan, n, z, codes, base, repr)
      ensures Valid() && plan.policy == PolicyOf() && Reached(plan.disk, plan.start, z, z, codes, base, repr) && At(plan, n, z)
      ensures Over(z) <==> z.todo == [] && AllEmpty(scheduler.view)
      ensures loader !in scheduler.Parts() && errorHandler !in scheduler.Parts() && this !in scheduler.Parts()
      ensures {scheduler, machine.ram, machine.ram.mem} <= repr
    {
      Apart();
    }

    // One call of the scheduler.
    method OneCall(ghost plan: Plan, ghost n: nat, ghost d: Session, ghost r: Session,
                   ghost codes: Multimap<string>, ghost base: seq<int>, ghost repr: set<object>)
      returns (over: bool, ghost now: set<object>)
      requires Valid() && plan.policy == PolicyOf() && d.state == scheduler.view && codes == Codes(d.loads)
      requires Quanta(plan.policy) && StepDefined(plan.policy, d.state) && scheduler.Parts() <= repr
      requires At(plan, n, r) && r.state == Step(plan.policy, d.state) && r.loads == d.loads
      requires errorHandler.errorList == base + Errors(d.loads)
      modifies scheduler.Parts()
      ensures Running(plan, n, r, codes, base, now) && over == AllEmpty(scheduler.view)
      ensures repr <= now && fresh(now - repr)
    {
      Apart();
      StepSound(plan.policy, scheduler.view);
      hide Scheduler.Valid;
      hide Scheduler.Parts;
      hide Sound;
      hide Step;
      hide StepDefined;
      hide At;
      hide AllEmpty;
      hide Codes;
      ghost var parts := scheduler.Parts();
      over := CallAndTest(plan.policy);
      now := repr + (scheduler.Parts() - parts);
    }

    method CallAndTest(ghost p: Policy) returns (over: bool)
      requires p == PolicyOf() && schedulerAlgo in {FCFS, RR, MLFQ} && Quanta(p)
      requires scheduler.Valid() && Sound(scheduler.view) && StepDefined(p, scheduler.view)
      modifies scheduler.Parts()
      ensures scheduler.Valid() && scheduler.view == Step(p, old(scheduler.view)) && over == AllEmpty(scheduler.view)
      ensures fresh(scheduler.Parts() - old(scheduler.Parts()))
    {
      hide Scheduler.Valid;
      hide Sound;
      hide Step;
      hide StepDefined;
      hide AllEmpty;
      CallScheduler(p);
      over := scheduler.AllQueuesEmpty();
    }

    // The loop of kernelRun.
    method RunLoop(ghost plan: Plan, ghost base: seq<int>, ghost repr: set<object>) returns (ghost n: nat, ghost z: Session, ghost now: set<object>)
      requires Running(plan, 0, plan.first, [], base, repr) && plan.first.todo == [] && plan.first.loads == []
      modifies repr
      ensures Running(plan, n, z, [], base, now) && Over(z) && z.todo == []
      ensures repr <= now && fresh(now - repr)
    {
      hide *;
      n, z, now := 0, plan.first, repr;
      RunningFacts(plan, n, z, [], base, now);
      var over := LeftOver();
      while !over
        invariant Running(plan, n, z, [], base, now) && z.todo == [] && z.loads == [] && over == AllEmpty(scheduler.view)
        invariant repr <= now && fresh(now - repr)
        decreases BudgetOf(plan, z)
      {
        over, z, now := RunRound(plan, n, z, base, now);
        n := n + 1;
      }
      RunningFacts(plan, n, z, [], base, now);
    }

    method RunRound(ghost plan: Plan, ghost n: nat, ghost z: Session, ghost base: seq<int>, ghost repr: set<object>)
      returns (over: bool, ghost r: Session, ghost now: set<object>)
      requires Running(plan, n, z, [], base, repr) && z.todo == [] && z.loads == [] && !AllEmpty(scheduler.view)
      modifies repr
      ensures Running(plan, n + 1, r, [], base, now) && r.todo == [] && r.loads == [] && over == AllEmpty(scheduler.view)
      ensures 0 <= BudgetOf(plan, r) < BudgetOf(plan, z) && repr <= now && fresh(now - repr)
    {
      AtNext(plan, n, z);
      r := Round(plan.policy, plan.disk, plan.start, z);
      assert LoadDue(plan.disk, plan.start, z) == z;
      hide LoadDue;
      hide Valid;
      hide Scheduler.Parts;
      hide At;
      hide After;
      hide AllEmpty;
      hide BudgetOf;
      hide Round;
      hide Step;
      hide StepDefined;
      over, now := OneCall(plan, n + 1, z, r, [], base, repr);
    }

    // Loads what is due, makes one call, and asks whether anything is left to run.
    method OneRound(listed: seq<Listed>, codes: Multimap<string>, disk: Disk, clockImage: int,
                    ghost plan: Plan, ghost n: nat, ghost z: Session, ghost base: seq<int>, ghost repr: set<object>)
      returns (argMap: seq<Listed>, returnMap: Multimap<string>, over: bool, ghost r: Session, ghost now: set<object>)
      requires Running(plan, n, z, codes, base, repr) && z.todo == listed && !Over(z) && plan.disk == disk && plan.start == clockImage
      requires loader !in repr && errorHandler !in repr
      modifies repr, loader`currentIdCount, errorHandler`errorList
      ensures Running(plan, n + 1, r, returnMap, base, now) && r.todo == argMap && over == AllEmpty(scheduler.view)
      ensures 0 <= BudgetOf(plan, r) < BudgetOf(plan, z) && repr <= now && fresh(now - repr)
    {
      hide Valid;
      hide Scheduler.Valid;
      hide Scheduler.Parts;
      hide Running;
      hide Reached;
      hide At;
      hide After;
      hide Over;
      hide AllEmpty;
      hide BudgetOf;
      hide Round;
      hide LoadDue;
      hide Step;
      hide StepDefined;
      hide Codes;
      hide Quanta;
      hide Sound;
      RunningFacts(plan, n, z, codes, base, repr);
      AtNext(plan, n, z);
      r := Round(plan.policy, disk, clockImage, z);
      ghost var d, between;
      argMap, returnMap, d, between := LoadReached(listed, disk, clockImage, codes, z, base, repr);
      DueReached(disk, clockImage, z, d, returnMap, base, between);
      over, now := OneCall(plan, n + 1, d, r, returnMap, base, between);
    }

    lemma DueReached(disk: Disk, start: int, z0: Session, z: Session, codes: Multimap<string>, base: seq<int>, repr: set<object>)
      requires Reached(disk, start, z0, z, codes, base, repr)
      ensures Valid() && z.state == scheduler.view && codes == Codes(z.loads) && scheduler.Parts() <= repr
      ensures errorHandler.errorList == base + Errors(z.loads)
    {
    }

    // The outer loop of kernelExecuteProgram.
    method ExecuteLoop(listed: seq<Listed>, disk: Disk, clockImage: int, ghost plan: Plan, ghost base: seq<int>, ghost repr: set<object>)
      returns (returnMap: Multimap<string>, ghost n: nat, ghost z: Session, ghost now: set<object>)
      requires Running(plan, 0, plan.first, [], base, repr) && plan.first.todo == listed
      requires plan.disk == disk && plan.start == clockImage && loader !in repr && errorHandler !in repr
      modifies repr, loader`currentIdCount, errorHandler`errorList
      ensures Running(plan, n, z, returnMap, base, now) && Over(z) && repr <= now && fresh(now - repr)
    {
      hide *;
      n, z, now, returnMap := 0, plan.first, repr, [];
      var argMap := listed;
      RunningFacts(plan, n, z, returnMap, base, now);
      var over := LeftOver();
      while argMap != [] || !over
        invariant Running(plan, n, z, returnMap, base, now) && z.todo == argMap && over == AllEmpty(scheduler.view)
        invariant repr <= now && fresh(now - repr)
        decreases BudgetOf(plan, z)
      {
        RunningFacts(plan, n, z, returnMap, base, now);
        argMap, returnMap, over, z, now := OneRound(argMap, returnMap, disk, clockImage, plan, n, z, base, now);
        n := n + 1;
      }
      RunningFacts(plan, n, z, returnMap, base, now);
    }

    lemma Begin(plan: Plan, base: seq<int>)
      requires Valid() && plan.policy == PolicyOf() && Planned(plan)
      requires plan.first.state == scheduler.view && plan.first.loads == [] && base == errorHandler.errorList
      ensures Running(plan, 0, plan.first, [], base, scheduler.Parts()) && machine.clock == scheduler.view.clock
      ensures loader !in scheduler.Parts() && errorHandler !in scheduler.Parts() && scheduler in scheduler.Parts()
    {
      Start(plan);
      Apart();
    }

    lemma End(plan: Plan, n: nat, z: Session, codes: Multimap<string>, base: seq<int>, repr: set<object>)
      requires Running(plan, n, z, codes, base, repr)
      ensures Valid() && At(plan, n, z) && z == After(plan, n) && z.state == scheduler.view && codes == Codes(z.loads)
      ensures scheduler.Parts() <= repr && errorHandler.errorList == base + Errors(z.loads)
      ensures forall k: nat :: k < n ==> !Over(After(plan, k))
    {
    }

    method LogAndStayValid()
      requires Valid()
      modifies scheduler, errorHandler`cpuLogs, errorHandler`cpuLogCount
      ensures Valid() && scheduler.view == Drain(old(scheduler.view)) && scheduler.Parts() == old(scheduler.Parts())
      ensures NewLog(old(errorHandler.cpuLogs), old(scheduler.view))
    {
      DrainSound(scheduler.view);
      hide Scheduler.Valid;
      hide Sound;
      hide Scheduler.Parts;
      hide NewLog;
      LogFinished();
    }

    // Calls the scheduler until every queue is empty, then logs the processes that terminated.
    // It ends when the run is bounded: boundedly many processes of boundedly many instructions.
    method KernelRun(ghost most: nat, ghost b: nat) returns (ghost n: nat)
      requires Valid() && Planned(RunPlan(PolicyOf(), scheduler.view, most, b))
      modifies scheduler.Parts(), errorHandler`cpuLogs, errorHandler`cpuLogCount
      ensures Valid() && fresh(scheduler.Parts() - old(scheduler.Parts()))
      ensures var p, s := old(PolicyOf()), old(scheduler.view);
              var t := Run(s, Calls(p, n));
              && scheduler.view == Drain(t) && AllEmpty(t)
              && NewLog(old(errorHandler.cpuLogs), t)
              && forall k: nat :: k < n ==> !AllEmpty(Run(s, Calls(p, k)))
    {
      hide *;
      ghost var p, s, repr := PolicyOf(), scheduler.view, scheduler.Parts();
      ghost var base := errorHandler.errorList;
      ghost var plan := RunPlan(p, s, most, b);
      Prologue(plan, p, s, most, b);
      Begin(plan, base);
      ghost var z, now;
      n, z, now := RunLoop(plan, base, repr);
      End(plan, n, z, [], base, now);
      RunEnd(p, s, most, b, n, z);
      LogAndStayValid();
    }

    // Whatever led from power-on to here: the log a session leaves can be drawn, one entry per
    // instruction of the processes that terminated in it.
    lemma LogOfRunDrawn(es: seq<Event>, logs: seq<ProcessLog>)
      requires Valid() && scheduler.view == Drain(Run(Boot(), es)) && NewLog(logs, Run(Boot(), es))
      requires Run(Boot(), es).terminated != []
      ensures |errorHandler.cpuLogs| == |logs| + 1
      ensures var log := errorHandler.cpuLogs[|logs|];
              var ps := Blocks(Values(log.processMap));
              && Drawable(log.ganntChart, Earliest(ps), Latest(ps))
              && |log.ganntChart| == Timekeeping.TotalSlices(ps)
    {
      hide Run;
      hide Scheduler.Valid;
      LogDrawn(scheduler, errorHandler.cpuLogs[|logs|], es);
    }

    // The state in which KernelRun leaves a kernel that some run from power-on had brought about.
    lemma RunDrawn(before: seq<Event>, p: Policy, n: nat, logs: seq<ProcessLog>)
      requires var t := Run(Run(Boot(), before), Calls(p, n));
               Valid() && scheduler.view == Drain(t) && NewLog(logs, t) && t.terminated != []
      ensures |errorHandler.cpuLogs| == |logs| + 1
      ensures var log := errorHandler.cpuLogs[|logs|];
              var ps := Blocks(Values(log.processMap));
              Drawable(log.ganntChart, Earliest(ps), Latest(ps)) && |log.ganntChart| == Timekeeping.TotalSlices(ps)
    {
      hide *;
      RunAppend(Boot(), before, Calls(p, n));
      LogOfRunDrawn(before + Calls(p, n), logs);
    }

    // The same for KernelExecuteProgram.
    lemma ExecuteDrawn(before: seq<Event>, plan: Plan, n: nat, logs: seq<ProcessLog>)
      requires plan.first.state == Run(Boot(), before)
      requires var t := After(plan, n).state;
               Valid() && scheduler.view == Drain(t) && NewLog(logs, t) && t.terminated != []
      ensures |errorHandler.cpuLogs| == |logs| + 1
      ensures var log := errorHandler.cpuLogs[|logs|];
              var ps := Blocks(Values(log.processMap));
              Drawable(log.ganntChart, Earliest(ps), Latest(ps)) && |log.ganntChart| == Timekeeping.TotalSlices(ps)
    {
      var es := EventsOf(plan.policy, plan.disk, plan.start, plan.first, n);
      RoundsRun(plan.policy, plan.disk, plan.start, plan.first, n);
      RunAppend(Boot(), before, es);
      assert After(plan, n).state == Run(Boot(), before + es);
      hide *;
      LogOfRunDrawn(before + es, logs);
    }

    lemma Prologue(plan: Plan, p: Policy, s: State, most: nat, b: nat)
      requires Valid() && plan == RunPlan(p, s, most, b) && s == scheduler.view
      ensures plan.policy == p && plan.first.state == s && plan.first.todo == [] && plan.first.loads == [] && Sound(s)
    {
    }

    // Loads the listed programs, each when its time has come, and calls the scheduler until
    // nothing is left to load or run; then logs the processes that terminated.
    method KernelExecuteProgram(listed: seq<Listed>, disk: Disk, ghost most: nat, ghost b: nat)
      returns (returnMap: Multimap<string>, ghost n: nat)
      requires Valid()
      requires var s := scheduler.view; Planned(Plan(PolicyOf(), disk, s.clock, Session(listed, s, []), most, b))
      modifies scheduler.Parts(), loader`currentIdCount, errorHandler
      ensures Valid() && fresh(scheduler.Parts() - old(scheduler.Parts()))
      ensures var s := old(scheduler.view);
              var plan := Plan(old(PolicyOf()), disk, s.clock, Session(listed, s, []), most, b);
              var t := After(plan, n);
              && scheduler.view == Drain(t.state) && Over(t) && returnMap == Codes(t.loads)
              && NewLog(old(errorHandler.cpuLogs), t.state)
              && errorHandler.errorList == old(errorHandler.errorList) + Errors(t.loads)
              && forall k: nat :: k < n ==> !Over(After(plan, k))
    {
      hide *;
      ghost var s, repr := scheduler.view, scheduler.Parts();
      ghost var base := errorHandler.errorList;
      ghost var plan := Plan(PolicyOf(), disk, s.clock, Session(listed, s, []), most, b);
      Begin(plan, base);
      ghost var z, now;
      returnMap, n, z, now := ExecuteLoop(listed, disk, machine.clock, plan, base, repr);
      End(plan, n, z, returnMap, base, now);
      LogAndStayValid();
    }
  }

  function WithSegment(s: State, h: nat, size: int, address: int): State {
    Put(s.(segments := s.segments + [Segment(address, size, 1)]), h, Get(s, h).(shm := Some(|s.segments|)))
  }

  function WithLink(s: State, h: nat, g: nat): State {
    if g >= |s.segments| then s
    else
      var seg := s.segments[g];
      Put(s.(segments := s.segments[g := seg.(links := seg.links + 1)]), h, Get(s, h).(shm := Some(g)))
  }

  // A new object at the end of the segment table changes nothing for the other blocks.
  lemma OthersKept(t: seq<Pcb>, g: seq<Shm>, x: Shm, p: Pcb, pcbs: seq<Process>)
    requires OthersAre(t, g, p, pcbs)
    ensures OthersAre(t, g + [x], p, pcbs)
  {
  }

  predicate ConnectDefined(s: State, a: nat, b: nat, size: int) {
    UnlinkDefined(s, a) && UnlinkDefined(Unlink(s, a), b) && RoomFor(Unlink(Unlink(s, a), b), size)
  }

  predicate RoomFor(s: State, size: int) {
    var at := FirstFit(s.mem, 6 * size, 0);
    at.Some? && at.value + 6 * size < CAPACITY
  }

  lemma ShareSteps(s: State, a: nat, b: nat, size: int)
    requires RoomFor(s, size)
    ensures var at := FirstFit(s.mem, 6 * size, 0).value;
            var t := s.(mem := SetMarks(s.mem, at, at + 6 * size, true));
            Share(s, a, b, size) == WithLink(WithSegment(t, a, size * 6, at), b, |s.segments|)
  {
  }

  lemma OpenSteps(s: State, size: int, one: string, two: string)
    requires OpenDefined(s, size, one, two)
    ensures if one in s.names && two in s.names
            then
              var a, b := s.names[one], s.names[two];
              ConnectDefined(s, a, b, size) && OpenShared(s, size, one, two) == Share(Unlink(Unlink(s, a), b), a, b, size)
            else OpenShared(s, size, one, two) == s
  {
  }

  lemma OpenSound(s: State, size: int, one: string, two: string)
    requires Sound(s)
    ensures Sound(OpenShared(s, size, one, two)) && OpenShared(s, size, one, two).loaded == s.loaded
  {
    ApplySound(s, Event.OpenSegment(size, one, two));
    OpenLoaded(s, size, one, two);
    hide Sound;
    hide OpenShared;
  }

  lemma InitSound(s: State, value: int, one: string, two: string)
    requires Sound(s)
    ensures Sound(InitSemaphore(s, value, one, two)) && InitSemaphore(s, value, one, two).loaded == s.loaded
  {
    ApplySound(s, NewSemaphore(value, one, two));
  }

  // The parameters of the policy in force make sense.
  predicate Quanta(p: Policy) {
    p.Fcfs? || Fairness.Slicing(p)
  }

  lemma StepSound(p: Policy, s: State)
    requires Sound(s)
    ensures Sound(Step(p, s)) && Step(p, s).loaded == s.loaded
  {
    ApplySound(s, Tick(p));
    StepLoaded(p, s);
  }

  // A session to run: policy, files, start time, where it starts, and the bounds on the number
  // of processes and of instructions of each that make it end.
  datatype Plan = Plan(policy: Policy, disk: Disk, start: int, first: Session, most: nat, b: nat)

  function After(plan: Plan, n: nat): Session {
    Rounds(plan.policy, plan.disk, plan.start, plan.first, n)
  }

  ghost predicate Planned(plan: Plan) {
    && Quanta(plan.policy) && AllProper(plan.disk) && InOrder(plan.first.todo)
    && Finite(plan.policy, plan.disk, plan.start, plan.first, plan.most, plan.b)
    && SessionDefined(plan.policy, plan.disk, plan.start, plan.first)
  }

  // The session has made `n` rounds, is now at `z`, and can go on.
  ghost predicate At(plan: Plan, n: nat, z: Session) {
    && z == After(plan, n) && (forall k: nat :: k < n ==> !Over(After(plan, k)))
    && Quanta(plan.policy) && AllProper(plan.disk) && Sound(z.state) && InOrder(z.todo)
    && Finite(plan.policy, plan.disk, plan.start, z, plan.most, plan.b)
    && SessionDefined(plan.policy, plan.disk, plan.start, z)
  }

  function BudgetOf(plan: Plan, z: Session): int {
    Budget(plan.start, z, plan.most, plan.b)
  }

  lemma AtNext(plan: Plan, n: nat, z: Session)
    requires At(plan, n, z) && !Over(z)
    ensures var d, r := LoadDue(plan.disk, plan.start, z), Round(plan.policy, plan.disk, plan.start, z);
            && At(plan, n + 1, r) && 0 <= BudgetOf(plan, r) < BudgetOf(plan, z)
            && Quanta(plan.policy) && Sound(d.state) && StepDefined(plan.policy, d.state)
            && r.state == Step(plan.policy, d.state) && r.todo == d.todo && r.loads == d.loads
  {
    var p, disk, start := plan.policy, plan.disk, plan.start;
    RoundsNext(p, disk, start, plan.first, n);
    FiniteNext(p, disk, start, z, plan.most, plan.b);
    SessionDefinedNext(p, disk, start, z);
    RoundShrinks(p, disk, start, z, plan.most, plan.b);
    LoadDueKeeps(disk, start, z);
    assert Round(p, disk, start, z).state == Step(p, LoadDue(disk, start, z).state);
    hide Rounds;
    hide Finite;
    hide SessionDefined;
    hide LoadDue;
    FiniteNow(p, disk, start, Round(p, disk, start, z), plan.most, plan.b);
    BudgetNatural(start, Round(p, disk, start, z), plan.most, plan.b);
  }

  lemma FiniteNow(p: Policy, disk: Disk, start: int, z: Session, most: nat, b: nat)
    requires Finite(p, disk, start, z, most, b)
    ensures Bounded(z.state, most, b)
  {
    assert Rounds(p, disk, start, z, 0) == z;
  }

  predicate AllProper(disk: Disk) {
    forall name :: name in disk ==> Proper(disk[name])
  }

  lemma CodesNext(disk: Disk, z: Session)
    requires z.todo != []
    ensures var c, l := FileCode(z.state, disk, z.todo[0].name), z.todo[0];
            && Codes(LoadNext(disk, z).loads) == Insert(Codes(z.loads), if c == 0 then 0 else 1, l.name)
            && Errors(LoadNext(disk, z).loads) == Errors(z.loads) + (if c == 0 then [] else [c])
            && LoadNext(disk, z).state == LoadFile(z.state, disk, l.name)
  {
    assert LoadNext(disk, z).loads[..|z.loads|] == z.loads;
  }

  lemma DueNext(disk: Disk, start: int, z: Session)
    requires z.todo != [] && z.todo[0].time + start <= z.state.clock && Sound(z.state)
    ensures LoadDue(disk, start, z) == LoadDue(disk, start, LoadNext(disk, z))
    ensures LoadNext(disk, z).state.clock == z.state.clock && LoadNext(disk, z).todo == z.todo[1..]
  {
    LoadFileKeeps(disk, z.state, z.todo[0].name);
  }

  lemma NothingToDrain(s: State)
    ensures s.terminated == [] ==> Drain(s) == s
  {
    assert s.logged + [] == s.logged;
  }

  lemma Start(plan: Plan)
    requires Planned(plan) && Sound(plan.first.state)
    ensures At(plan, 0, plan.first)
  {
  }

  // The session of kernelRun: nothing is listed.
  function RunPlan(p: Policy, s: State, most: nat, b: nat): Plan {
    Plan(p, map[], 0, Session([], s, []), most, b)
  }

  // What the rounds of kernelRun have done when they end.
  lemma RunEnd(p: Policy, s: State, most: nat, b: nat, n: nat, z: Session)
    requires Sound(s) && At(RunPlan(p, s, most, b), n, z) && Over(z)
    ensures z.state == Run(s, Calls(p, n)) && AllEmpty(z.state)
    ensures forall k: nat :: k < n ==> !AllEmpty(Run(s, Calls(p, k)))
  {
    RunRounds(p, s, n);
    hide Rounds;
    hide Finite;
    hide SessionDefined;
    hide Sound;
    hide Run;
    forall k: nat | k < n
      ensures !AllEmpty(Run(s, Calls(p, k)))
    {
      RunRounds(p, s, k);
      assert !Over(After(RunPlan(p, s, most, b), k));
    }
  }

  lemma DrainSound(s: State)
    requires Sound(s)
    ensures Sound(Drain(s))
  {
    ApplySound(s, Log);
  }

  lemma LookupNames(s: State, name: string)
    ensures Lookup(s, name) == if name in s.names then Some(s.names[name]) else None
  {
  }

  lemma LoadedCount(disk: Disk, s: State, name: string)
    ensures LoadFile(s, disk, name).loaded == s.loaded + if FileCode(s, disk, name) == 0 then 1 else 0
  {
  }

  lemma NotLoaded(disk: Disk, s: State, name: string)
    requires FileCode(s, disk, name) != 0
    ensures LoadFile(s, disk, name) == s
  {
  }

  // Both processes, if both are known, get semaphore `id`.
  function WithSemaphore(s: State, id: nat, one: string, two: string): State {
    if one !in s.names || two !in s.names then s
    else
      var a, b := s.names[one], s.names[two];
      var u := Put(s, a, Get(s, a).(semId := id));
      Put(u, b, Get(u, b).(semId := id))
  }

  lemma SemaphoreSteps(s: State, value: int, one: string, two: string)
    ensures var t := s.(semaphores := s.semaphores + [Semaphore(value, [])]);
            && InitSemaphore(s, value, one, two) == WithSemaphore(t, |s.semaphores|, one, two)
  {
  }

  lemma LoadedInArray(s: State, i: Image)
    requires Proper(i) && LoadCode(s, i) == 0
    ensures InArray(i.load, i.load + i.size)
  {
  }

  lemma LoadSteps(s: State, name: string, i: Image)
    requires LoadCode(s, i) == 0
    ensures var h := |s.pcbs|;
            var t := s.(mem := Written(s.mem, i));
            var u := t.(pcbs := t.pcbs + [Loaded(name, t.loaded, i.load, i.size, i.first, t.clock)],
                        loaded := t.loaded + 1, names := t.names[name := h]);
            LoadProgram(s, name, i) == Enqueue(u.(mem := SetMarks(u.mem, i.load, i.load + i.size, true)), h, New)
  {
  }
}
