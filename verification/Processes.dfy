// Process control blocks as values (src/hardware/pcb.h).
module Processes {
  import opened Options
  import opened Machine

  // pState: 0 after construction, then the scheduler's NEW .. TERMINATED.
  datatype Tag = Created | New | Ready | Running | Waiting | Terminated

  // `shm` is the handle of the linked shared segment, `child` that of the last forked child.
  datatype Process = Process(
    name: string, pid: int, load: int, size: int, first: int,
    arrival: int, termination: int, slices: seq<int>, wait: int, response: int, turnAround: int,
    priority: int, quantumCount: int, semId: int, tag: Tag, shm: Option<nat>, child: Option<nat>, cpu: Cpu)

  const NoProcess: Process :=
    Process("default", 0, 0, 0, 0, 0, 0, [], 0, 0, 0, 0, 0, -1, Created, None, None, ClearedCpu)

  // The block made for a loaded program.
  function Loaded(name: string, pid: int, load: int, size: int, first: int, clock: int): Process {
    NoProcess.(name := name, pid := pid, load := load, size := size, first := first, arrival := clock,
               cpu := ClearedCpu.(pc := first + load))
  }

  // The block of a forked child: same program and PC, Z set to 1, everything else fresh.
  function Child(p: Process, clock: int): Process {
    NoProcess.(name := p.name + ".child", pid := p.pid + 1, load := p.load, size := p.size, first := p.first,
               arrival := clock, cpu := ClearedCpu.(pc := p.cpu.pc, z := 1))
  }

  // The reference point for the next gap: the last slice, or the arrival before the first.
  function LastSlice(p: Process): int {
    if p.slices == [] then p.arrival else p.slices[|p.slices| - 1]
  }

  function Capture(p: Process, clock: int): Process {
    var gap := clock - LastSlice(p) - 1;
    p.(slices := p.slices + [clock], wait := if gap > 0 then p.wait + gap else p.wait)
  }

  function Promote(p: Process): Process {
    p.(priority := if p.priority > 0 then p.priority - 1 else p.priority, quantumCount := 0)
  }

  function Demote(p: Process): Process {
    p.(priority := if p.priority < 2 then p.priority + 1 else p.priority, quantumCount := 0)
  }

  // A used-up quantum: the fifth in a row demotes.
  function UseQuantum(p: Process): Process {
    var q := p.(quantumCount := p.quantumCount + 1);
    if q.quantumCount >= 5 then Demote(q) else q
  }

  // pTerminationTime, then calculateResponse and calculateTurnAround.
  function Finish(p: Process, clock: int): Process {
    p.(termination := clock,
       response := if p.slices == [] then 0 else p.slices[0] - p.arrival,
       turnAround := clock - p.arrival)
  }
}
