# Verification model of the operating-system simulator

The simulator runs byte-coded programs on one CPU under a small kernel: three interchangeable
schedulers (first come first served, round robin, multi-level feedback queue), software
interrupts, semaphores, shared memory counted by links, marks on memory cells, and a time
account for every process. This project models all of that as one state machine and proves
what the design promises about every run of it.

## How it is organised

The meaning of the program is given once, as total functions on values:

- `Machine`: one fetch-decode-execute cycle on registers, PC, Z and marked memory (`Exec`).
- `Processes`: process control blocks and what the scheduler does to one.
- `System`: the state of the whole simulator (`State`), one call of a scheduling function
  (`Step`), the kernel's other operations, events (`Apply`) and runs of events (`Run`).
- `Sessions`: the two loops that drive the scheduler, as rounds.

Processes are named by the order of their creation, as the program names them by address;
process numbers and names may collide.

The theorems are about these functions, for every run: `Census` (conservation of processes),
`Timekeeping` (time accounts and conservation of time), `Levels` and `Feedback` (the ready
queues and the feedback rule), `Fairness` (bounded waiting), `Slices` (when exactly a process is
preempted), `Policies` and `Tags` (when the three policies coincide; what pState says),
`Semaphores` (the counting law) and `Overrun` (a run in which it lets too many in), `MemoryMap`
(marks, links, first fit), `MachineLaws` and `Opcodes` (the instruction set, from the bytes in
memory), `RoundTrip` (what is stored is loaded again), `Interrupts` (what a process finds after a fork, a print or a shared-memory call), `Transparency`
(time-slicing is invisible to a process that keeps to itself), `Counting` (a whole program, from
its bytes to its result), `Sessions` (termination, idling, arrival times) and `Charts` (the chart of a
log).

The imperative half keeps the program's own objects and loops: `Hardware` (Shm, Pcb, Ram,
VirtualMachine), `Scheduling` (Scheduler), `Loading` (Loader), `Logging` (ProcessLog,
ErrorHandler) and `Kernels` (Kernel). The scheduler carries a ghost field `view`, its state as
a value of `State`; `Valid` ties every field of every object to it, and each method says, with
`view == SpecOp(old(view))`, which operation of the specification it performs. `KernelRun` and
`KernelExecuteProgram` therefore end in states of the runs that the theorems are about.

Where the program has undefined behaviour the total functions pick a value, and the methods
require that it does not occur: `Defined` for a cycle (division by zero, a result outside 32
bits, a register byte of 6 or more, an address outside the array) and `StepDefined` for a call
(also a string print that leaves memory, a release or wait without a valid semaphore, a process
that ends under a name already erased). A quantum and a scaler are at least 1, and program
headers are non-negative with load + size different from the memory size, which the overflow
check admits although the region then has one cell too many.

## Facts found

- Allocating shared memory marks one cell more than it counts. Marks and regions stay in
  agreement if and only if that cell was free (`MemoryMap.ShareMarks`, `MemoryMap.OpenMapOk`);
  `MemoryMap.ExtraCellBreaksMarks` is a case where it was not.
- A release both raises the semaphore's value and wakes a waiter, so the number of processes
  inside is the initial value - the value + the wakes (`Semaphores.InsideCount`). A semaphore
  keeps its bound exactly while the wakes do not exceed the value; it breaks at an acquire that
  finds the value equal to the wakes (`Semaphores.BoundBreaks`), as in `Overrun.TwoInside`.
- Round robin and MLFQ dispatch to an empty CPU without setting RUNNING, so a running process
  may be tagged READY: `Tags.RunningTaggedReady` is a case, `Tags.RunningTag` says exactly when.
- When the last listed programs cannot be loaded and nothing runs, kernelExecuteProgram still
  makes one idle call before it ends (`Sessions.IdleCall`; exactly when: `Sessions.LastIdle`);
  this is why the listed programs count in the budget of `Sessions.SessionEnds`.
- Opening a segment under one name for both sides counts its process twice
  (`MemoryMap.OpenLinksOk`).

## Model

| member | source | states |
|---|---|---|
| `Transparency.Transparent` | src/kernel/scheduler.cpp:410-444 | Schedule transparency: over any run of any policies, quanta, load order and arrivals in which every program keeps to its own region and to SWI 0-2 and 10, each process after its n-th instruction has the registers, PC, Z and own memory it would have after n instructions alone; while it lives its run alone has not stopped, and when it has ended its run alone stopped at its last instruction and not before |
| `Transparency.TransparentFromBoot` | src/kernel/scheduler.cpp:410-444 | From power-on: a program loaded at any time of any such run starts with cleared registers and PC at its first instruction, and from then on, whatever comes before and after, behaves as it does alone |
| `Transparency.CycleAlone` | src/hardware/vm.cpp:53-332 | One cycle of a process confined to its region leaves the same context, stops or goes on, and changes the same own cells as it would on a memory holding only that region, and changes no cell outside it |
| `Transparency.ApplyCalm` | src/kernel/scheduler.cpp:34-276 | Live regions stay disjoint and every process keeps to itself across every event of such a run |
| `Policies.FeedbackIsRoundRobin` | src/kernel/scheduler.cpp:96-276 | As long as MLFQ demotes nobody, it and round robin with the same quantum keep the same running process, queues, contexts, memory and clock, with quantum clocks congruent modulo the quantum, although only MLFQ resets its clock on a switch |
| `Tags.FeedbackFromBoot` | src/kernel/scheduler.cpp:174-276 | The same from power-on, for every list of events |
| `Policies.RoundRobinIsFcfs` | src/kernel/scheduler.cpp:34-172 | When every burst of the FCFS run fits in the quantum, round robin makes the same run, up to the quantum clock and bookkeeping tags, although the two dispatch under different guards |
| `Tags.RoundRobinIsExactlyFcfs` | src/kernel/scheduler.cpp:34-172 | The exact form: the two runs agree on every field of every process and of the system but the quantum clock and the READY/RUNNING tag of the running process |
| `Tags.RoundRobinFromBoot` | src/kernel/scheduler.cpp:34-172 | The exact form from power-on, for every list of events whose bursts fit |
| `Tags.RunTagged` | src/kernel/scheduler.cpp:282-310 | Over every run pState names the place of every process: new, ready, waiting/blocked or terminated; the running one is tagged READY or RUNNING |
| `Tags.RunningTag` | src/kernel/scheduler.cpp:46-52 | After a call the running process is tagged RUNNING if and only if the call preempted, or FCFS dispatched it, or it ran and was tagged RUNNING before |
| `Tags.RunningTaggedReady` | src/kernel/scheduler.cpp:110-114 | A round-robin call from power-on with one program after which the running process is tagged READY |
| `Tags.FcfsRunningFromBoot` | src/kernel/scheduler.cpp:46-52 | In runs of FCFS alone the running process is always tagged RUNNING |
| `Fairness.RoundRobinWaiting` | src/kernel/scheduler.cpp:105-154 | With all priorities 0, the process at index k of the ready queue executes within (k+1)*quantum calls, whatever interrupts, forks, wake-ups and arrivals happen |
| `Fairness.FeedbackWaiting` | src/kernel/scheduler.cpp:174-276 | Under MLFQ the process at index k of level 0 executes within max(quantum*scaler, quantum*1000) + k*quantum calls |
| `Fairness.StepRank` | src/kernel/scheduler.cpp:105-124 | The ranking function of both bounds falls with every call until the process at index k of queue 0 executes |
| `Fairness.ApplySteady` | src/kernel/scheduler.cpp:151-166 | The quantum clock is 0 exactly when the CPU is empty and never negative, after every event of a time-sliced run |
| `Census.RunSound` | src/kernel/scheduler.cpp:282-355 | Conservation: over every run, mixed policies included, every created process is in exactly one of new, the ready queues, the running slot, one block queue, terminated or logged, exactly once; the waiting queue is empty between calls; every priority is 0..2 |
| `Census.StepPlaces` | src/kernel/scheduler.cpp:34-276 | One call moves processes but loses and duplicates none; it adds one exactly when its code is that of a fork |
| `Timekeeping.FinishedTimes` | src/hardware/pcb.h:70-106 | After any run from power-on, every finished process has turnaround = wait + instructions executed and 1 <= response <= turnaround |
| `Timekeeping.RunBooked` | src/hardware/pcb.h:90-103 | Over every run slices strictly increase after the arrival and wait + number of slices = last slice - arrival, for every process, forked children included; finished processes have their closing times |
| `Timekeeping.TimeConserved` | src/hardware/vm.cpp:51-319 | Over every run the clock advances by the instructions of all processes + one per recognised interrupt + one per idle call |
| `Timekeeping.RunEnds` | src/kernel/errorhandler.cpp:29-32 | Processes are logged in the order in which they ended |
| `Timekeeping.RunExclusive` | src/hardware/pcb.h:70-73 | No unit of time is a slice of two processes, over every run from power-on |
| `Timekeeping.StepLedger` | src/kernel/scheduler.cpp:54-91 | What a call does to every time record: one slice for the executor, closing times when it ends, nothing for anyone else |
| `Levels.RunSorted` | src/kernel/scheduler.cpp:288-302 | Over every run every ready queue k holds only processes of priority k |
| `Levels.RunTakes` | src/kernel/scheduler.cpp:288-302 | FIFO per level, over every run: what queue k held, then all that entered it (admitted, preempted, forked, woken and returning processes, in order), is all that was taken from it, in order, followed by what it holds now |
| `Levels.QueueIsLog` | src/kernel/scheduler.cpp:288-328 | From power-on: the enqueue log of a level is its dispatch log followed by the queue |
| `Levels.StepTakes` | src/kernel/scheduler.cpp:41-91 | The same equation for one call |
| `Levels.TakenAreHeads` | src/kernel/scheduler.cpp:312-328 | Every process taken was the head of the highest non-empty level when it was taken, and a process that executes without having held the CPU was taken in that call |
| `Slices.PreemptsExactly` | src/kernel/scheduler.cpp:176-226 | An MLFQ call with a process running preempts it if and only if someone is ready after admission and the quantum clock is a positive multiple of quantum at priority 0, quantum*scaler at priority 1, quantum*1000 at priority 2 |
| `Slices.WholeQuantum` | src/kernel/scheduler.cpp:191-237 | A process dispatched at any level that makes no SWI and does not halt executes in exactly quantum, quantum*scaler or quantum*1000 consecutive calls, and the next call preempts it if and only if someone is ready |
| `Slices.GivesWay` | src/kernel/scheduler.cpp:214-226 | After the preemption the same process executes again exactly when nobody is ready at a level as high as the one it is queued on, one lower after its fifth quantum in a row |
| `Slices.FcfsNeverSlices` | src/kernel/scheduler.cpp:34-94 | An FCFS call never moves the quantum clock and never takes the CPU from a process |
| `Slices.RoundRobinPreempts` | src/kernel/scheduler.cpp:117-124 | A round-robin call preempts exactly when its clock is a positive multiple of the quantum and somebody of level 0 is ready |
| `Feedback.RunLevel` | src/kernel/scheduler.cpp:214-252 | Over every MLFQ run level and quantum count of a process are the fold of its history (fifth expiry in a row demotes, a SWI promotes and clears), within 0..2 and 0..4 |
| `Feedback.ExpiriesDemote` | src/kernel/scheduler.cpp:214-222 | n expiries without a SWI take a process down one level for every five, to level 2 at most, and leave the remainder as its count |
| `Interrupts.ForkedChild` | src/kernel/scheduler.cpp:526-540 | After a call that executes SWI 3 every field of the child is given: the parent's program and PC, Z = 1, cleared registers, arrival now, priority 0, no semaphore and no segment; the parent goes on with its own context |
| `Interrupts.ForkBranches` | src/kernel/scheduler.cpp:526-540 | When a BNE follows the SWI 3, the child's first cycle goes to its target and the parent's next one does so exactly when its own Z is not 0, whatever happens in between |
| `Interrupts.SharedAt` | src/kernel/scheduler.cpp:607-620 | Two processes open a segment; in any run after which neither is given another, a call in which either executes SWI 4 leaves in its R0 the lowest address with that many free cells, and every other register as it was |
| `Interrupts.StaysLinked` | src/kernel/scheduler.cpp:361-383 | A process keeps its segment, and the segment its place and size, until it opens another |
| `Interrupts.PrintEnds` | src/kernel/scheduler.cpp:556-584 | After a call that executes SWI 1 with a quote at R0, R0 is the least address after it with a quote or at the print limit; without a quote there R0 stays; everything else stays |
| `Interrupts.SemaphoreOf` | src/kernel/kernel.cpp:181-198 | A new semaphore has its value and nobody blocked, and exactly the two named processes are given it |
| `Interrupts.KeepsSemaphore` | src/kernel/kernel.cpp:194-196 | A process keeps its semaphore until it is given another |
| `Interrupts.StepOther` | src/kernel/scheduler.cpp:410-444 | A call leaves the context of every process but its executor as it is, forks included |
| `Interrupts.CpuCleared` | src/kernel/scheduler.cpp:437-444 | After a call that served an interrupt registers, PC and Z of the CPU are 0 |
| `Interrupts.RunSix` | src/hardware/vm.cpp:53-332 | Over every run from power-on every context has six registers |
| `Semaphores.RunLaw` | src/kernel/scheduler.cpp:622-659 | Over every run value + granted acquires = initial value + releases, processes leave the block queue in the order in which they entered, and a value that starts at 0 or more stays so |
| `Semaphores.InsideCount` | src/kernel/scheduler.cpp:643-652 | When only SWI 5 blocks and only processes inside release, the number inside (a process may enter again) is initial value - value + wakes; so at most the initial value are inside if and only if the wakes do not exceed the value, and value and number inside add up to the initial value if and only if no release ever woke anybody |
| `Semaphores.BoundBreaks` | src/kernel/scheduler.cpp:622-652 | Call by call: the call that lets one too many in is exactly an acquire that finds the value not 0 and equal to the wakes so far; the wakes grow exactly when a release finds a process blocked |
| `Overrun.TwoInside` | src/kernel/scheduler.cpp:622-652 | A run of two programs and a semaphore of one unit, at the end of which both are inside |
| `MemoryMap.RunMapOk` | src/kernel/scheduler.cpp:361-405 | Over every fork-free run with careful openings a cell is marked exactly when it lies in exactly one live program or linked segment, every segment counts exactly the live processes linked to it, and names lead to live processes |
| `MemoryMap.StepMapOk` | src/kernel/scheduler.cpp:361-405 | A call without a fork keeps marks, links and names right |
| `MemoryMap.StepMarks` | src/kernel/scheduler.cpp:361-405 | Exactly which marks a call clears: those of the process it ends and, with the last link, those of its segment; it sets none |
| `MemoryMap.LoadEffect` | src/kernel/loader.cpp:59-84 | A load writes and marks only cells that were free; a rejected load changes nothing |
| `MemoryMap.LoadMapOk` | src/kernel/loader.cpp:106-118 | An accepted load keeps marks, links and names right |
| `MemoryMap.FirstFitLeast` | src/kernel/loader.cpp:121-149 | First fit is the lowest address at which a run of n free cells starts, and none exists when it finds none |
| `MemoryMap.ShareMarks` | src/kernel/loader.cpp:158-160 | Allocating a segment keeps marks and regions in agreement if and only if the one cell it marks beyond the counted run was free |
| `MemoryMap.ExtraCellBreaksMarks` | src/kernel/loader.cpp:158-160 | A state of two loaded programs in which that cell belongs to one of them, so that the marks go wrong |
| `MemoryMap.OpenMapOk` | src/kernel/kernel.cpp:29-64 | Opening a segment between two live processes keeps names and link counts right, and the marks if and only if the extra cell was free |
| `MemoryMap.UnlinkCells` | src/kernel/scheduler.cpp:361-376 | A link given up frees the interval of the segment exactly when it was the last one |
| `MemoryMap.OpenLinksOk` | src/kernel/kernel.cpp:29-64 | Opening keeps the link counts right if and only if the two names differ |
| `MemoryMap.ShareWithSelf` | src/hardware/pcb.h:108-120 | A segment shared with itself counts one process twice |
| `RoundTrip.StoreLoadRoundTrip` | src/hardware/vm.cpp:122-165 | For every 32-bit value: after a STR that completes and any run of calls, loads, segment openings and terminations that writes elsewhere, a LDR at that address completes if and only if the first cell is still marked, whatever became of the other marks, and then loads the value stored |
| `RoundTrip.CallVals` | src/kernel/scheduler.cpp:34-276 | After a call, forks and terminations included, the bytes of memory are those its cycle left |
| `Opcodes.Arithmetics` | src/hardware/vm.cpp:73-92 | From the bytes in memory: opcodes 16..19 leave the sum, difference, product or quotient truncated toward zero in the destination register, and every other register, Z and memory as they were |
| `Opcodes.TruncatesOnce` | src/hardware/vm.cpp:89-92 | The description of the truncated quotient fits one number only |
| `Opcodes.Moves` | src/hardware/vm.cpp:93-95 | Opcodes 1 and 5 leave the other register, or the byte at its address, in the destination register |
| `Opcodes.Immediates` | src/hardware/vm.cpp:96-120 | Opcodes 22 and 0 leave the little-endian operand, or its sum with the load address, in the destination register |
| `Opcodes.Loads` | src/hardware/vm.cpp:146-165 | Opcode 4 leaves the little-endian word at the address in the destination register, or faults and changes nothing when its first cell is unmarked |
| `Opcodes.Storing` | src/hardware/vm.cpp:122-143 | Opcode 2 leaves the value at the address when all four cells are marked, and otherwise faults; no other cell and no mark changes |
| `Opcodes.CompareAndBranch` | src/hardware/vm.cpp:174-241 | After a CMP of registers x and y the branch that follows goes to its offset from the load address exactly when Reg x is <, >, == or != Reg y as its opcode says, and otherwise to the next instruction |
| `Opcodes.Branches` | src/hardware/vm.cpp:174-236 | A branch is taken by the sign of Z, and changes the PC only |
| `Opcodes.Interrupting` | src/hardware/vm.cpp:252-320 | SWI n returns 20 + n for 0..7 and 10 for 10, in two ticks, and does nothing for any other n |
| `Opcodes.Idles` | src/hardware/vm.cpp:144-251 | STRB, BX, AND, ORR, EOR and unknown opcodes only go on |
| `Counting.Counts` | asm/count2.asm:1-12 | The bytes of the counting program with any limit n >= 0 in place of its limit, run alone: it keeps to its region and halts at its (4n + 6)th instruction and not before, with R1 = n and R2 = 55 |
| `Counting.CountsInSystem` | src/kernel/scheduler.cpp:34-276 | The same program in the system, loaded at any time, under any policies, quanta, load order and arrivals, beside programs that keep to themselves: when it has ended it has executed exactly 4n + 6 instructions and its block holds R1 = n and R2 = 55, and until then it has executed fewer |
| `MachineLaws.StoreEffect` | src/hardware/vm.cpp:131-138 | STR writes the value's bytes up to the first unmarked cell, changes no mark and no other cell, and completes exactly when all four cells are marked |
| `MachineLaws.BytesOfWord` | src/hardware/vm.cpp:126-152 | The four bytes of a 32-bit signed value read back give the value |
| `MachineLaws.ExecWrites` | src/hardware/vm.cpp:71-321 | Only STR writes memory, only into its four cells, and no cycle changes a mark |
| `MachineLaws.CycleCodes` | src/hardware/vm.cpp:69-331 | A cycle returns 0, 10 or 20..27; recognised interrupts take two ticks and everything else one |
| `MachineLaws.ExecLocal` | src/hardware/vm.cpp:53-332 | A confined cycle does the same on two memories that agree on its region, and leaves everything outside alone |
| `MachineLaws.ConfinedLocal` | src/hardware/vm.cpp:53-332 | Being confined depends only on the cells of the region |
| `Sessions.LoadedBlock` | src/kernel/loader.cpp:165-177 | Every field of the block of a loaded program, its number, its place in the new queue and its name |
| `Sessions.RunNumbers` | src/kernel/loader.cpp:165-173 | The n-th program loaded since power-on has number n, counted from 0 |
| `Sessions.WorkConserving` | src/kernel/scheduler.cpp:341-355 | A call idles exactly when nothing is new, ready or running |
| `Sessions.RunNeverIdles` | src/kernel/kernel.cpp:200-215 | Until kernelRun ends, none of its calls idles |
| `Sessions.SessionEnds` | src/kernel/kernel.cpp:107-138 | With boundedly many processes of boundedly many instructions each, kernelRun and kernelExecuteProgram end, within the remaining instructions + the wait for the last program + the programs listed |
| `Sessions.NoForkEnds` | src/kernel/kernel.cpp:107-138 | Without forks and with at most b instructions of each process both loops end, within b instructions for every process there is or listed + the wait for the last program + the programs listed |
| `Sessions.NoForkCount` | src/kernel/kernel.cpp:114-138 | Without forks there are never more processes than blocks and listed programs at the start |
| `Sessions.LastIdle` | src/kernel/kernel.cpp:112-138 | The last round idles exactly when nothing is queued or running and every program still listed is due and cannot be loaded |
| `Sessions.IdleCall` | src/kernel/kernel.cpp:112-138 | A session of one listed program without a file, which makes one idle call |
| `Sessions.AtTheEnd` | src/kernel/kernel.cpp:202-215 | When the loops end every process is terminated, logged or in one block queue |
| `Sessions.ArrivalLateness` | src/kernel/kernel.cpp:112-125 | However long kernelExecuteProgram runs, it has attempted a prefix of its list in order, each program at start + t or start + t + 1, and the arrival time of every loaded process is that time |
| `Sessions.RoundsRun` | src/kernel/kernel.cpp:112-138 | Rounds of the loops are runs of loads and calls, so everything proved of all runs holds of them |
| `Sessions.RunRounds` | src/kernel/kernel.cpp:202-214 | The rounds of kernelRun are calls of the scheduler and nothing else |
| `Charts.ChartStrict` | src/kernel/processlog.cpp:3-12 | The chart of processes with disjoint slices has no duplicate time, as many entries as instructions, and names for each instruction the process that executed it |
| `Charts.LogDrawable` | src/kernel/errorhandler.cpp:197-205 | After any run from power-on the chart of the terminated processes is non-empty and duplicate-free, starts after the computed start and ends exactly at the computed end |
| `Charts.DoneForGood` | src/hardware/pcb.h:70-106 | A terminated process keeps all its times whatever happens next, so a log never goes stale |
| `Charts.InsertSorted` | src/kernel/processlog.cpp:8-9 | Inserting into the chart keeps it sorted and adds exactly the new entry |
| `Charts.SpanBounds` | src/kernel/errorhandler.cpp:197-205 | The span covers the arrival and last slice of every process that ran, and its ends are attained |
| `Logging.LogDrawn` | src/kernel/errorhandler.cpp:24-42 | Whatever the run was, the log its terminated processes went to can be drawn, one entry per instruction |
| `Hardware.Pcb.constructor` | src/hardware/pcb.h:52-56 | A fresh block of a loaded program: PC at the first instruction, arrival from the header, no slices |
| `Hardware.Pcb.Copy` | src/hardware/pcb.h:59-63 | The forked block: the parent's program and PC, every other field fresh |
| `Hardware.Pcb.CalculateWait` | src/hardware/pcb.h:90-103 | Adds the gap since the last slice (or the arrival) to the wait when it is positive |
| `Hardware.Pcb.CaptureTimeSlice` | src/hardware/pcb.h:70-73 | Charges the gap and appends the slice |
| `Hardware.Pcb.PromotePriority` | src/hardware/pcb.h:75-80 | One level up, not above 0, and a fresh quantum count |
| `Hardware.Pcb.DemotePriority` | src/hardware/pcb.h:81-86 | One level down, not below 2, and a fresh quantum count |
| `Hardware.Pcb.IncrementQuantumCount` | src/hardware/pcb.h:87 | Counts one more quantum |
| `Hardware.Pcb.CalculateResponse` | src/hardware/pcb.h:105 | First slice - arrival |
| `Hardware.Pcb.CalculateTurnAround` | src/hardware/pcb.h:106 | Termination - arrival |
| `Hardware.Pcb.UpdateState` | src/hardware/pcb.h:69 | Changes only the tag |
| `Hardware.Pcb.OpenSharedMemory` | src/hardware/pcb.h:108-114 | A new segment with one link, linked to the process |
| `Hardware.Pcb.LinkSharedMemory` | src/hardware/pcb.h:116-120 | One link more on the segment, linked to the process |
| `Hardware.Shm.constructor` | src/hardware/shm.h:18-20 | A segment with its interval and no links |
| `Kernels.Kernel.FindPcb` | src/hardware/ram.h:14-22 | A name leads to the block with the handle that the specification's lookup gives, among the blocks there are, or to none when the specification knows none |
| `Hardware.Ram.MarkCells` | src/kernel/scheduler.cpp:390-393 | The loops over marks set exactly the marks of the inclusive interval and keep every byte |
| `Hardware.VirtualMachine.Idle` | src/hardware/vm.cpp:51 | One tick |
| `Hardware.VirtualMachine.WordAt` | src/hardware/vm.cpp:149-152 | The signed little-endian word at an address |
| `Hardware.VirtualMachine.StoreWord` | src/hardware/vm.cpp:131-139 | The byte loop of STR does what the byte-wise specification says, faults included |
| `Hardware.VirtualMachine.Arithmetic` | src/hardware/vm.cpp:73-92 | ADD, SUB, MUL, DIV and CMP do what one cycle of the specification does, which `Opcodes.Arithmetics` and `Opcodes.CompareAndBranch` pin from the bytes |
| `Hardware.VirtualMachine.MoveData` | src/hardware/vm.cpp:93-172 | MOV, MVI, ADR and LDRB, likewise |
| `Hardware.VirtualMachine.AccessMemory` | src/hardware/vm.cpp:122-165 | STR and LDR, likewise, halting with code 10 on an unmarked cell |
| `Hardware.VirtualMachine.TakeBranch` | src/hardware/vm.cpp:174-236 | B, BL, BNE, BGT, BLT and BEQ, likewise |
| `Hardware.VirtualMachine.FetchDecodeExecute` | src/hardware/vm.cpp:53-332 | A cycle is a function of registers, PC, Z, memory and load address alone: scratch fields never leak into it |
| `Scheduling.Scheduler.FirstComeFirstServe` | src/kernel/scheduler.cpp:34-94 | One FCFS call takes the whole system to the specified next state and returns the specified code |
| `Scheduling.Scheduler.RoundRobin` | src/kernel/scheduler.cpp:96-172 | One round-robin call, likewise; no NULL is dereferenced |
| `Scheduling.Scheduler.MultiLevelFeedbackQueue` | src/kernel/scheduler.cpp:174-276 | One MLFQ call, likewise |
| `Scheduling.Scheduler.PrepareFcfs` | src/kernel/scheduler.cpp:41-52 | Admission and dispatch of an FCFS call |
| `Scheduling.Scheduler.PrepareRr` | src/kernel/scheduler.cpp:104-124 | Admission, dispatch and preemption of a round-robin call |
| `Scheduling.Scheduler.PrepareMlfq` | src/kernel/scheduler.cpp:176-226 | Admission, dispatch and preemption of an MLFQ call |
| `Scheduling.Scheduler.InterruptFcfs` | src/kernel/scheduler.cpp:64-76 | The interrupt tail of an FCFS call |
| `Scheduling.Scheduler.InterruptRr` | src/kernel/scheduler.cpp:140-154 | The interrupt tail of a round-robin call |
| `Scheduling.Scheduler.InterruptMlfq` | src/kernel/scheduler.cpp:240-253 | The interrupt tail of an MLFQ call, with the promotion |
| `Scheduling.Scheduler.InitSemaphore` | src/kernel/scheduler.cpp:19-28 | A new semaphore at the index of its id, with an empty block queue |
| `Scheduling.Scheduler.QueuePcb` | src/kernel/scheduler.cpp:282-310 | The block goes to the back of the queue its state and level name, and its tag says so |
| `Scheduling.Scheduler.PopQueue` | src/kernel/scheduler.cpp:312-339 | The front of the queue, of the highest non-empty level for READY; NULL exactly when all ready queues are empty |
| `Scheduling.Scheduler.ReadyQueuesEmpty` | src/kernel/scheduler.cpp:341-346 | True exactly when no process is ready |
| `Scheduling.Scheduler.AllQueuesEmpty` | src/kernel/scheduler.cpp:348-355 | True exactly when nothing is new, ready, waiting or running |
| `Scheduling.Scheduler.AdmitNew` | src/kernel/scheduler.cpp:42-44 | The loop moves all new processes to the ready queues in order |
| `Scheduling.Scheduler.SwitchToNext` | src/kernel/scheduler.cpp:110-114 | The head of the highest non-empty level runs, with its context in the CPU |
| `Scheduling.Scheduler.SwapRunning` | src/kernel/scheduler.cpp:120-123 | The preempted process goes to the back of its queue and the next one runs |
| `Scheduling.Scheduler.ChargeQuantum` | src/kernel/scheduler.cpp:216-221 | The expiry charged to the preempted process, with its context saved |
| `Scheduling.Scheduler.QuantumSet` | src/kernel/scheduler.cpp:176-211 | The quantum of the running process's level; `Slices.PreemptsExactly` says which it is for each |
| `Scheduling.Scheduler.DeallocateShMemory` | src/kernel/scheduler.cpp:361-383 | One link less; at the last one the segment's marks are cleared |
| `Scheduling.Scheduler.DeallocateMemory` | src/kernel/scheduler.cpp:385-405 | Segment link, region marks, name and termination time |
| `Scheduling.Scheduler.Retire` | src/kernel/scheduler.cpp:402-405 | deallocateMemory and the two calculated times together |
| `Scheduling.Scheduler.ContextToCpu` | src/kernel/scheduler.cpp:410-422 | The CPU holds the block's context |
| `Scheduling.Scheduler.ContextToPcb` | src/kernel/scheduler.cpp:424-435 | The block holds the CPU's context |
| `Scheduling.Scheduler.ClearCpu` | src/kernel/scheduler.cpp:437-444 | Registers, PC and Z are 0 |
| `Scheduling.Scheduler.InterruptServiceRoutine` | src/kernel/scheduler.cpp:455-520 | Every interrupt code has its specified effect, unknown ones none |
| `Scheduling.Scheduler.IsrVFork` | src/kernel/scheduler.cpp:526-540 | The specified fork; `Interrupts.ForkedChild` gives every field of the child |
| `Scheduling.Scheduler.IsrHalt` | src/kernel/scheduler.cpp:542-554 | The waiting process is terminated, freed and gets its times |
| `Scheduling.Scheduler.IsrPrintString` | src/kernel/scheduler.cpp:556-584 | The walk ends where the specification says; `Interrupts.PrintEnds` says which cell that is |
| `Scheduling.Scheduler.IsrReturnSharedMemPtr` | src/kernel/scheduler.cpp:607-620 | The specified pointer or halt; `Interrupts.SharedAt` says which address R0 holds |
| `Scheduling.Scheduler.IsrSemaphoreAquire` | src/kernel/scheduler.cpp:622-641 | Takes a unit, or blocks the waiting process when there is none; an invalid id does nothing |
| `Scheduling.Scheduler.IsrSemaphoreRelease` | src/kernel/scheduler.cpp:643-652 | Adds a unit and makes the first blocked process ready |
| `Scheduling.Scheduler.IsrSemaphoreWait` | src/kernel/scheduler.cpp:654-659 | Blocks the waiting process |
| `Scheduling.Scheduler.RunCycle` | src/kernel/scheduler.cpp:55-57 | A cycle and its time slice |
| `Scheduling.Scheduler.EnterInterrupt` | src/kernel/scheduler.cpp:65-69 | Context saved, process waiting, CPU cleared, interrupt served |
| `Scheduling.Scheduler.LeaveInterrupt` | src/kernel/scheduler.cpp:70-74 | Back to the ready queues unless blocked or halted; the CPU is empty |
| `Scheduling.Scheduler.TerminateProcess` | src/kernel/scheduler.cpp:78-90 | Context saved, process terminated and freed; the CPU is empty |
| `Loading.Loader.VerifyMemoryIsUnoccupied` | src/kernel/loader.cpp:93-104 | True exactly when no cell of the inclusive region is marked |
| `Loading.Loader.LoadProgram` | src/kernel/loader.cpp:31-86 | Which of 0, 200, 201 and 202 is returned, and that memory changes only for 0 |
| `Loading.Loader.AllocateMemory` | src/kernel/loader.cpp:106-118 | Marks exactly the cells of the inclusive region |
| `Loading.Loader.Scan` | src/kernel/loader.cpp:127-149 | The scan with its running count finds the first fit and reads no cell past the last, a run ending there included |
| `Loading.Loader.AllocateSharedMemory` | src/kernel/loader.cpp:121-163 | The first fit of 6*size cells is marked, with one cell more |
| `Loading.Loader.CreatePcb` | src/kernel/loader.cpp:165-177 | A block with the next process number, in the table and known by its name |
| `Kernels.Kernel.constructor` | src/kernel/kernel.cpp:3-5 | Power-on: no process, cleared machine, MLFQ with quantum 5 and ratio 3 |
| `Kernels.Kernel.KernelSetScheduler` | src/kernel/kernel.cpp:67-88 | The policy named, whose code is returned; for another name the old policy, code 1 and error 1 in the list |
| `Kernels.Kernel.KernelLoadProgram` | src/kernel/kernel.cpp:157-179 | The program is new with arrival now, or nothing changes and the loader's code is in the error list |
| `Kernels.Kernel.KernelInitSemaphore` | src/kernel/kernel.cpp:181-198 | A new semaphore, given to both processes when both are found, else -1 and error 302 |
| `Kernels.Kernel.KernelOpenSharedMemory` | src/kernel/kernel.cpp:15-65 | Both processes give up their segments and share a new one at the first fit, whose address is returned; -1 and error 302 when one is not found |
| `Kernels.Kernel.CallScheduler` | src/kernel/kernel.cpp:203-213 | One call of the scheduler in force |
| `Kernels.Kernel.KernelRun` | src/kernel/kernel.cpp:200-221 | Under bounded runs the loop ends after the first n calls that empty every queue, in the state of the run of n calls; one new log holds the chart and the blocks of the processes that had terminated |
| `Kernels.Kernel.RunDrawn` | src/kernel/kernel.cpp:200-221 | From whatever state a run from power-on had reached, the log kernelRun leaves can be drawn, one entry per instruction |
| `Kernels.Kernel.LoadReached` | src/kernel/kernel.cpp:115-124 | The inner loops load exactly the programs whose time has come, in order, with their codes |
| `Kernels.Kernel.KernelExecuteProgram` | src/kernel/kernel.cpp:107-155 | Under bounded sessions the loop ends after the first n rounds that leave nothing to load or run, in the state of those n rounds, returning the codes of all loads; the codes of failed loads are in the error list and one new log is that of the processes that had terminated |
| `Kernels.Kernel.ExecuteDrawn` | src/kernel/kernel.cpp:107-155 | The same for the log that kernelExecuteProgram leaves |
| `Logging.ProcessLog.LogProcess` | src/kernel/processlog.cpp:3-12 | One chart entry per slice of the process, and the process in the map |
| `Logging.ErrorHandler.LogTerminatedProcesses` | src/kernel/errorhandler.cpp:24-42 | The terminated queue is drained into a new log whose chart and map are those of its processes |
| `Logging.ErrorHandler.Span` | src/kernel/errorhandler.cpp:197-205 | Start: the earliest arrival from INT_MAX; end: the latest slice from 0 |
| `Logging.ErrorHandler.PrintLogGannt` | src/kernel/errorhandler.cpp:291-318 | Every entry is drawn exactly once at its own time, nothing else is drawn, and the cursor is never read past the end |
| `Logging.ErrorHandler.CoreDump` | src/kernel/errorhandler.cpp:174-288 | The log is drawn over its computed span |

## Left out

- The shell, command parsing, help texts, CSV output, memory and error dumps, colours and all printing; of the Gantt drawing only the cursor logic is kept.
- Opening and reading files: a program is its header and bytes, and a map from names to programs stands for the disk.
- The index table behind names (vMemory, vMemoryLookup): it is an exact map from names to blocks, although the program erases by index without renumbering later entries.
- Memory ownership across fork: a child shares its parent's region and either exit clears the marks, so the mark theorems are about runs without forks.
- Mutual exclusion by semaphores: the release rule does not deliver it (`Overrun.TwoInside`); the counting law and its exact bound take its place.
- calculateAverages: it adds to uninitialised numbers and is marked wrong in the source.
- Executions the language leaves undefined: they are excluded by `Defined` and `StepDefined`, and integers are unbounded within them.
- The opcodes STRB, AND, ORR, EOR and BX are the no-ops they are in the source; BL is a plain branch, without a link.
- The context loops run over seven registers of six-element arrays; the model copies six registers, PC and Z.
- The registers of the machine are 0 at power-on; the source leaves them unset until the first context switch.
- The failure return of allocateSharedMemory, which 0/1 marks never reach: the methods require that a large enough run exists.
- The identifier of a shared segment (two process numbers written together) and its two names, which nothing reads.
- Verbosity flags and the wall-clock timing in kernelExecuteProgram.
- printPrcGannt, getCpuLog, kernelCoreDump's choice of a log and kernelWriteOut.
- Policies.RoundRobinIsFcfs: compares processes without quantum counts and state tags, because `Tags.RoundRobinIsExactlyFcfs` adds both.
- Policies.FeedbackIsRoundRobin: compares processes without quantum counts, which only MLFQ keeps, and state tags.
- MemoryMap.RunMapOk: runs without forks and with a free extra cell at every opening, because otherwise it is false.
- Transparency.Transparent: programs that use SWI 0-2 and 10 only; forks, semaphores and shared memory let processes see one another.
- Sessions.SessionEnds: the bounds on processes and on instructions of each are hypotheses, because programs may loop for ever.
