// Shared segments, process control blocks and the virtual machine as the program keeps them:
// objects updated in place (src/hardware/shm.h, src/hardware/pcb.h, src/hardware/vm.h, ram.h).
module Hardware {
  import opened Options
  import opened Machine
  import opened MachineLaws
  import opened Processes
  import System

  // `id` is the handle of the object: how many of its kind were created before it.
  class Shm {
    ghost const id: nat
    var sLoadAddress: int
    var sSize: int
    var sLinkedPrcCount: int

    constructor (ghost id: nat, size: int, address: int)
      ensures this.id == id && Image() == System.Segment(address, size, 0)
    {
      this.id := id;
      sSize := size;
      sLoadAddress := address;
      sLinkedPrcCount := 0;
    }

    function Image(): System.Segment
      reads this
    {
      System.Segment(sLoadAddress, sSize, sLinkedPrcCount)
    }
  }

  class Pcb {
    ghost const id: nat
    const name: string
    const pId: int
    const pLoadAddress: int
    const pSize: int
    const pFirstInstruction: int
    var pArrivalTime: int
    var pTerminationTime: int
    var cpuTimeSlices: seq<int>
    var wait: int
    var response: int
    var turnAround: int
    var pPriority: int
    var pQuantumCount: int
    var semId: int
    var pState: Tag
    var sharedMemory: Shm?
    var pChild: Pcb?
    var Reg: seq<int>
    var PC: int
    var Z: int

    function Context(): Cpu
      reads this
    {
      Cpu(Reg, PC, Z)
    }

    ghost function Image(): Process
      reads this
    {
      Process(name, pId, pLoadAddress, pSize, pFirstInstruction,
              pArrivalTime, pTerminationTime, cpuTimeSlices, wait, response, turnAround,
              pPriority, pQuantumCount, semId, pState,
              if sharedMemory == null then None else Some(sharedMemory.id),
              if pChild == null then None else Some(pChild.id), Context())
    }

    // The block of a loaded program.
    constructor (ghost id: nat, filePath: string, pId: int, load: int, size: int, first: int, arrival: int)
      ensures this.id == id && Image() == Loaded(filePath, pId, load, size, first, arrival)
      ensures sharedMemory == null && pChild == null
    {
      this.id := id;
      name := filePath;
      this.pId := pId;
      pLoadAddress := load;
      pSize := size;
      pFirstInstruction := first;
      pArrivalTime := arrival;
      pTerminationTime, wait, response, turnAround := 0, 0, 0, 0;
      cpuTimeSlices := [];
      pPriority, pQuantumCount, semId := 0, 0, -1;
      pState := Created;
      sharedMemory := null;
      pChild := null;
      Reg := [0, 0, 0, 0, 0, 0];
      PC := first + load;
      Z := 0;
    }

    // The copy constructor used by fork.
    constructor Copy(ghost id: nat, pcb: Pcb)
      ensures this.id == id && Image() == Child(pcb.Image(), 0).(cpu := ClearedCpu.(pc := pcb.PC))
      ensures sharedMemory == null && pChild == null
    {
      this.id := id;
      name := pcb.name + ".child";
      pId := pcb.pId + 1;
      pLoadAddress := pcb.pLoadAddress;
      pSize := pcb.pSize;
      pFirstInstruction := pcb.pFirstInstruction;
      pArrivalTime, pTerminationTime, wait, response, turnAround := 0, 0, 0, 0, 0;
      cpuTimeSlices := [];
      pPriority, pQuantumCount, semId := 0, 0, -1;
      pState := Created;
      sharedMemory := null;
      pChild := null;
      Reg := [0, 0, 0, 0, 0, 0];
      PC := pcb.PC;
      Z := 0;
    }

    method UpdateState(newState: Tag)
      modifies this`pState
      ensures Image() == old(Image()).(tag := newState)
    {
      pState := newState;
    }

    method CalculateWait(clockImage: int)
      modifies this`wait
      ensures var gap := clockImage - LastSlice(old(Image())) - 1;
              Image() == old(Image()).(wait := if gap > 0 then old(wait) + gap else old(wait))
    {
      var lastTimeSlice := if cpuTimeSlices == [] then pArrivalTime else cpuTimeSlices[|cpuTimeSlices| - 1];
      var gap := clockImage - lastTimeSlice - 1;
      if gap > 0 {
        wait := wait + gap;
      }
    }

    method CaptureTimeSlice(clockImage: int)
      modifies this`wait, this`cpuTimeSlices
      ensures Image() == Capture(old(Image()), clockImage)
    {
      CalculateWait(clockImage);
      cpuTimeSlices := cpuTimeSlices + [clockImage];
    }

    method PromotePriority()
      modifies this`pPriority, this`pQuantumCount
      ensures Image() == Promote(old(Image()))
    {
      if pPriority > 0 {
        pPriority := pPriority - 1;
      }
      pQuantumCount := 0;
    }

    method DemotePriority()
      modifies this`pPriority, this`pQuantumCount
      ensures Image() == Demote(old(Image()))
    {
      if pPriority < 2 {
        pPriority := pPriority + 1;
      }
      pQuantumCount := 0;
    }

    method IncrementQuantumCount()
      modifies this`pQuantumCount
      ensures Image() == old(Image()).(quantumCount := old(pQuantumCount) + 1)
    {
      pQuantumCount := pQuantumCount + 1;
    }

    method CalculateResponse()
      requires cpuTimeSlices != []
      modifies this`response
      ensures Image() == old(Image()).(response := cpuTimeSlices[0] - pArrivalTime)
    {
      response := cpuTimeSlices[0] - pArrivalTime;
    }

    method CalculateTurnAround()
      modifies this`turnAround
      ensures Image() == old(Image()).(turnAround := pTerminationTime - pArrivalTime)
    {
      turnAround := pTerminationTime - pArrivalTime;
    }

    method OpenSharedMemory(ghost memId: nat, size: int, address: int) returns (newSharedMemory: Shm)
      modifies this`sharedMemory
      ensures fresh(newSharedMemory) && newSharedMemory.id == memId
      ensures newSharedMemory.Image() == System.Segment(address, size, 1)
      ensures sharedMemory == newSharedMemory && Image() == old(Image()).(shm := Some(memId))
    {
      newSharedMemory := new Shm(memId, size, address);
      sharedMemory := newSharedMemory;
      newSharedMemory.sLinkedPrcCount := newSharedMemory.sLinkedPrcCount + 1;
    }

    method LinkSharedMemory(newSharedMemory: Shm)
      modifies this`sharedMemory, newSharedMemory`sLinkedPrcCount
      ensures sharedMemory == newSharedMemory && Image() == old(Image()).(shm := Some(newSharedMemory.id))
      ensures newSharedMemory.Image() == old(newSharedMemory.Image()).(links := old(newSharedMemory.sLinkedPrcCount) + 1)
    {
      sharedMemory := newSharedMemory;
      newSharedMemory.sLinkedPrcCount := newSharedMemory.sLinkedPrcCount + 1;
    }
  }

  class Ram {
    const mem: array<Cell>
    // getPcb: from names to blocks.
    var lookup: map<string, Pcb>
    // Every block and every segment made so far, in order; `id` is the index.
    ghost var table: seq<Pcb>
    ghost var segments: seq<Shm>

    constructor ()
      ensures fresh(mem) && Empty()
    {
      mem := new Cell[CAPACITY](_ => Cell(0, false));
      lookup := map[];
      table, segments := [], [];
    }

    ghost predicate Empty()
      reads this, mem
    {
      mem.Length == CAPACITY && mem[..] == System.Boot().mem && lookup == map[] && table == [] && segments == []
    }

    method GetPcb(name: string) returns (pcb: Pcb?)
      ensures pcb == if name in lookup then lookup[name] else null
    {
      pcb := if name in lookup then lookup[name] else null;
    }

    // The loops over mark bits: cells lo..hi, both included.
    method MarkCells(lo: int, hi: int, marked: bool)
      requires lo <= hi ==> 0 <= lo && hi < mem.Length
      modifies mem
      ensures mem[..] == SetMarks(old(mem[..]), lo, hi, marked)
    {
      ghost var was := mem[..];
      var i := lo;
      while i <= hi
        invariant lo <= i && (lo <= hi ==> i <= hi + 1) && (lo > hi ==> i == lo)
        invariant forall a :: 0 <= a < mem.Length ==> mem[a] == if lo <= a < i then was[a].(marked := marked) else was[a]
      {
        mem[i] := mem[i].(marked := marked);
        i := i + 1;
      }
      ghost var after := SetMarks(was, lo, hi, marked);
      assert forall a :: 0 <= a < mem.Length ==> mem[..][a] == after[a];
    }
  }

  class VirtualMachine {
    const Reg: array<int>
    const ram: Ram
    var PC: int
    var Z: int
    var byteOffset: int
    var swiOpCode: int
    var clock: int

    constructor ()
      ensures Reg.Length == 6 && fresh(Reg) && fresh(ram) && fresh(ram.mem) && ram.Empty()
      ensures Context() == ClearedCpu && clock == 0
    {
      Reg := new int[6](_ => 0);
      ram := new Ram();
      PC, Z, byteOffset, swiOpCode, clock := 0, 0, 0, 0, 0;
    }

    function Context(): Cpu
      reads this, Reg
    {
      Cpu(Reg[..], PC, Z)
    }

    method Idle()
      modifies this`clock
      ensures clock == old(clock) + 1
    {
      clock := clock + 1;
    }

    // The signed word whose bytes start at `a`.
    function WordAt(a: int): (w: int)
      requires 0 <= a && a + 4 <= ram.mem.Length
      reads ram.mem
      ensures w == Word(ram.mem[..], a)
    {
      Signed(ram.mem[a + 3].val * 0x100_0000 + ram.mem[a + 2].val * 0x1_0000 + ram.mem[a + 1].val * 0x100 + ram.mem[a].val)
    }

    // The byte-store loop of STR.
    method StoreWord(strAddress: int, strValue: int) returns (ok: bool)
      requires StoreDefined(ram.mem[..], strAddress, 0)
      modifies ram.mem
      ensures (ram.mem[..], ok) == StoreBytes(old(ram.mem[..]), strAddress, strValue, 0)
    {
      ghost var was := ram.mem[..];
      for i := 0 to 4
        invariant StoreDefined(ram.mem[..], strAddress, i)
        invariant StoreBytes(ram.mem[..], strAddress, strValue, i) == StoreBytes(was, strAddress, strValue, 0)
      {
        if !ram.mem[strAddress + i].marked {
          return false;
        }
        ghost var before := ram.mem[..];
        ram.mem[strAddress + i] := ram.mem[strAddress + i].(val := ByteOf(strValue, i));
        assert ram.mem[..] == Poke(before, strAddress + i, ByteOf(strValue, i));
        DefinedSameMarks(before, ram.mem[..], strAddress, i + 1);
      }
      return true;
    }

    ghost predicate Ready(base: int)
      reads this, Reg, ram.mem
    {
      Reg.Length == 6 && Defined(Context(), ram.mem[..], base)
    }

    // ADD, SUB, MUL, DIV and CMP.
    method Arithmetic(opcode: int, ghost base: int)
      requires Ready(base) && opcode == ram.mem[PC].val && opcode in {16, 17, 18, 19, 12}
      modifies this`Z, Reg
      ensures Exec(old(Context()), ram.mem[..], base) == Next(Context(), ram.mem[..])
    {
      if opcode == 16 {
        Reg[ram.mem[PC + 1].val] := Reg[ram.mem[PC + 2].val] + Reg[ram.mem[PC + 3].val];
      } else if opcode == 17 {
        Reg[ram.mem[PC + 1].val] := Reg[ram.mem[PC + 2].val] - Reg[ram.mem[PC + 3].val];
      } else if opcode == 18 {
        Reg[ram.mem[PC + 1].val] := Reg[ram.mem[PC + 2].val] * Reg[ram.mem[PC + 3].val];
      } else if opcode == 19 {
        Reg[ram.mem[PC + 1].val] := Quotient(Reg[ram.mem[PC + 2].val], Reg[ram.mem[PC + 3].val]);
      } else {
        Z := Reg[ram.mem[PC + 1].val] - Reg[ram.mem[PC + 2].val];
      }
    }

    // MOV, MVI, ADR and LDRB.
    method MoveData(opcode: int, base: int)
      requires Ready(base) && opcode == ram.mem[PC].val && opcode in {1, 22, 0, 5}
      modifies this`byteOffset, Reg
      ensures Exec(old(Context()), ram.mem[..], base) == Next(Context(), ram.mem[..])
    {
      if opcode == 1 {
        Reg[ram.mem[PC + 1].val] := Reg[ram.mem[PC + 2].val];
      } else if opcode == 22 {
        Reg[ram.mem[PC + 1].val] := WordAt(PC + 2);
      } else if opcode == 0 {
        byteOffset := WordAt(PC + 2);
        Reg[ram.mem[PC + 1].val] := byteOffset + base;
      } else {
        Reg[ram.mem[PC + 1].val] := ram.mem[Reg[ram.mem[PC + 2].val]].val;
      }
    }

    // STR and LDR, which fault on unmarked cells.
    method AccessMemory(opcode: int, ghost base: int) returns (ok: bool)
      requires Ready(base) && opcode == ram.mem[PC].val && opcode in {2, 4}
      modifies Reg, ram.mem
      ensures Exec(old(Context()), old(ram.mem[..]), base)
           == if ok then Next(Context(), ram.mem[..]) else Outcome(Context(), ram.mem[..], 1, HALTED)
    {
      ok := true;
      if opcode == 2 {
        ok := StoreWord(Reg[ram.mem[PC + 2].val], Reg[ram.mem[PC + 1].val]);
      } else {
        var loadAddress := Reg[ram.mem[PC + 2].val];
        var loadValue := WordAt(loadAddress);
        if !ram.mem[loadAddress].marked {
          return false;
        }
        Reg[ram.mem[PC + 1].val] := loadValue;
      }
    }

    // B, BL and the conditional branches.
    method TakeBranch(opcode: int, base: int) returns (taken: bool)
      requires Ready(base) && opcode == ram.mem[PC].val && opcode in {7, 21, 8, 9, 10, 11}
      modifies this`PC, this`byteOffset
      ensures Exec(old(Context()), ram.mem[..], base)
           == if taken then Outcome(Context(), ram.mem[..], 1, 0) else Next(Context(), ram.mem[..])
    {
      byteOffset := WordAt(PC + 1);
      taken := opcode == 7 || opcode == 21 || (opcode == 8 && Z != 0) || (opcode == 9 && Z > 0)
               || (opcode == 10 && Z < 0) || (opcode == 11 && Z == 0);
      if taken {
        PC := byteOffset + base;
      }
    }

    // One cycle of the running process.
    method FetchDecodeExecute(process: Pcb) returns (code: int)
      requires Ready(process.pLoadAddress)
      modifies this, Reg, ram.mem
      ensures var o := Exec(old(Context()), old(ram.mem[..]), process.pLoadAddress);
              Context() == o.cpu && ram.mem[..] == o.mem && clock == old(clock) + o.ticks && code == o.code
    {
      var incrementPC := true;
      var opcode: int := ram.mem[PC].val;
      clock := clock + 1;

      if opcode in {16, 17, 18, 19, 12} {
        Arithmetic(opcode, process.pLoadAddress);
      } else if opcode in {1, 22, 0, 5} {
        MoveData(opcode, process.pLoadAddress);
      } else if opcode in {2, 4} {
        var ok := AccessMemory(opcode, process.pLoadAddress);
        if !ok {
          return HALTED;
        }
      } else if opcode in {7, 21, 8, 9, 10, 11} {
        var taken := TakeBranch(opcode, process.pLoadAddress);
        incrementPC := !taken;
      } else if opcode == 20 {
        swiOpCode := WordAt(PC + 1);
        if 0 <= swiOpCode <= 7 || swiOpCode == 10 {
          PC := PC + 6;
          clock := clock + 1;
          return if swiOpCode == 10 then HALTED else 20 + swiOpCode;
        }
      }

      if incrementPC {
        PC := PC + 6;
      }
      return 0;
    }
  }

  lemma {:induction false} DefinedSameMarks(m: Memory, n: Memory, a: int, i: nat)
    requires i <= 4 && SameMarks(m, n)
    ensures StoreDefined(m, a, i) <==> StoreDefined(n, a, i)
    decreases 4 - i
  {
    if i < 4 && 0 <= a + i < |m| && m[a + i].marked {
      DefinedSameMarks(m, n, a, i + 1);
    }
  }
}
