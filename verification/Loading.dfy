// Loading programs and finding room for shared segments (src/kernel/loader.cpp).
module Loading {
  import opened Options
  import opened Machine
  import opened Processes
  import opened System
  import opened Hardware
  import MemoryMap

  // The header is a real one: the region lies in memory when it passes the overflow check.
  predicate Proper(i: Image) {
    0 <= i.load && 0 <= i.size && i.load + i.size != CAPACITY
  }

  class Loader {
    const machine: VirtualMachine
    var currentIdCount: nat

    constructor (machine: VirtualMachine)
      ensures this.machine == machine && currentIdCount == 0
    {
      this.machine := machine;
      currentIdCount := 0;
    }

    method VerifyMemoryIsUnoccupied(load: int, size: int) returns (free: bool)
      requires 0 <= load && 0 <= size && load + size < machine.ram.mem.Length
      ensures free <==> !Occupied(machine.ram.mem[..], load, load + size)
    {
      for i := load to load + size + 1
        invariant forall a :: load <= a < i ==> !machine.ram.mem[a].marked
      {
        if machine.ram.mem[i].marked {
          assert machine.ram.mem[..][i].marked;
          return false;
        }
      }
      return true;
    }

    // The loop that reads the file's bytes into memory; a short file leaves the other cells.
    method ReadBytes(image: Image)
      requires Proper(image) && image.load + image.size < machine.ram.mem.Length
      modifies machine.ram.mem
      ensures machine.ram.mem[..] == Written(old(machine.ram.mem[..]), image)
    {
      ghost var was := machine.ram.mem[..];
      for i := image.load to image.load + image.size + 1
        invariant forall a :: 0 <= a < machine.ram.mem.Length ==>
          machine.ram.mem[a] == if a < i then Written(was, image)[a] else was[a]
      {
        if i - image.load < |image.bytes| {
          machine.ram.mem[i] := machine.ram.mem[i].(val := image.bytes[i - image.load]);
        }
      }
      assert forall a :: 0 <= a < machine.ram.mem.Length ==> machine.ram.mem[..][a] == Written(was, image)[a];
    }

    // 0: the bytes are in memory; 200, 201, 202: not found, overflow, occupied, and nothing changed.
    method LoadProgram(file: Option<Image>) returns (code: int)
      requires machine.ram.mem.Length == CAPACITY && (file.Some? ==> Proper(file.value))
      modifies machine.ram.mem
      ensures file.None? ==> code == 200
      ensures file.Some? ==>
                var i := file.value;
                && (code == 201 <==> i.load + i.size > CAPACITY)
                && (code == 202 <==> i.load + i.size <= CAPACITY && Occupied(old(machine.ram.mem[..]), i.load, i.load + i.size))
                && (code == 0 || code == 201 || code == 202)
      ensures machine.ram.mem[..] == if code == 0 then Written(old(machine.ram.mem[..]), file.value) else old(machine.ram.mem[..])
    {
      if file.None? {
        return 200;
      }
      var image := file.value;
      if image.load + image.size > CAPACITY {
        return 201;
      }
      var free := VerifyMemoryIsUnoccupied(image.load, image.size);
      if !free {
        return 202;
      }
      ReadBytes(image);
      return 0;
    }

    method AllocateMemory(process: Pcb)
      requires process.pLoadAddress <= process.pLoadAddress + process.pSize ==>
                 0 <= process.pLoadAddress && process.pLoadAddress + process.pSize < machine.ram.mem.Length
      modifies machine.ram.mem
      ensures machine.ram.mem[..]
           == SetMarks(old(machine.ram.mem[..]), process.pLoadAddress, process.pLoadAddress + process.pSize, true)
    {
      machine.ram.MarkCells(process.pLoadAddress, process.pLoadAddress + process.pSize, true);
    }

    // The first-fit scan, as the program writes it: `location` is where the current run of
    // `count` free cells starts. It finds the lowest address where `size` free cells start and
    // reads no cell past the last one.
    method Scan(size: int) returns (location: nat)
      requires machine.ram.mem.Length == CAPACITY && FirstFit(machine.ram.mem[..], size, 0).Some?
      ensures FirstFit(machine.ram.mem[..], size, 0) == Some(location)
    {
      ghost var m := machine.ram.mem[..];
      ghost var fit := FirstFit(m, size, 0).value;
      MemoryMap.FirstFitLeast(m, size, 0);
      assert FreeRun(m, fit, size) && (size <= 0 ==> FreeRun(m, 0, size));
      location := 0;
      var count := 0;
      var i := 0;
      while i <= CAPACITY
        invariant 0 <= count <= i <= fit + (if size < 0 then 0 else size)
        invariant i - count <= fit && (count > 0 ==> location == i - count)
        invariant forall a :: i - count <= a < i ==> !m[a].marked
        invariant forall a :: 0 <= a < i - count ==> !FreeRun(m, a, size)
        invariant count > 0 ==> count <= size
      {
        if count == 0 {
          location := i;
        }
        if count >= size {
          break;
        }
        if machine.ram.mem[i].marked {
          count := 0;
        } else {
          count := count + 1;
        }
        i := i + 1;
      }
      assert FreeRun(m, location, size);
    }

    // Finds and marks room for a shared segment of `size` instructions (and one cell more).
    method AllocateSharedMemory(size: int) returns (location: nat)
      requires machine.ram.mem.Length == CAPACITY && FirstFit(machine.ram.mem[..], 6 * size, 0).Some?
      requires FirstFit(machine.ram.mem[..], 6 * size, 0).value + 6 * size < CAPACITY
      modifies machine.ram.mem
      ensures FirstFit(old(machine.ram.mem[..]), 6 * size, 0) == Some(location)
      ensures machine.ram.mem[..] == SetMarks(old(machine.ram.mem[..]), location, location + 6 * size, true)
    {
      location := Scan(size * 6);
      machine.ram.MarkCells(location, location + size * 6, true);
    }

    // A new block with the next process number, known by its name.
    method CreatePcb(load: int, size: int, first: int, arrival: int, filePath: string) returns (pPcb: Pcb)
      modifies this`currentIdCount, machine.ram`table, machine.ram`lookup
      ensures fresh(pPcb) && pPcb.id == |old(machine.ram.table)| && pPcb.sharedMemory == null && |pPcb.Reg| == 6
      ensures pPcb.Image() == Loaded(filePath, old(currentIdCount), load, size, first, arrival)
      ensures currentIdCount == old(currentIdCount) + 1
      ensures machine.ram.table == old(machine.ram.table) + [pPcb]
      ensures machine.ram.lookup == old(machine.ram.lookup)[filePath := pPcb]
    {
      pPcb := new Pcb(|machine.ram.table|, filePath, currentIdCount, load, size, first, arrival);
      machine.ram.table := machine.ram.table + [pPcb];
      machine.ram.lookup := machine.ram.lookup[filePath := pPcb];
      currentIdCount := currentIdCount + 1;
    }
  }
}
