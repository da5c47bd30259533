// A whole program, from its bytes to its result: the counting loop of asm/count2.asm, with any
// limit, alone and in the system.
module Counting {
  import opened Options
  import opened Machine
  import opened MachineLaws
  import opened Processes
  import opened System
  import opened Census
  import opened Timekeeping
  import opened MemoryMap
  import opened Transparency
  import opened Opcodes
  import RoundTrip

  // The bytes of the program, by offset; those not listed are 0.
  function CountByte(n: int, i: int): byte {
    match i
    // .WORD 10
    case 0 => 10
    // .WORD 1000
    case 4 => 0xE8 case 5 => 3
    // MVI R2 n
    case 8 => 22 case 9 => 2 case 10 => ByteOf(n, 0) case 11 => ByteOf(n, 1) case 12 => ByteOf(n, 2) case 13 => ByteOf(n, 3)
    // MVI R3 1
    case 14 => 22 case 15 => 3 case 16 => 1
    // LOOP CMP R1 R2
    case 20 => 12 case 21 => 1 case 22 => 2 case 23 => 32 case 24 => 32 case 25 => 32
    // BEQ EXIT
    case 26 => 11 case 27 => 44 case 31 => 32
    // ADD R1 R1 R3
    case 32 => 16 case 33 => 1 case 34 => 1 case 35 => 3 case 36 => 32 case 37 => 32
    // B LOOP
    case 38 => 7 case 39 => 20 case 43 => 32
    // EXIT MVI R2 55
    case 44 => 22 case 45 => 2 case 46 => 55
    // SWI 10
    case 50 => 20 case 51 => 10 case 55 => 32
    case _ => 0
  }

  function CountTo(n: int): seq<byte> {
    seq(56, i requires 0 <= i < 56 => CountByte(n, i))
  }

  ghost predicate Text(m: Memory, base: int, n: int) {
    Fits(n) && forall a :: base <= a < base + 56 ==> Val(m, a) == CountByte(n, a - base)
  }

  lemma SmallEncodes(m: Memory, a: int, v: byte)
    requires Val(m, a) == v && Val(m, a + 1) == 0 && Val(m, a + 2) == 0 && Val(m, a + 3) == 0
    ensures Encodes(m, a, v)
  {
  }

  // The operands of the text, as numbers.
  lemma Operands(m: Memory, base: int, n: int)
    requires Text(m, base, n)
    ensures Encodes(m, base + 10, n) && Encodes(m, base + 16, 1) && Encodes(m, base + 46, 55)
    ensures Encodes(m, base + 27, 44) && Encodes(m, base + 39, 20) && Encodes(m, base + 51, 10)
  {
    hide Encodes;
    hide ByteOf;
    assert Val(m, base + 10) == ByteOf(n, 0) && Val(m, base + 11) == ByteOf(n, 1);
    assert Val(m, base + 12) == ByteOf(n, 2) && Val(m, base + 13) == ByteOf(n, 3);
    StoredEncodes(m, base + 10, n);
    assert Val(m, base + 16) == 1 && Val(m, base + 17) == 0 && Val(m, base + 18) == 0 && Val(m, base + 19) == 0;
    SmallEncodes(m, base + 16, 1);
    assert Val(m, base + 46) == 55 && Val(m, base + 47) == 0 && Val(m, base + 48) == 0 && Val(m, base + 49) == 0;
    SmallEncodes(m, base + 46, 55);
    assert Val(m, base + 27) == 44 && Val(m, base + 28) == 0 && Val(m, base + 29) == 0 && Val(m, base + 30) == 0;
    SmallEncodes(m, base + 27, 44);
    assert Val(m, base + 39) == 20 && Val(m, base + 40) == 0 && Val(m, base + 41) == 0 && Val(m, base + 42) == 0;
    SmallEncodes(m, base + 39, 20);
    assert Val(m, base + 51) == 10 && Val(m, base + 52) == 0 && Val(m, base + 53) == 0 && Val(m, base + 54) == 0;
    SmallEncodes(m, base + 51, 10);
  }

  // The program is at offset `pc`, with i in R1, b in R2 and 1 in R3 (once set).
  ghost predicate Here(v: Solo, base: int, n: int, pc: int, i: int) {
    && Text(v.mem, base, n) && |v.cpu.reg| == 6 && v.cpu.pc == base + pc && v.cpu.reg[1] == i
    && (pc >= 14 ==> v.cpu.reg[2] == if pc == 50 then 55 else n) && (pc >= 20 ==> v.cpu.reg[3] == 1)
  }

  // The instruction at the PC does not stop the program and stays in its region.
  ghost predicate Goes(v: Solo, base: int) {
    !Stops(v, base) && Confined(v.cpu, v.mem, base, base + 56)
  }

  // ---------- one instruction ----------

  // The opcode and register bytes of the text.
  lemma Operators(m: Memory, base: int, n: int)
    requires Text(m, base, n)
    ensures Val(m, base + 8) == 22 && Val(m, base + 9) == 2 && Val(m, base + 14) == 22 && Val(m, base + 15) == 3
    ensures Val(m, base + 20) == 12 && Val(m, base + 21) == 1 && Val(m, base + 22) == 2 && Val(m, base + 26) == 11
    ensures Val(m, base + 32) == 16 && Val(m, base + 33) == 1 && Val(m, base + 34) == 1 && Val(m, base + 35) == 3
    ensures Val(m, base + 38) == 7 && Val(m, base + 44) == 22 && Val(m, base + 45) == 2 && Val(m, base + 50) == 20
  {
  }

  // MVI, twice at the start and once at the exit.
  lemma Sets(v: Solo, base: int, n: int, pc: int, i: int)
    requires Here(v, base, n, pc, i) && pc in {8, 14, 44}
    ensures Goes(v, base) && Here(SoloStep(v, base), base, n, pc + 6, i)
  {
    hide Text;
    hide Exec;
    hide Encodes;
    hide Confined;
    Operators(v.mem, base, n);
    Operands(v.mem, base, n);
    Immediates(v.cpu, v.mem, base, if pc == 8 then n else if pc == 14 then 1 else 55);
    StraightConfined(v.cpu, v.mem, base);
  }

  // Instructions without memory operands, inside the region.
  lemma StraightConfined(c: Cpu, m: Memory, base: int)
    requires Val(m, c.pc) in {7, 11, 12, 16, 22} && base <= c.pc <= base + 50
    ensures Confined(c, m, base, base + 56)
  {
  }

  // ADD R1 R1 R3.
  lemma Adds(v: Solo, base: int, n: int, i: int)
    requires Here(v, base, n, 32, i)
    ensures Goes(v, base) && Here(SoloStep(v, base), base, n, 38, i + 1)
  {
    hide Text;
    hide Exec;
    hide Confined;
    Operators(v.mem, base, n);
    Arithmetics(v.cpu, v.mem, base);
    StraightConfined(v.cpu, v.mem, base);
  }

  // B LOOP.
  lemma GoesBack(v: Solo, base: int, n: int, i: int)
    requires Here(v, base, n, 38, i)
    ensures Goes(v, base) && Here(SoloStep(v, base), base, n, 20, i)
  {
    hide Text;
    hide Exec;
    hide Encodes;
    hide Confined;
    Operators(v.mem, base, n);
    Operands(v.mem, base, n);
    Branches(v.cpu, v.mem, base, 20);
    StraightConfined(v.cpu, v.mem, base);
  }

  // CMP R1 R2; BEQ EXIT.
  lemma Tests(v: Solo, base: int, n: int, i: int)
    requires Here(v, base, n, 20, i)
    ensures var w := SoloStep(v, base);
            && Goes(v, base) && Goes(w, base)
            && Here(SoloStep(w, base), base, n, if i == n then 44 else 32, i)
  {
    hide Text;
    hide Exec;
    hide Encodes;
    hide Confined;
    Operators(v.mem, base, n);
    Operands(v.mem, base, n);
    CompareAndBranch(v.cpu, v.mem, base, 44);
    StraightConfined(v.cpu, v.mem, base);
    StraightConfined(Exec(v.cpu, v.mem, base).cpu, v.mem, base);
  }

  // SWI 10.
  lemma Halts(v: Solo, base: int, n: int, i: int)
    requires Here(v, base, n, 50, i)
    ensures Stops(v, base) && Confined(v.cpu, v.mem, base, base + 56)
    ensures SoloStep(v, base).cpu.reg == v.cpu.reg
  {
    hide Text;
    Operators(v.mem, base, n);
    Operands(v.mem, base, n);
    Interrupting(v.cpu, v.mem, base, 10);
    EncodedWord(v.mem, base + 51, 10);
    hide Encodes;
  }

  // ---------- the run alone ----------

  // The first k instructions go on inside the region.
  ghost predicate GoesFor(v: Solo, base: int, k: nat) {
    forall j: nat :: j < k ==> Goes(Alone(v, base, j), base)
  }

  lemma GoesOn(v: Solo, base: int, a: nat, b: nat)
    requires GoesFor(v, base, a) && GoesFor(Alone(v, base, a), base, b)
    ensures GoesFor(v, base, a + b) && Alone(v, base, a + b) == Alone(Alone(v, base, a), base, b)
  {
    hide Alone;
    hide Goes;
    AloneSum(v, base, a, b);
    forall j: nat | j < a + b
      ensures Goes(Alone(v, base, j), base)
    {
      if j >= a {
        AloneSum(v, base, a, j - a);
      }
    }
  }

  lemma GoesOne(v: Solo, base: int)
    requires Goes(v, base)
    ensures GoesFor(v, base, 1) && Alone(v, base, 1) == SoloStep(v, base)
  {
    assert Alone(v, base, 0) == v;
    hide SoloStep;
    assert Alone(SoloStep(v, base), base, 0) == SoloStep(v, base);
  }

  lemma GoesTwo(v: Solo, base: int)
    requires Goes(v, base) && Goes(SoloStep(v, base), base)
    ensures GoesFor(v, base, 2) && Alone(v, base, 2) == SoloStep(SoloStep(v, base), base)
  {
    hide Goes;
    hide GoesFor;
    hide SoloStep;
    hide Alone;
    GoesOne(v, base);
    GoesOne(SoloStep(v, base), base);
    GoesOn(v, base, 1, 1);
  }

  // Once round the loop: four instructions, one more in R1.
  lemma Lap(v: Solo, base: int, n: int, i: int)
    requires Here(v, base, n, 20, i) && i != n
    ensures GoesFor(v, base, 4) && Here(Alone(v, base, 4), base, n, 20, i + 1)
  {
    hide *;
    Tests(v, base, n, i);
    GoesTwo(v, base);
    var w := Alone(v, base, 2);
    Adds(w, base, n, i);
    GoesBack(SoloStep(w, base), base, n, i + 1);
    GoesTwo(w, base);
    GoesOn(v, base, 2, 2);
  }

  // From the loop with i in R1 to the halt: four instructions for every one still to count.
  lemma {:induction false} Loops(v: Solo, base: int, n: int, i: int)
    requires Here(v, base, n, 20, i) && i <= n
    ensures GoesFor(v, base, 4 * (n - i) + 3) && Here(Alone(v, base, 4 * (n - i) + 3), base, n, 50, n)
    decreases n - i
  {
    hide *;
    if i == n {
      Tests(v, base, n, i);
      GoesTwo(v, base);
      Sets(Alone(v, base, 2), base, n, 44, n);
      GoesOne(Alone(v, base, 2), base);
      GoesOn(v, base, 2, 1);
    } else {
      Lap(v, base, n, i);
      Loops(Alone(v, base, 4), base, n, i + 1);
      GoesOn(v, base, 4, 4 * (n - i - 1) + 3);
    }
  }

  // Run alone from its start with R1 = 0, the program keeps to its region and halts at its
  // (4n + 6)th instruction, not before, with R1 = n and R2 = 55, for every limit n >= 0.
  lemma Counts(v: Solo, base: int, n: nat)
    requires Here(v, base, n, 8, 0)
    ensures GoesFor(v, base, 4 * n + 5)
    ensures var w := Alone(v, base, 4 * n + 5);
            && Stops(w, base) && Confined(w.cpu, w.mem, base, base + 56)
            && var c := SoloStep(w, base).cpu;
               |c.reg| == 6 && c.reg[1] == n && c.reg[2] == 55
  {
    hide *;
    Start(v, base, n);
    var u := Alone(v, base, 2);
    Loops(u, base, n, 0);
    GoesOn(v, base, 2, 4 * n + 3);
    var w := Alone(v, base, 4 * n + 5);
    Halts(w, base, n, n);
    Registers(w, base, n);
  }

  lemma Registers(w: Solo, base: int, n: int)
    requires Here(w, base, n, 50, n)
    ensures |w.cpu.reg| == 6 && w.cpu.reg[1] == n && w.cpu.reg[2] == 55
  {
  }

  lemma Start(v: Solo, base: int, n: int)
    requires Here(v, base, n, 8, 0)
    ensures GoesFor(v, base, 2) && Here(Alone(v, base, 2), base, n, 20, 0)
  {
    hide *;
    Sets(v, base, n, 8, 0);
    Sets(SoloStep(v, base), base, n, 14, 0);
    GoesTwo(v, base);
  }

  // ---------- the run in the system ----------

  function Program(n: int, base: int): Image {
    Image(base, 56, 8, CountTo(n))
  }

  lemma KeepsToRegion(v: Solo, base: int, n: nat)
    requires Here(v, base, n, 8, 0)
    ensures KeepsToItself(v, base, 56)
  {
    hide Alone;
    hide Confined;
    hide Here;
    hide Stops;
    hide SoloStep;
    Counts(v, base, n);
    forall k: nat | forall j: nat :: j < k ==> !Stops(Alone(v, base, j), base)
      ensures Confined(Alone(v, base, k).cpu, Alone(v, base, k).mem, base, base + 56)
    {
      assert k <= 4 * n + 5;
      if k < 4 * n + 5 {
        assert Goes(Alone(v, base, k), base);
      }
    }
  }

  // The program, once loaded, stands at its start.
  lemma StandsAtStart(s: State, name: string, n: nat, base: int)
    requires Calm(s) && LoadCode(s, Program(n, base)) == 0 && Fits(n) && 0 <= base && base + 56 < |s.mem|
    ensures var t := LoadProgram(s, name, Program(n, base));
            Here(View(t, |s.pcbs|), base, n, 8, 0) && Get(t, |s.pcbs|).load == base && Get(t, |s.pcbs|).size == 56
  {
    var t, x := LoadProgram(s, name, Program(n, base)), |s.pcbs|;
    UnknownNotDone(s, x);
    assert Places(s, x) == 0;
    assert s.running != Some(x);
    assert View(t, x).cpu == ClearedCpu.(pc := 8 + base);
    forall a | base <= a < base + 56
      ensures Val(View(t, x).mem, a) == CountByte(n, a - base)
    {
      assert t.mem[a].val == CountTo(n)[a - base];
    }
  }

  // In the system: loaded at any time of any run in which the other programs keep to
  // themselves, under any policies, quanta, load order and arrivals, the program ends after
  // exactly 4n + 6 instructions of its own, with R1 = n and R2 = 55 in its block, or has not
  // yet executed that many.
  lemma CountsInSystem(before: seq<Event>, name: string, n: nat, base: int, after: seq<Event>)
    requires Fits(n) && 0 <= base && base + 56 < CAPACITY && ModestRun(Boot(), before)
    requires var s := Run(Boot(), before);
             LoadCode(s, Program(n, base)) == 0 && ModestRun(LoadProgram(s, name, Program(n, base)), after)
    ensures var s := Run(Boot(), before);
            var t, x := LoadProgram(s, name, Program(n, base)), |s.pcbs|;
            var w := Run(t, after);
            if Live(w, x) then Executed(t, w, x) <= 4 * n + 5
            else
              var c := ContextOf(w, x);
              Executed(t, w, x) == 4 * n + 6 && |c.reg| == 6 && c.reg[1] == n && c.reg[2] == 55
  {
    var s := Run(Boot(), before);
    var t, x := LoadProgram(s, name, Program(n, base)), |s.pcbs|;
    var w := Run(t, after);
    BootCalm();
    RunCalm(Boot(), before);
    MemorySize(before);
    StandsAtStart(s, name, n, base);
    KeepsToRegion(View(t, x), base, n);
    TransparentFromBoot(before, name, Program(n, base), after);
    hide Run;
    hide LoadProgram;
    Ends(t, w, x, base, n);
  }

  lemma Ends(t: State, w: State, x: nat, base: int, n: nat)
    requires Here(View(t, x), base, n, 8, 0) && Get(t, x).load == base && AsAlone(t, w, x)
    ensures if Live(w, x) then Executed(t, w, x) <= 4 * n + 5
            else
              var c := ContextOf(w, x);
              Executed(t, w, x) == 4 * n + 6 && |c.reg| == 6 && c.reg[1] == n && c.reg[2] == 55
  {
    hide Alone;
    hide SoloStep;
    hide Stops;
    hide Here;
    hide Confined;
    hide View;
    hide ContextOf;
    hide Live;
    var v, k := View(t, x), Executed(t, w, x);
    Counts(v, base, n);
    if !Live(w, x) {
      assert forall j: nat :: j < 4 * n + 5 ==> Goes(Alone(v, base, j), base);
      AloneSum(v, base, 4 * n + 5, 1);
      GoesLast(Alone(v, base, 4 * n + 5), base);
    }
  }

  lemma GoesLast(v: Solo, base: int)
    ensures Alone(v, base, 1) == SoloStep(v, base)
  {
    hide SoloStep;
    assert Alone(SoloStep(v, base), base, 0) == SoloStep(v, base);
  }

  lemma MemorySize(es: seq<Event>)
    ensures |Run(Boot(), es).mem| == CAPACITY
  {
    SameSize(Boot(), es);
  }

  lemma {:induction false} SameSize(s: State, es: seq<Event>)
    ensures |Run(s, es).mem| == |s.mem|
    decreases |es|
  {
    if es != [] {
      EventSize(s, es[0]);
      hide Apply;
      SameSize(Apply(s, es[0]), es[1..]);
    }
  }

  lemma EventSize(s: State, e: Event)
    ensures |Apply(s, e).mem| == |s.mem|
  {
    match e
    case Tick(p) =>
      RoundTrip.CallVals(p, s);
      var t := Prepare(p, s);
      if t.running.Some? {
        ExecWrites(t.cpu, t.mem, Get(t, t.running.value).load);
      }
      hide Step;
      hide Prepare;
    case Arrive(name, i) =>
    case NewSemaphore(value, one, two) =>
    case OpenSegment(size, one, two) => OpenVals(s, size, one, two);
    case Log =>
  }
}
