// The byte-coded CPU and its marked memory (src/hardware/vm.cpp, src/hardware/ram.h).
//
// This module gives the meaning of one fetch-decode-execute cycle as a function.
// The function is total: where the program has undefined behaviour (an address
// outside the array, a register byte of 6 or more, a division by zero, a result
// that does not fit 32 bits) it picks some value. `Defined` says when the cycle is
// meaningful, and the method that implements the cycle requires it.

module Options {
  datatype Option<+T> = None | Some(value: T)
}

module Machine {
  const CAPACITY: nat := 12288
  const PRINT_LIMIT: nat := 10240
  const QUOTE: nat := 34

  type byte = b: int | 0 <= b < 256

  // One memory cell: its byte and its mark bit.
  datatype Cell = Cell(val: byte, marked: bool)
  type Memory = seq<Cell>

  // The part of the CPU that a context switch saves and restores.
  datatype Cpu = Cpu(reg: seq<int>, pc: int, z: int)

  const ClearedCpu: Cpu := Cpu([0, 0, 0, 0, 0, 0], 0, 0)

  predicate Fits(x: int) {
    -0x8000_0000 <= x < 0x8000_0000
  }

  function Val(m: Memory, a: int): byte {
    if 0 <= a < |m| then m[a].val else 0
  }

  predicate Marked(m: Memory, a: int) {
    0 <= a < |m| && m[a].marked
  }

  // The cell at `a` gets byte `b`; its mark stays.
  function Poke(m: Memory, a: int, b: byte): Memory {
    if 0 <= a < |m| then m[a := m[a].(val := b)] else m
  }

  // Sets the marks of the inclusive interval [lo, hi].
  function SetMarks(m: Memory, lo: int, hi: int, b: bool): Memory {
    seq(|m|, i requires 0 <= i < |m| => if lo <= i <= hi then m[i].(marked := b) else m[i])
  }

  function Reg(c: Cpu, r: int): int {
    if 0 <= r < |c.reg| then c.reg[r] else 0
  }

  function SetReg(c: Cpu, r: int, v: int): Cpu {
    if 0 <= r < |c.reg| then c.(reg := c.reg[r := v]) else c
  }

  // ---------- 32-bit little-endian words ----------

  // (v >> 8k) & 0xFF of a 32-bit integer.
  function ByteOf(v: int, k: nat): byte {
    if k == 0 then v % 0x100
    else if k == 1 then v / 0x100 % 0x100
    else if k == 2 then v / 0x1_0000 % 0x100
    else v / 0x100_0000 % 0x100
  }

  function Signed(u: int): int {
    if u < 0x8000_0000 then u else u - 0x1_0000_0000
  }

  // The signed word whose lowest byte is at `a`.
  function Word(m: Memory, a: int): int {
    Signed(Val(m, a) + Val(m, a + 1) * 0x100 + Val(m, a + 2) * 0x1_0000 + Val(m, a + 3) * 0x100_0000)
  }

  // ---------- instructions ----------

  datatype ArithOp = Add | Sub | Mul | Div
  datatype Condition = Always | NotZero | Positive | Negative | Zero

  datatype Instr =
    | Arith(op: ArithOp, d: int, x: int, y: int)
    | Move(d: int, x: int)
    | MoveImm(d: int, v: int)
    | Address(d: int, offset: int)
    | Store(x: int, at: int)
    | Load(d: int, at: int)
    | LoadByte(d: int, at: int)
    | Branch(cond: Condition, offset: int)
    | Compare(x: int, y: int)
    | Interrupt(n: int)
    | Nop

  // The opcodes of vm.cpp:7-36. BX, STRB, AND, ORR, EOR and unknown opcodes do nothing.
  function Decode(m: Memory, pc: int): Instr {
    var op, a, b, c := Val(m, pc), Val(m, pc + 1), Val(m, pc + 2), Val(m, pc + 3);
    match op
    case 16 => Arith(Add, a, b, c)
    case 17 => Arith(Sub, a, b, c)
    case 18 => Arith(Mul, a, b, c)
    case 19 => Arith(Div, a, b, c)
    case 1 => Move(a, b)
    case 22 => MoveImm(a, Word(m, pc + 2))
    case 0 => Address(a, Word(m, pc + 2))
    case 2 => Store(a, b)
    case 4 => Load(a, b)
    case 5 => LoadByte(a, b)
    case 7 => Branch(Always, Word(m, pc + 1))
    case 21 => Branch(Always, Word(m, pc + 1))
    case 8 => Branch(NotZero, Word(m, pc + 1))
    case 9 => Branch(Positive, Word(m, pc + 1))
    case 10 => Branch(Negative, Word(m, pc + 1))
    case 11 => Branch(Zero, Word(m, pc + 1))
    case 12 => Compare(a, b)
    case 20 => Interrupt(Word(m, pc + 1))
    case _ => Nop
  }

  function Holds(cond: Condition, z: int): bool {
    match cond
    case Always => true
    case NotZero => z != 0
    case Positive => z > 0
    case Negative => z < 0
    case Zero => z == 0
  }

  // Division truncates toward zero.
  function Quotient(x: int, y: int): int {
    if y == 0 then 0
    else if (x < 0) == (y < 0) then (if x < 0 then -x else x) / (if y < 0 then -y else y)
    else -((if x < 0 then -x else x) / (if y < 0 then -y else y))
  }

  function Calc(op: ArithOp, x: int, y: int): int {
    match op
    case Add => x + y
    case Sub => x - y
    case Mul => x * y
    case Div => Quotient(x, y)
  }

  // Stores bytes i..3 of `v` at `a`, one at a time, stopping at the first unmarked cell.
  function StoreBytes(m: Memory, a: int, v: int, i: nat): (r: (Memory, bool))
    requires i <= 4
    decreases 4 - i
  {
    if i == 4 then (m, true)
    else if Marked(m, a + i) then StoreBytes(Poke(m, a + i, ByteOf(v, i)), a, v, i + 1)
    else (m, false)
  }

  // The result of a cycle: clock ticks used and the code handed to the scheduler.
  datatype Outcome = Outcome(cpu: Cpu, mem: Memory, ticks: int, code: int)

  const HALTED := 10
  const PRINT_INT := 20
  const PRINT := 21
  const INPUT := 22
  const FORK := 23
  const SHARED_ADDRESS := 24
  const ACQUIRE := 25
  const RELEASE := 26
  const WAIT := 27

  function Next(c: Cpu, m: Memory): Outcome {
    Outcome(c.(pc := c.pc + 6), m, 1, 0)
  }

  predicate Recognised(n: int) {
    0 <= n <= 7 || n == 10
  }

  function Perform(i: Instr, c: Cpu, m: Memory, base: int): Outcome {
    match i
    case Arith(op, d, x, y) => Next(SetReg(c, d, Calc(op, Reg(c, x), Reg(c, y))), m)
    case Move(d, x) => Next(SetReg(c, d, Reg(c, x)), m)
    case MoveImm(d, v) => Next(SetReg(c, d, v), m)
    case Address(d, offset) => Next(SetReg(c, d, offset + base), m)
    case Store(x, at) =>
      var (stored, ok) := StoreBytes(m, Reg(c, at), Reg(c, x), 0);
      if ok then Next(c, stored) else Outcome(c, stored, 1, HALTED)
    case Load(d, at) =>
      if Marked(m, Reg(c, at)) then Next(SetReg(c, d, Word(m, Reg(c, at))), m)
      else Outcome(c, m, 1, HALTED)
    case LoadByte(d, at) => Next(SetReg(c, d, Val(m, Reg(c, at))), m)
    case Branch(cond, offset) =>
      if Holds(cond, c.z) then Outcome(c.(pc := offset + base), m, 1, 0) else Next(c, m)
    case Compare(x, y) => Next(c.(z := Reg(c, x) - Reg(c, y)), m)
    case Interrupt(n) =>
      if Recognised(n) then Outcome(c.(pc := c.pc + 6), m, 2, if n == 10 then HALTED else 20 + n)
      else Next(c, m)
    case Nop => Next(c, m)
  }

  // One cycle of a process loaded at `base`.
  function Exec(c: Cpu, m: Memory, base: int): Outcome {
    Perform(Decode(m, c.pc), c, m, base)
  }

  // Where a string print that starts reading at `r` stops.
  function StringEnd(m: Memory, r: int): int
    decreases if r < PRINT_LIMIT then PRINT_LIMIT - r else 0
  {
    if Val(m, r) == QUOTE || r >= PRINT_LIMIT then r else StringEnd(m, r + 1)
  }

  // A string print leaves R0 at the closing quote; a character print changes nothing.
  function AfterPrint(c: Cpu, m: Memory): Cpu {
    if Val(m, Reg(c, 0)) == QUOTE then SetReg(c, 0, StringEnd(m, Reg(c, 0) + 1)) else c
  }

  // ---------- when a cycle is defined ----------

  // How many bytes the instruction with this opcode reads.
  function Width(op: int): nat {
    if op in {16, 17, 18, 19} then 4
    else if op in {22, 0} then 6
    else if op in {1, 2, 4, 5, 12} then 3
    else if op in {7, 21, 8, 9, 10, 11, 20} then 5
    else 1
  }

  predicate IsReg(r: int) {
    0 <= r < 6
  }

  // Every cell a store looks at, up to the first unmarked one, exists.
  predicate StoreDefined(m: Memory, a: int, i: nat)
    requires i <= 4
    decreases 4 - i
  {
    i < 4 ==> 0 <= a + i < |m| && (m[a + i].marked ==> StoreDefined(m, a, i + 1))
  }

  predicate PerformDefined(i: Instr, c: Cpu, m: Memory, base: int) {
    match i
    case Arith(op, d, x, y) =>
      && IsReg(d) && IsReg(x) && IsReg(y)
      && (op.Div? ==> Reg(c, y) != 0)
      && Fits(Calc(op, Reg(c, x), Reg(c, y)))
    case Move(d, x) => IsReg(d) && IsReg(x)
    case MoveImm(d, v) => IsReg(d)
    case Address(d, offset) => IsReg(d) && Fits(offset + base)
    case Store(x, at) =>
      IsReg(x) && IsReg(at) && StoreDefined(m, Reg(c, at), 0)
    case Load(d, at) => IsReg(d) && IsReg(at) && 0 <= Reg(c, at) && Reg(c, at) + 4 <= |m|
    case LoadByte(d, at) => IsReg(d) && IsReg(at) && 0 <= Reg(c, at) < |m|
    case Branch(cond, offset) => Holds(cond, c.z) ==> Fits(offset + base)
    case Compare(x, y) => IsReg(x) && IsReg(y) && Fits(Reg(c, x) - Reg(c, y))
    case Interrupt(n) => true
    case Nop => true
  }

  predicate Defined(c: Cpu, m: Memory, base: int) {
    && |c.reg| == 6
    && 0 <= c.pc && c.pc + Width(Val(m, c.pc)) <= |m|
    && PerformDefined(Decode(m, c.pc), c, m, base)
  }
}
