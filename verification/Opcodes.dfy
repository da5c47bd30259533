// What every opcode computes, read off the bytes in memory: the instruction set of the CPU
// stated without the decoder (src/hardware/vm.cpp).
module Opcodes {
  import opened Machine
  import opened MachineLaws

  // The four bytes at `a` are the 32-bit value `v` in little-endian two's complement.
  predicate Encodes(m: Memory, a: int, v: int) {
    Fits(v) &&
    (v - (Val(m, a) + Val(m, a + 1) * 0x100 + Val(m, a + 2) * 0x1_0000 + Val(m, a + 3) * 0x100_0000)) % 0x1_0000_0000 == 0
  }

  lemma EncodedWord(m: Memory, a: int, v: int)
    requires Encodes(m, a, v)
    ensures Word(m, a) == v
  {
    var u := Val(m, a) + Val(m, a + 1) * 0x100 + Val(m, a + 2) * 0x1_0000 + Val(m, a + 3) * 0x100_0000;
    assert 0 <= u < 0x1_0000_0000;
    assert -0x1_8000_0000 < v - u < 0x8000_0000;
  }

  // A cycle of one tick and code 0 after which register `d` holds `v`, every other register, Z
  // and memory are as before, and the next instruction is due.
  predicate Gives(c: Cpu, m: Memory, base: int, d: int, v: int) {
    var o := Exec(c, m, base);
    && o.code == 0 && o.ticks == 1 && o.mem == m && o.cpu.pc == c.pc + 6 && o.cpu.z == c.z && |o.cpu.reg| == 6
    && forall r :: 0 <= r < 6 ==> o.cpu.reg[r] == if r == d then v else c.reg[r]
  }

  // ---------- arithmetic ----------

  // q is x / y rounded toward zero: the remainder is smaller than y and has the sign of x.
  predicate Truncates(x: int, y: int, q: int) {
    var r := x - q * y;
    && (if y < 0 then y < r < -y else -y < r < y)
    && (r == 0 || (r < 0 <==> x < 0))
  }

  // ADD, SUB, MUL, DIV: opcode, destination, left, right.
  lemma Arithmetics(c: Cpu, m: Memory, base: int)
    requires |c.reg| == 6 && Val(m, c.pc + 1) < 6 && Val(m, c.pc + 2) < 6 && Val(m, c.pc + 3) < 6
    ensures var d, x, y := Val(m, c.pc + 1), c.reg[Val(m, c.pc + 2)], c.reg[Val(m, c.pc + 3)];
            && (Val(m, c.pc) == 16 ==> Gives(c, m, base, d, x + y))
            && (Val(m, c.pc) == 17 ==> Gives(c, m, base, d, x - y))
            && (Val(m, c.pc) == 18 ==> Gives(c, m, base, d, x * y))
            && (Val(m, c.pc) == 19 && y != 0 ==> exists q :: Truncates(x, y, q) && Gives(c, m, base, d, q))
  {
    var d, x, y := Val(m, c.pc + 1), c.reg[Val(m, c.pc + 2)], c.reg[Val(m, c.pc + 3)];
    if Val(m, c.pc) == 19 && y != 0 {
      QuotientTruncates(x, y);
      assert Gives(c, m, base, d, Quotient(x, y));
    }
  }

  lemma QuotientTruncates(x: int, y: int)
    requires y != 0
    ensures Truncates(x, y, Quotient(x, y))
  {
    var a, b := if x < 0 then -x else x, if y < 0 then -y else y;
    var k := a / b;
    assert a == k * b + a % b;
    if (x < 0) == (y < 0) {
      assert Quotient(x, y) == k;
      assert y < 0 ==> k * y == -(k * b);
    } else {
      assert Quotient(x, y) == -k;
      assert (-k) * y == -(k * y);
      assert y < 0 ==> k * y == -(k * b);
    }
  }

  // The truncated quotient is the only number that meets its description.
  lemma TruncatesOnce(x: int, y: int, p: int, q: int)
    requires y != 0 && Truncates(x, y, p) && Truncates(x, y, q)
    ensures p == q
  {
    var e := p - q;
    assert e * y == p * y - q * y;
    if y < 0 {
      assert e * -y == -(e * y);
      AtLeast(e, -y);
    } else {
      AtLeast(e, y);
    }
  }

  lemma AtLeast(e: int, b: int)
    requires b > 0
    ensures (e >= 1 ==> e * b >= b) && (e <= -1 ==> e * b <= -b)
  {
    if e <= -1 {
      assert (-e - 1) * b >= 0;
      assert e * b == -b - (-e - 1) * b;
    }
  }

  // ---------- moving data ----------

  // MOV and LDRB, on the registers named by the next two bytes.
  lemma Moves(c: Cpu, m: Memory, base: int)
    requires |c.reg| == 6 && Val(m, c.pc + 1) < 6 && Val(m, c.pc + 2) < 6
    ensures var d, x := Val(m, c.pc + 1), c.reg[Val(m, c.pc + 2)];
            && (Val(m, c.pc) == 1 ==> Gives(c, m, base, d, x))
            && (Val(m, c.pc) == 5 ==> Gives(c, m, base, d, Val(m, x)))
  {
  }

  // MVI and ADR, with a four-byte operand.
  lemma Immediates(c: Cpu, m: Memory, base: int, v: int)
    requires |c.reg| == 6 && Val(m, c.pc + 1) < 6 && Encodes(m, c.pc + 2, v)
    ensures var d := Val(m, c.pc + 1);
            && (Val(m, c.pc) == 22 ==> Gives(c, m, base, d, v))
            && (Val(m, c.pc) == 0 ==> Gives(c, m, base, d, v + base))
  {
    EncodedWord(m, c.pc + 2, v);
    hide Encodes;
  }

  // LDR: the word at the address, or a fault that changes nothing when its first cell is unmarked.
  lemma Loads(c: Cpu, m: Memory, base: int, v: int)
    requires |c.reg| == 6 && Val(m, c.pc + 1) < 6 && Val(m, c.pc + 2) < 6 && Val(m, c.pc) == 4
    requires Encodes(m, c.reg[Val(m, c.pc + 2)], v)
    ensures if Marked(m, c.reg[Val(m, c.pc + 2)]) then Gives(c, m, base, Val(m, c.pc + 1), v)
            else Exec(c, m, base) == Outcome(c, m, 1, HALTED)
  {
    EncodedWord(m, c.reg[Val(m, c.pc + 2)], v);
    hide Encodes;
  }

  // STR: when its four cells are marked they hold the value and nothing else has changed;
  // otherwise the cycle faults with code 10, after storing up to the first unmarked cell.
  lemma Storing(c: Cpu, m: Memory, base: int)
    requires |c.reg| == 6 && Val(m, c.pc + 1) < 6 && Val(m, c.pc + 2) < 6 && Val(m, c.pc) == 2
    requires Fits(c.reg[Val(m, c.pc + 1)])
    ensures var o, v, a := Exec(c, m, base), c.reg[Val(m, c.pc + 1)], c.reg[Val(m, c.pc + 2)];
            && o.ticks == 1 && SameMarks(m, o.mem)
            && (forall x :: 0 <= x < |m| && !(a <= x < a + 4) ==> o.mem[x] == m[x])
            && if Marked(m, a) && Marked(m, a + 1) && Marked(m, a + 2) && Marked(m, a + 3)
               then o.code == 0 && o.cpu == c.(pc := c.pc + 6) && Encodes(o.mem, a, v)
               else o.code == HALTED && o.cpu == c
  {
    var v, a := c.reg[Val(m, c.pc + 1)], c.reg[Val(m, c.pc + 2)];
    StoredBytes(m, a, v);
    hide StoreBytes;
    hide Encodes;
  }

  lemma StoredBytes(m: Memory, a: int, v: int)
    requires Fits(v)
    ensures var (n, ok) := StoreBytes(m, a, v, 0);
            && SameMarks(m, n)
            && (forall x :: 0 <= x < |m| && !(a <= x < a + 4) ==> n[x] == m[x])
            && (ok <==> Marked(m, a) && Marked(m, a + 1) && Marked(m, a + 2) && Marked(m, a + 3))
            && (ok ==> Encodes(n, a, v))
  {
    StoreEffect(m, a, v, 0);
    var k, n := Reach(m, a, 0), StoreBytes(m, a, v, 0).0;
    assert k < 4 ==> !Marked(m, a + k);
    hide StoreBytes;
    hide Encodes;
    if k == 4 {
      assert Marked(m, a + 0);
      assert Val(n, a + 0) == ByteOf(v, 0) && Val(n, a + 1) == ByteOf(v, 1);
      assert Val(n, a + 2) == ByteOf(v, 2) && Val(n, a + 3) == ByteOf(v, 3);
      StoredEncodes(n, a, v);
    }
  }

  lemma StoredEncodes(n: Memory, a: int, v: int)
    requires Fits(v) && Val(n, a) == ByteOf(v, 0) && Val(n, a + 1) == ByteOf(v, 1)
    requires Val(n, a + 2) == ByteOf(v, 2) && Val(n, a + 3) == ByteOf(v, 3)
    ensures Encodes(n, a, v)
  {
    BytesOfWord(v);
  }

  // ---------- comparing and branching ----------

  // Whether a branch with opcode `op` is taken after comparing x with y: B and BL always, BNE,
  // BGT, BLT and BEQ by the order of the two numbers.
  predicate Takes(op: int, x: int, y: int) {
    || op == 7 || op == 21
    || (op == 8 && x != y) || (op == 9 && x > y) || (op == 10 && x < y) || (op == 11 && x == y)
  }

  predicate IsBranch(op: int) {
    op in {7, 21, 8, 9, 10, 11}
  }

  // A CMP of registers x and y and the branch that follows it: the branch goes to its offset
  // from the load address exactly when the two registers are in the order its opcode names,
  // and otherwise to the instruction after it. No register and no cell changes.
  lemma CompareAndBranch(c: Cpu, m: Memory, base: int, offset: int)
    requires |c.reg| == 6 && Val(m, c.pc) == 12 && Val(m, c.pc + 1) < 6 && Val(m, c.pc + 2) < 6
    requires IsBranch(Val(m, c.pc + 6)) && Encodes(m, c.pc + 7, offset)
    ensures var x, y := c.reg[Val(m, c.pc + 1)], c.reg[Val(m, c.pc + 2)];
            var o := Exec(c, m, base);
            var b := Exec(o.cpu, o.mem, base);
            && o.code == 0 && o.ticks == 1 && o.mem == m && o.cpu.reg == c.reg && o.cpu.pc == c.pc + 6
            && b.code == 0 && b.ticks == 1 && b.mem == m && b.cpu.reg == c.reg && b.cpu.z == o.cpu.z
            && b.cpu.pc == if Takes(Val(m, c.pc + 6), x, y) then offset + base else c.pc + 12
  {
    var x, y := c.reg[Val(m, c.pc + 1)], c.reg[Val(m, c.pc + 2)];
    assert Exec(c, m, base) == Next(c.(z := x - y), m);
    Branches(c.(z := x - y, pc := c.pc + 6), m, base, offset);
  }

  // A branch on its own: it compares Z with 0.
  lemma Branches(c: Cpu, m: Memory, base: int, offset: int)
    requires IsBranch(Val(m, c.pc)) && Encodes(m, c.pc + 1, offset)
    ensures Exec(c, m, base)
         == Outcome(c.(pc := if Takes(Val(m, c.pc), c.z, 0) then offset + base else c.pc + 6), m, 1, 0)
  {
    EncodedWord(m, c.pc + 1, offset);
    hide Encodes;
  }

  // ---------- interrupts and the rest ----------

  // SWI n: two ticks and code 20 + n for n = 0..7, two ticks and code 10 for n = 10, and nothing
  // for any other n; the registers, Z and memory stay, and PC goes on.
  lemma Interrupting(c: Cpu, m: Memory, base: int, n: int)
    requires Val(m, c.pc) == 20 && Encodes(m, c.pc + 1, n)
    ensures Exec(c, m, base)
         == Outcome(c.(pc := c.pc + 6), m, if 0 <= n <= 7 || n == 10 then 2 else 1,
                    if n == 10 then 10 else if 0 <= n <= 7 then 20 + n else 0)
  {
    EncodedWord(m, c.pc + 1, n);
    hide Encodes;
  }

  // STRB, BX, AND, ORR, EOR and unknown opcodes do nothing but go on.
  lemma Idles(c: Cpu, m: Memory, base: int)
    requires Val(m, c.pc) in {3, 6, 13, 14, 15} || Val(m, c.pc) >= 23
    ensures Exec(c, m, base) == Outcome(c.(pc := c.pc + 6), m, 1, 0)
  {
  }
}
