// What one cycle of the CPU may depend on and may change, and the store/load round trip.
module MachineLaws {
  import opened Machine

  // ---------- memory agreement ----------

  ghost predicate SameOn(m: Memory, n: Memory, lo: int, hi: int) {
    |m| == |n| && forall a :: 0 <= a < |m| && lo <= a <= hi ==> m[a] == n[a]
  }

  ghost predicate SameOff(m: Memory, n: Memory, lo: int, hi: int) {
    |m| == |n| && forall a :: 0 <= a < |m| && !(lo <= a <= hi) ==> m[a] == n[a]
  }

  ghost predicate SameMarks(m: Memory, n: Memory) {
    |m| == |n| && forall a :: 0 <= a < |m| ==> m[a].marked == n[a].marked
  }

  // ---------- stores ----------

  // How many of the cells a+i..a+3 a store writes: it stops at the first unmarked one.
  function Reach(m: Memory, a: int, i: nat): (k: nat)
    requires i <= 4
    ensures i <= k <= 4
    ensures forall x :: a + i <= x < a + k ==> Marked(m, x)
    ensures k < 4 ==> !Marked(m, a + k)
    decreases 4 - i
  {
    if i < 4 && Marked(m, a + i) then Reach(m, a, i + 1) else i
  }

  // A store writes the bytes of the value up to the first unmarked cell, and nothing else;
  // it never changes a mark, and it completes exactly when all four cells are marked.
  lemma {:induction false} StoreEffect(m: Memory, a: int, v: int, i: nat)
    requires i <= 4
    ensures var (n, ok) := StoreBytes(m, a, v, i);
            && SameMarks(m, n)
            && (ok <==> Reach(m, a, i) == 4)
            && (forall x :: 0 <= x < |m| && !(a + i <= x < a + Reach(m, a, i)) ==> n[x] == m[x])
            && (forall j :: i <= j < Reach(m, a, i) ==> Val(n, a + j) == ByteOf(v, j))
    decreases 4 - i
  {
    if i < 4 && Marked(m, a + i) {
      var p := Poke(m, a + i, ByteOf(v, i));
      StoreEffect(p, a, v, i + 1);
      ReachSameMarks(m, p, a, i + 1);
    }
  }

  lemma {:induction false} ReachSameMarks(m: Memory, n: Memory, a: int, i: nat)
    requires i <= 4 && SameMarks(m, n)
    ensures Reach(m, a, i) == Reach(n, a, i)
    decreases 4 - i
  {
    if i < 4 && Marked(m, a + i) {
      ReachSameMarks(m, n, a, i + 1);
    }
  }

  // The four bytes of a 32-bit signed value put together again give the value.
  lemma BytesOfWord(v: int)
    requires Fits(v)
    ensures Signed(ByteOf(v, 0) + ByteOf(v, 1) * 0x100 + ByteOf(v, 2) * 0x1_0000 + ByteOf(v, 3) * 0x100_0000) == v
  {
    var q1, q2, q3 := v / 0x100, v / 0x1_0000, v / 0x100_0000;
    assert q2 == q1 / 0x100;
    assert q3 == q2 / 0x100;
    assert v == q1 * 0x100 + v % 0x100;
    assert q1 == q2 * 0x100 + q1 % 0x100;
    assert q2 == q3 * 0x100 + q2 % 0x100;
    assert -128 <= q3 < 128;
    assert q3 % 0x100 == if q3 < 0 then q3 + 0x100 else q3;
  }

  // ---------- one cycle ----------

  // The cells a cycle may write: none, unless the instruction is a store.
  predicate MayWrite(c: Cpu, m: Memory, a: int) {
    var i := Decode(m, c.pc);
    i.Store? && Reg(c, i.at) <= a < Reg(c, i.at) + 4
  }

  // A cycle changes no mark and no unmarked byte, even when it faults half-way through a
  // store, and it writes only the four cells a store addresses.
  lemma ExecWrites(c: Cpu, m: Memory, base: int)
    ensures var n := Exec(c, m, base).mem;
            && SameMarks(m, n)
            && (forall a :: 0 <= a < |m| && (!m[a].marked || !MayWrite(c, m, a)) ==> n[a] == m[a])
  {
    var i := Decode(m, c.pc);
    if i.Store? {
      StoreEffect(m, Reg(c, i.at), Reg(c, i.x), 0);
    }
  }

  // A cycle returns 0, a halt, or the code of a recognised interrupt; only a recognised
  // interrupt takes two ticks.
  lemma CycleCodes(c: Cpu, m: Memory, base: int)
    ensures var i, o := Decode(m, c.pc), Exec(c, m, base);
            && (o.code == 0 || o.code == HALTED || 20 <= o.code <= 27)
            && o.ticks == (if i.Interrupt? && Recognised(i.n) then 2 else 1)
            && (o.code >= 20 ==> i == Interrupt(o.code - 20))
  {
  }

  // Fetch window, loads, stores and prints of the cycle all lie in [lo, hi], and the
  // interrupt, if any, is not one of fork, shared memory or semaphores (SWI 3-7).
  predicate Confined(c: Cpu, m: Memory, lo: int, hi: int) {
    && lo <= c.pc && c.pc + Width(Val(m, c.pc)) <= hi + 1
    && match Decode(m, c.pc)
       case Store(x, at) => lo <= Reg(c, at) && Reg(c, at) + 3 <= hi
       case Load(d, at) => lo <= Reg(c, at) && Reg(c, at) + 3 <= hi
       case LoadByte(d, at) => lo <= Reg(c, at) <= hi
       case Interrupt(n) =>
         && !(3 <= n <= 7)
         && (n == 1 ==> lo <= Reg(c, 0) <= hi && (Val(m, Reg(c, 0)) == QUOTE ==> StringEnd(m, Reg(c, 0) + 1) <= hi))
       case _ => true
  }

  lemma DecodeLocal(m: Memory, n: Memory, pc: int, lo: int, hi: int)
    requires SameOn(m, n, lo, hi) && lo <= pc && pc + Width(Val(m, pc)) <= hi + 1
    ensures Decode(m, pc) == Decode(n, pc) && Val(m, pc) == Val(n, pc)
  {
    assert forall a :: lo <= a <= hi ==> Val(m, a) == Val(n, a);
  }

  lemma {:induction false} StoreLocal(m: Memory, n: Memory, a: int, v: int, i: nat, lo: int, hi: int)
    requires i <= 4 && SameOn(m, n, lo, hi) && lo <= a && a + 3 <= hi
    ensures StoreBytes(m, a, v, i).1 == StoreBytes(n, a, v, i).1
    ensures SameOn(StoreBytes(m, a, v, i).0, StoreBytes(n, a, v, i).0, lo, hi)
    decreases 4 - i
  {
    if i < 4 && Marked(m, a + i) {
      StoreLocal(Poke(m, a + i, ByteOf(v, i)), Poke(n, a + i, ByteOf(v, i)), a, v, i + 1, lo, hi);
    }
  }

  lemma {:induction false} StringEndLocal(m: Memory, n: Memory, r: int, lo: int, hi: int)
    requires SameOn(m, n, lo, hi) && lo <= r && StringEnd(m, r) <= hi
    ensures StringEnd(n, r) == StringEnd(m, r)
    decreases if r < PRINT_LIMIT then PRINT_LIMIT - r else 0
  {
    StringEndLater(m, r);
    assert Val(m, r) == Val(n, r);
    if Val(m, r) != QUOTE && r < PRINT_LIMIT {
      StringEndLocal(m, n, r + 1, lo, hi);
    }
  }

  lemma {:induction false} StringEndLater(m: Memory, r: int)
    ensures r <= StringEnd(m, r)
    decreases if r < PRINT_LIMIT then PRINT_LIMIT - r else 0
  {
    if Val(m, r) != QUOTE && r < PRINT_LIMIT {
      StringEndLater(m, r + 1);
    }
  }

  // A confined cycle sees only [lo, hi]: on two memories that agree there it does the same,
  // and it leaves everything outside alone.
  lemma ExecLocal(c: Cpu, m: Memory, n: Memory, base: int, lo: int, hi: int)
    requires SameOn(m, n, lo, hi) && Confined(c, m, lo, hi)
    ensures var o, p := Exec(c, m, base), Exec(c, n, base);
            && o.cpu == p.cpu && o.ticks == p.ticks && o.code == p.code
            && SameOn(o.mem, p.mem, lo, hi) && SameOff(o.mem, m, lo, hi)
  {
    DecodeLocal(m, n, c.pc, lo, hi);
    ExecWrites(c, m, base);
    var i := Decode(m, c.pc);
    if i.Store? {
      StoreLocal(m, n, Reg(c, i.at), Reg(c, i.x), 0, lo, hi);
    }
  }

  lemma ConfinedLocal(c: Cpu, m: Memory, n: Memory, lo: int, hi: int)
    requires SameOn(m, n, lo, hi) && Confined(c, m, lo, hi)
    ensures Confined(c, n, lo, hi)
  {
    DecodeLocal(m, n, c.pc, lo, hi);
    if Decode(m, c.pc) == Interrupt(1) && Val(m, Reg(c, 0)) == QUOTE {
      StringEndLocal(m, n, Reg(c, 0) + 1, lo, hi);
    }
  }

  lemma PrintLocal(c: Cpu, m: Memory, n: Memory, lo: int, hi: int)
    requires SameOn(m, n, lo, hi) && lo <= Reg(c, 0) <= hi
    requires Val(m, Reg(c, 0)) == QUOTE ==> StringEnd(m, Reg(c, 0) + 1) <= hi
    ensures AfterPrint(c, m) == AfterPrint(c, n)
  {
    if Val(m, Reg(c, 0)) == QUOTE {
      StringEndLocal(m, n, Reg(c, 0) + 1, lo, hi);
    }
  }

  // ---------- stored words ----------

  // A store that completes leaves a word that reads back as the value wherever its four bytes
  // have been kept.
  lemma WordStored(m: Memory, a: int, v: int, n: Memory)
    requires Fits(v) && StoreBytes(m, a, v, 0).1
    requires forall j :: a <= j < a + 4 ==> Val(n, j) == Val(StoreBytes(m, a, v, 0).0, j)
    ensures Word(n, a) == v
  {
    var stored := StoreBytes(m, a, v, 0).0;
    StoreEffect(m, a, v, 0);
    assert Val(stored, a + 0) == ByteOf(v, 0) && Val(stored, a + 1) == ByteOf(v, 1);
    assert Val(stored, a + 2) == ByteOf(v, 2) && Val(stored, a + 3) == ByteOf(v, 3);
    BytesOfWord(v);
  }
}
