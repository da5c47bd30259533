// What one process stores, it or another loads again, whatever happens between.
module RoundTrip {
  import opened Options
  import opened Machine
  import opened MachineLaws
  import opened Processes
  import opened System
  import opened Transparency

  // ---------- only cycles and loads change bytes ----------

  lemma UnlinkVals(s: State, h: nat)
    ensures SameVals(s.mem, Unlink(s, h).mem)
  {
  }

  lemma DeallocateVals(s: State, h: nat)
    ensures SameVals(s.mem, Deallocate(s, h).mem)
  {
    UnlinkVals(s, h);
    var t := Unlink(s, h);
    hide Unlink;
    assert SameVals(t.mem, Deallocate(s, h).mem);
  }

  lemma HaltVals(s: State, h: nat)
    ensures SameVals(s.mem, Halt(s, h).mem)
  {
    var t := Enqueue(PopWaiting(s), FrontWaiting(s, h), Terminated);
    assert t.mem == s.mem;
    DeallocateVals(t, h);
    hide Deallocate;
  }

  lemma ReleaseVals(s: State, h: nat)
    ensures Release(s, h).mem == s.mem && Acquire(s, h).mem == s.mem
  {
  }

  lemma ServiceVals(s: State, h: nat, code: int)
    ensures SameVals(s.mem, Service(s, h, code).mem)
  {
    HaltVals(s, h);
    ReleaseVals(s, h);
    hide Halt;
    hide Release;
    hide Acquire;
  }

  lemma InterruptedVals(p: Policy, s: State, h: nat, code: int)
    ensures SameVals(s.mem, Interrupted(p, s, h, code).mem)
  {
    var a := Park(s, h);
    assert a.mem == s.mem;
    hide Park;
    ServiceVals(a, h, code);
    var b := Service(a, h, code);
    hide Service;
    assert Reward(p, b, h).mem == b.mem;
    hide Reward;
    assert Resume(Reward(p, b, h), h).mem == b.mem;
    hide Resume;
  }

  lemma TerminateVals(p: Policy, s: State, h: nat)
    ensures SameVals(s.mem, Terminate(p, s, h).mem)
  {
    var t := Enqueue(Save(s, h), h, Terminated);
    assert t.mem == s.mem;
    DeallocateVals(t, h);
    hide Deallocate;
  }

  // After a call the bytes are those its cycle left, forks and terminations included.
  lemma CallVals(p: Policy, s: State)
    ensures var t := Prepare(p, s);
            && t.mem == s.mem
            && SameVals(if t.running.Some? then CycleOf(t, t.running.value).mem else s.mem, Step(p, s).mem)
  {
    var t := Prepare(p, s);
    PreparedMem(p, s, 0);
    hide Prepare;
    if t.running.Some? {
      var h := t.running.value;
      var u, code := Execute(p, t, h), CycleOf(t, h).code;
      assert u.mem == CycleOf(t, h).mem;
      InterruptedVals(p, u, h, code);
      TerminateVals(p, u, h);
      hide Interrupted;
      hide Terminate;
      hide Execute;
      hide CycleOf;
    }
  }

  // ---------- the round trip ----------

  // The next call executes a STR of `v` at `a`, which completes.
  predicate Stores(p: Policy, s: State, a: int, v: int) {
    var t := Prepare(p, s);
    t.running.Some? &&
    var i := Decode(t.mem, t.cpu.pc);
    i.Store? && Machine.Reg(t.cpu, i.at) == a && Machine.Reg(t.cpu, i.x) == v && CodeOf(p, s) == 0
  }

  // The next call executes a LDR of register `d` from `a`.
  predicate LoadsFrom(p: Policy, s: State, a: int, d: int) {
    var t := Prepare(p, s);
    t.running.Some? &&
    var i := Decode(t.mem, t.cpu.pc);
    i.Load? && i.d == d && Machine.Reg(t.cpu, i.at) == a && 0 <= d < |t.cpu.reg|
  }

  // The event writes none of the four bytes at `a`: no cycle stores there, and no program is
  // loaded over them. It may set and clear any marks.
  ghost predicate Elsewhere(s: State, e: Event, a: int) {
    match e
    case Tick(p) =>
      var t := Prepare(p, s);
      t.running.Some? ==> forall j :: a <= j < a + 4 ==> !MayWrite(t.cpu, t.mem, j)
    case Arrive(name, i) => LoadCode(s, i) == 0 ==> i.size < 0 || i.load + i.size < a || a + 3 < i.load
    case _ => true
  }

  ghost predicate ElsewhereRun(s: State, es: seq<Event>, a: int)
    decreases |es|
  {
    es != [] ==> Elsewhere(s, es[0], a) && ElsewhereRun(Apply(s, es[0]), es[1..], a)
  }

  // The same four bytes at `a`.
  ghost predicate SameWord(m: Memory, n: Memory, a: int) {
    |m| == |n| && forall j :: a <= j < a + 4 ==> Val(m, j) == Val(n, j)
  }

  lemma CallKeepsWord(p: Policy, s: State, a: int)
    requires Elsewhere(s, Tick(p), a)
    ensures SameWord(s.mem, Step(p, s).mem, a)
  {
    var t := Prepare(p, s);
    CallVals(p, s);
    hide Prepare;
    hide Step;
    if t.running.Some? {
      ExecWrites(t.cpu, t.mem, Get(t, t.running.value).load);
      hide Exec;
      var n := CycleOf(t, t.running.value).mem;
      forall j | a <= j < a + 4
        ensures Val(n, j) == Val(t.mem, j)
      {
        assert !MayWrite(t.cpu, t.mem, j);
      }
    }
  }

  lemma LoadKeepsWord(s: State, name: string, i: Image, a: int)
    requires Elsewhere(s, Arrive(name, i), a)
    ensures SameWord(s.mem, LoadProgram(s, name, i).mem, a)
  {
  }

  lemma EventKeepsWord(s: State, e: Event, a: int)
    requires Elsewhere(s, e, a)
    ensures SameWord(s.mem, Apply(s, e).mem, a)
  {
    match e
    case Tick(p) => CallKeepsWord(p, s, a);
    case Arrive(name, i) => LoadKeepsWord(s, name, i, a);
    case NewSemaphore(value, one, two) =>
    case OpenSegment(size, one, two) => OpenVals(s, size, one, two);
    case Log =>
  }

  lemma {:induction false} RunKeepsWord(s: State, es: seq<Event>, a: int)
    requires ElsewhereRun(s, es, a)
    ensures SameWord(s.mem, Run(s, es).mem, a)
    decreases |es|
  {
    if es != [] {
      EventKeepsWord(s, es[0], a);
      RunKeepsWord(Apply(s, es[0]), es[1..], a);
      hide Apply;
    }
  }

  lemma CallStores(p: Policy, s: State, a: int, v: int)
    requires Stores(p, s, a, v)
    ensures var r := StoreBytes(s.mem, a, v, 0);
            r.1 && SameVals(r.0, Step(p, s).mem)
  {
    CallVals(p, s);
    hide Prepare;
    hide Step;
  }

  lemma CallLoads(q: Policy, s: State, a: int, d: int)
    requires LoadsFrom(q, s, a, d)
    ensures if Marked(s.mem, a)
            then
              && CodeOf(q, s) == 0 && Step(q, s).running == Executor(q, s)
              && Machine.Reg(Step(q, s).cpu, d) == Word(s.mem, a)
            else CodeOf(q, s) == HALTED
  {
    PreparedMem(q, s, 0);
    hide Prepare;
  }

  // For every 32-bit value: after a STR that completes, and any run of calls, loads, segment
  // openings and terminations that writes elsewhere, whatever it does to the marks, a LDR from
  // the same address completes if and only if the first cell is still marked; then its register
  // receives the value stored.
  lemma StoreLoadRoundTrip(p: Policy, s: State, a: int, v: int, es: seq<Event>, q: Policy, d: int)
    requires Fits(v) && Stores(p, s, a, v) && ElsewhereRun(Step(p, s), es, a)
    requires LoadsFrom(q, Run(Step(p, s), es), a, d)
    ensures var w := Run(Step(p, s), es);
            && (CodeOf(q, w) == 0 <==> Marked(w.mem, a))
            && (!Marked(w.mem, a) ==> CodeOf(q, w) == HALTED)
            && (Marked(w.mem, a) ==> Step(q, w).running == Executor(q, w) && Machine.Reg(Step(q, w).cpu, d) == v)
  {
    var w := Run(Step(p, s), es);
    CallStores(p, s, a, v);
    RunKeepsWord(Step(p, s), es, a);
    CallLoads(q, w, a, d);
    hide *;
    StoredWord(s.mem, a, v, Step(p, s).mem, w.mem);
  }

  lemma StoredWord(m: Memory, a: int, v: int, u: Memory, w: Memory)
    requires Fits(v) && StoreBytes(m, a, v, 0).1 && SameVals(StoreBytes(m, a, v, 0).0, u) && SameWord(u, w, a)
    ensures Word(w, a) == v
  {
    WordStored(m, a, v, w);
  }
}
