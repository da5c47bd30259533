// Mark bits, live regions and shared segments.
module MemoryMap {
  import opened Options
  import opened Machine
  import opened MachineLaws
  import opened Processes
  import opened System
  import opened Census
  import opened Timekeeping

  predicate Live(s: State, h: nat) {
    h < |s.pcbs| && !Done(s, h)
  }

  // A live region belongs to a program or to a shared segment that still has links.
  datatype Owner = Program(h: nat) | Shared(g: nat)

  predicate Owns(s: State, o: Owner, a: int) {
    match o
    case Program(h) => Live(s, h) && s.pcbs[h].load <= a <= s.pcbs[h].load + s.pcbs[h].size
    case Shared(g) =>
      g < |s.segments| && s.segments[g].links > 0
      && s.segments[g].load <= a <= s.segments[g].load + s.segments[g].size
  }

  // A cell is marked exactly when it lies in a live region, and then in only one.
  ghost predicate MarksOk(s: State) {
    && (forall a :: 0 <= a < |s.mem| && s.mem[a].marked ==> exists o :: Owns(s, o, a))
    && (forall o, a :: 0 <= a < |s.mem| && Owns(s, o, a) ==> s.mem[a].marked)
    && (forall o, o', a :: 0 <= a < |s.mem| && Owns(s, o, a) && Owns(s, o', a) ==> o == o')
  }

  // The live processes linked to segment g.
  ghost function Linked(s: State, g: nat): set<nat> {
    set x: nat | x < |s.pcbs| && Live(s, x) && s.pcbs[x].shm == Some(g)
  }

  ghost predicate LinksOk(s: State) {
    && (forall g: nat :: g < |s.segments| ==> s.segments[g].links == |Linked(s, g)|)
    && (forall x: nat :: x < |s.pcbs| && s.pcbs[x].shm.Some? ==> s.pcbs[x].shm.value < |s.segments|)
  }

  // getPcb finds only live processes, each under its own name.
  ghost predicate NamesOk(s: State) {
    forall n :: n in s.names ==> Live(s, s.names[n]) && s.pcbs[s.names[n]].name == n
  }

  // ---------- what an event does to the map ----------

  // Where a process is, and what it is linked to.
  datatype Region = Region(name: string, load: int, size: int, shm: Option<nat>)

  function RegionOf(s: State, x: nat): Region {
    var p := Get(s, x);
    Region(p.name, p.load, p.size, p.shm)
  }

  // The same processes in the same regions, the same segments and names.
  ghost predicate SameMapAt(s: State, t: State, x: nat) {
    && RegionOf(t, x) == RegionOf(s, x) && |t.pcbs| == |s.pcbs|
    && t.segments == s.segments && t.mem == s.mem && t.names == s.names
  }

  lemma EnqueueMap(s: State, h: nat, t: Tag, x: nat)
    ensures SameMapAt(s, Enqueue(s, h, t), x)
  {
  }

  lemma {:induction false} AdmitMap(s: State, x: nat)
    ensures SameMapAt(s, Admit(s), x)
    decreases |s.arrived|
  {
    if s.arrived != [] {
      EnqueueMap(s.(arrived := s.arrived[1..]), s.arrived[0], Ready, x);
      AdmitMap(Enqueue(s.(arrived := s.arrived[1..]), s.arrived[0], Ready), x);
    }
  }

  lemma SwitchInMap(s: State, x: nat)
    ensures SameMapAt(s, SwitchIn(s), x) && SameMapAt(s, TagRunning(SwitchIn(s)), x)
  {
  }

  lemma PreemptMap(p: Policy, s: State, x: nat)
    ensures SameMapAt(s, Preempt(p, s), x)
  {
    if Preempts(p, s) {
      var h := s.running.value;
      var c := Charge(p, s, h);
      assert SameMapAt(s, c, x);
      hide Charge;
      EnqueueMap(c, h, Ready, x);
      SwitchInMap(Enqueue(c, h, Ready), x);
      hide Enqueue;
    }
  }

  lemma PrepareMap(p: Policy, s: State, x: nat)
    ensures SameMapAt(s, Prepare(p, s), x)
  {
    AdmitMap(s, x);
    SwitchInMap(Admit(s), x);
    PreemptMap(p, DispatchIdle(p, Admit(s)), x);
  }

  // The cells of `h` and, with its last link, those of its segment.
  function FreeCells(s: State, h: nat): Memory {
    SetMarks(Unlink(s, h).mem, Get(s, h).load, Get(s, h).load + Get(s, h).size, false)
  }

  // From `s` to `t` the map stays the same, except that `h` gives up its cells and its link
  // when `ends`.
  ghost predicate FreesMapAt(s: State, t: State, h: nat, ends: bool, x: nat) {
    && RegionOf(t, x) == RegionOf(s, x) && |t.pcbs| == |s.pcbs|
    && t.segments == (if ends then Unlink(s, h).segments else s.segments)
    && t.mem == (if ends then FreeCells(s, h) else s.mem)
    && t.names == (if ends then s.names - {Get(s, h).name} else s.names)
  }

  lemma DeallocateMap(s: State, h: nat, x: nat)
    ensures FreesMapAt(s, Deallocate(s, h), h, true, x)
  {
    UnlinkKeeps(s, h);
    assert Unlink(s, h).names == s.names;
  }

  lemma UnlinkCongruent(s: State, t: State, h: nat)
    requires SameMapAt(s, t, h)
    ensures Unlink(t, h).segments == Unlink(s, h).segments && FreeCells(t, h) == FreeCells(s, h)
  {
  }

  // Closing `h` after steps that kept the map frees its cells of the original map.
  lemma FreesAfter(s: State, t: State, h: nat, x: nat)
    requires SameMapAt(s, t, x) && SameMapAt(s, t, h)
    ensures FreesMapAt(s, Deallocate(t, h), h, true, x)
  {
    UnlinkCongruent(s, t, h);
    DeallocateMap(t, h, x);
    hide Deallocate;
    hide Unlink;
    hide FreeCells;
  }

  lemma HaltMap(s: State, h: nat, x: nat)
    requires s.waiting == [h]
    ensures FreesMapAt(s, Halt(s, h), h, true, x)
  {
    EnqueueMap(PopWaiting(s), h, Terminated, x);
    EnqueueMap(PopWaiting(s), h, Terminated, h);
    FreesAfter(s, Enqueue(PopWaiting(s), h, Terminated), h, x);
    hide Deallocate;
    hide Enqueue;
    hide FreesMapAt;
  }

  lemma SharedAddressMap(s: State, h: nat, x: nat)
    requires s.waiting == [h]
    ensures FreesMapAt(s, SharedAddress(s, h), h, Get(s, h).shm.None?, x)
  {
    HaltMap(s, h, x);
    hide Halt;
  }

  lemma SemaphoreMap(s: State, h: nat, x: nat)
    ensures SameMapAt(s, Acquire(s, h), x) && SameMapAt(s, WaitSemaphore(s, h), x)
    ensures SameMapAt(s, Release(s, h), x)
  {
  }

  lemma ServiceMap(s: State, h: nat, code: int, x: nat)
    requires s.waiting == [h] && code != FORK && code != HALTED
    ensures FreesMapAt(s, Service(s, h, code), h, Ends(s, h, code), x)
  {
    SharedAddressMap(s, h, x);
    SemaphoreMap(s, h, x);
    hide SharedAddress;
    hide Acquire;
    hide WaitSemaphore;
    hide Release;
  }

  lemma ParkMap(s: State, h: nat, x: nat)
    ensures SameMapAt(s, Park(s, h), x) && Park(s, h).waiting == s.waiting + [h]
  {
  }

  lemma ResumeMap(p: Policy, s: State, h: nat, x: nat)
    ensures SameMapAt(s, Vacate(p, Resume(Reward(p, s, h), h)), x)
  {
    var b := Reward(p, s, h);
    assert SameMapAt(s, b, x);
    hide Reward;
    EnqueueMap(PopWaiting(b), h, Ready, x);
  }

  lemma InterruptedMap(p: Policy, s: State, h: nat, code: int, x: nat)
    requires s.waiting == [] && code != FORK && code != HALTED
    ensures FreesMapAt(s, Interrupted(p, s, h, code), h, Ends(s, h, code), x)
  {
    var a := Park(s, h);
    ParkMap(s, h, x);
    ParkMap(s, h, h);
    UnlinkCongruent(s, a, h);
    ServiceMap(a, h, code, x);
    ResumeMap(p, Service(a, h, code), h, x);
    hide Park;
    hide Service;
    hide Unlink;
    hide FreeCells;
    hide Resume;
    hide Reward;
  }

  lemma SettleMap(p: Policy, s: State, h: nat, code: int, x: nat)
    requires s.waiting == [] && code != FORK && (code >= 20 || code == HALTED || code == 0)
    ensures FreesMapAt(s, Settle(p, s, h, code), h, Ends(s, h, code), x)
  {
    if code >= 20 {
      InterruptedMap(p, s, h, code, x);
    } else if code == HALTED {
      var t := Enqueue(Save(s, h), h, Terminated);
      assert SameMapAt(s, t, x) && SameMapAt(s, t, h);
      FreesAfter(s, t, h, x);
      hide Deallocate;
    }
  }

  lemma ExecuteMap(p: Policy, s: State, h: nat, x: nat)
    ensures var t := Execute(p, s, h);
            && RegionOf(t, x) == RegionOf(s, x) && |t.pcbs| == |s.pcbs| && t.waiting == s.waiting
            && t.segments == s.segments && t.names == s.names && SameMarks(s.mem, t.mem)
  {
    ExecWrites(s.cpu, s.mem, Get(s, h).load);
  }

  // A call frees the cells and link of the process it ends, and changes no other mark.
  ghost predicate StepsMapAt(s: State, t: State, h: nat, ends: bool, x: nat) {
    && RegionOf(t, x) == RegionOf(s, x) && |t.pcbs| == |s.pcbs|
    && t.segments == (if ends then Unlink(s, h).segments else s.segments)
    && SameMarks(if ends then FreeCells(s, h) else s.mem, t.mem)
    && t.names == (if ends then s.names - {RegionOf(s, h).name} else s.names)
  }

  lemma UnlinkMarks(s: State, t: State, h: nat)
    requires RegionOf(t, h) == RegionOf(s, h) && t.segments == s.segments && SameMarks(s.mem, t.mem)
    ensures Unlink(t, h).segments == Unlink(s, h).segments && SameMarks(FreeCells(s, h), FreeCells(t, h))
  {
  }

  lemma ActMap(p: Policy, s: State, x: nat)
    requires s.waiting == [] && s.running.Some? && CycleOf(s, s.running.value).code != FORK
    ensures StepsMapAt(s, Act(p, s), s.running.value, Ends(s, s.running.value, CycleOf(s, s.running.value).code), x)
  {
    var h := s.running.value;
    CycleCodes(s.cpu, s.mem, Get(s, h).load);
    var u := Execute(p, s, h);
    ExecuteMap(p, s, h, x);
    ExecuteMap(p, s, h, h);
    UnlinkMarks(s, u, h);
    SettleMap(p, u, h, CycleOf(s, h).code, x);
    assert Get(u, h).name == RegionOf(s, h).name && Get(u, h).shm == RegionOf(s, h).shm;
    hide Execute;
    hide Settle;
    hide Unlink;
    hide FreeCells;
  }

  lemma CongruentSteps(s: State, t: State, u: State, h: nat, ends: bool, x: nat)
    requires SameMapAt(s, t, x) && SameMapAt(s, t, h) && StepsMapAt(t, u, h, ends, x)
    ensures StepsMapAt(s, u, h, ends, x)
  {
    UnlinkCongruent(s, t, h);
    hide Unlink;
    hide FreeCells;
  }

  lemma StepMap(p: Policy, s: State, x: nat)
    requires Sound(s) && CodeOf(p, s) != FORK
    ensures var h: nat := if Executor(p, s).Some? then Executor(p, s).value else 0;
            StepsMapAt(s, Step(p, s), h, StepEnds(p, s), x)
  {
    var t := Prepare(p, s);
    PrepareMap(p, s, x);
    PreparePlaces(p, s, 0);
    if t.running.Some? {
      var h := t.running.value;
      PrepareMap(p, s, h);
      hide Prepare;
      hide Act;
      ActMap(p, t, x);
      CongruentSteps(s, t, Act(p, t), h, StepEnds(p, s), x);
    }
  }

  // ---------- freeing keeps the map right ----------

  ghost predicate MapOk(s: State) {
    NamesOk(s) && LinksOk(s) && MarksOk(s)
  }

  // `t` is `s` without the live process `h`.
  ghost predicate Without(s: State, t: State, h: nat) {
    && Live(s, h) && |t.pcbs| == |s.pcbs|
    && (forall x: nat :: RegionOf(t, x) == RegionOf(s, x))
    && (forall x: nat :: Done(t, x) <==> Done(s, x) || x == h)
    && t.segments == Unlink(s, h).segments
    && SameMarks(FreeCells(s, h), t.mem)
    && t.names == s.names - {RegionOf(s, h).name}
  }

  lemma LiveWithout(s: State, t: State, h: nat, x: nat)
    requires Without(s, t, h)
    ensures Live(t, x) <==> Live(s, x) && x != h
  {
    assert Done(t, x) <==> Done(s, x) || x == h;
  }

  lemma NamesWithout(s: State, t: State, h: nat)
    requires NamesOk(s) && Without(s, t, h)
    ensures NamesOk(t)
  {
    forall n | n in t.names
      ensures Live(t, t.names[n]) && t.pcbs[t.names[n]].name == n
    {
      var x := t.names[n];
      assert n in s.names && s.names[n] == x;
      assert RegionOf(t, x) == RegionOf(s, x) && RegionOf(s, h).name != n;
      LiveWithout(s, t, h, x);
    }
  }

  lemma LinksWithout(s: State, t: State, h: nat)
    requires LinksOk(s) && Without(s, t, h)
    ensures LinksOk(t)
  {
    forall x: nat
      ensures Live(t, x) <==> Live(s, x) && x != h
    {
      LiveWithout(s, t, h, x);
    }
    forall g: nat | g < |t.segments|
      ensures t.segments[g].links == |Linked(t, g)|
    {
      forall x: nat
        ensures x in Linked(t, g) <==> x in Linked(s, g) - {h}
      {
        assert RegionOf(t, x) == RegionOf(s, x);
      }
      assert Linked(t, g) == Linked(s, g) - {h};
      if s.pcbs[h].shm == Some(g) {
        assert h in Linked(s, g);
      }
    }
    forall x: nat | x < |t.pcbs| && t.pcbs[x].shm.Some?
      ensures t.pcbs[x].shm.value < |t.segments|
    {
      assert RegionOf(t, x) == RegionOf(s, x);
    }
  }

  // Whether freeing `h` frees owner `o`: its program, or the segment it was last to hold.
  predicate Freed(s: State, h: nat, o: Owner) {
    o == Program(h) ||
    (o.Shared? && Get(s, h).shm == Some(o.g) && o.g < |s.segments| && s.segments[o.g].links == 1)
  }

  lemma FreedCell(s: State, t: State, h: nat, a: int)
    requires LinksOk(s) && Without(s, t, h) && 0 <= a < |s.mem|
    ensures t.mem[a].marked <==> s.mem[a].marked && !(exists o :: Freed(s, h, o) && Owns(s, o, a))
  {
    var m := FreeCells(s, h);
    var inProgram := Owns(s, Program(h), a);
    assert Freed(s, h, Program(h));
    if s.pcbs[h].shm.Some? {
      var g := s.pcbs[h].shm.value;
      assert h in Linked(s, g);
      assert s.segments[g].links >= 1;
      if s.segments[g].links == 1 {
        assert Freed(s, h, Shared(g));
        assert Owns(s, Shared(g), a) <==> s.segments[g].load <= a <= s.segments[g].load + s.segments[g].size;
        assert m[a].marked <==> s.mem[a].marked && !inProgram && !Owns(s, Shared(g), a);
      } else {
        assert m[a].marked <==> s.mem[a].marked && !inProgram;
      }
    } else {
      assert m[a].marked <==> s.mem[a].marked && !inProgram;
    }
  }

  lemma OwnsWithout(s: State, t: State, h: nat, o: Owner, a: int)
    requires LinksOk(s) && Without(s, t, h)
    ensures Owns(t, o, a) <==> Owns(s, o, a) && !Freed(s, h, o)
  {
    match o
    case Program(x) =>
      LiveWithout(s, t, h, x);
      assert RegionOf(t, x) == RegionOf(s, x);
    case Shared(g) =>
      if s.pcbs[h].shm == Some(g) {
        assert h in Linked(s, g);
      }
  }

  lemma MarksWithout(s: State, t: State, h: nat)
    requires LinksOk(s) && MarksOk(s) && Without(s, t, h)
    ensures MarksOk(t)
  {
    forall o, a
      ensures Owns(t, o, a) <==> Owns(s, o, a) && !Freed(s, h, o)
    {
      OwnsWithout(s, t, h, o, a);
    }
    forall a | 0 <= a < |s.mem|
      ensures t.mem[a].marked <==> s.mem[a].marked && !(exists o :: Freed(s, h, o) && Owns(s, o, a))
    {
      FreedCell(s, t, h, a);
    }
    forall a | 0 <= a < |t.mem| && t.mem[a].marked
      ensures exists o :: Owns(t, o, a)
    {
      var o :| Owns(s, o, a);
      assert Owns(t, o, a);
    }
  }

  // ---------- calls ----------

  ghost predicate SameMap(s: State, t: State) {
    && |t.pcbs| == |s.pcbs|
    && (forall x: nat :: RegionOf(t, x) == RegionOf(s, x))
    && (forall x: nat :: Done(t, x) <==> Done(s, x))
    && t.segments == s.segments && SameMarks(s.mem, t.mem) && t.names == s.names
  }

  lemma SameMapOk(s: State, t: State)
    requires MapOk(s) && SameMap(s, t)
    ensures MapOk(t)
  {
    assert forall x: nat :: RegionOf(t, x) == RegionOf(s, x);
    assert forall x: nat :: Live(t, x) <==> Live(s, x);
    forall x: nat | x < |s.pcbs|
      ensures t.pcbs[x].load == s.pcbs[x].load && t.pcbs[x].size == s.pcbs[x].size
      ensures t.pcbs[x].shm == s.pcbs[x].shm && t.pcbs[x].name == s.pcbs[x].name
    {
      assert RegionOf(t, x) == RegionOf(s, x);
    }
    assert forall o, a :: Owns(t, o, a) <==> Owns(s, o, a);
    forall g: nat
      ensures Linked(t, g) == Linked(s, g)
    {
    }
    forall a | 0 <= a < |t.mem| && t.mem[a].marked
      ensures exists o :: Owns(t, o, a)
    {
      var o :| Owns(s, o, a);
      assert Owns(t, o, a);
    }
  }

  lemma StepDone(p: Policy, s: State, x: nat)
    requires Sound(s)
    ensures Done(Step(p, s), x) <==> Done(s, x) || (StepEnds(p, s) && Executor(p, s) == Some(x))
  {
    StepLedger(p, s, x);
    StepEndsExecutor(p, s);
    hide Step;
    hide StepEnds;
    hide Executor;
  }

  // A call without a fork leaves the map as it is, or takes the process it ends out of it.
  lemma StepWithout(p: Policy, s: State)
    requires Sound(s) && CodeOf(p, s) != FORK
    ensures if StepEnds(p, s)
            then Executor(p, s).Some? && Executor(p, s).value < |s.pcbs| && Without(s, Step(p, s), Executor(p, s).value)
            else SameMap(s, Step(p, s))
  {
    var t := Step(p, s);
    var h: nat := if Executor(p, s).Some? then Executor(p, s).value else 0;
    var ends := StepEnds(p, s);
    StepEndsExecutor(p, s);
    if Executor(p, s).Some? {
      ExecutorExists(p, s);
    }
    forall x: nat
      ensures StepsMapAt(s, t, h, ends, x) && RegionOf(t, x) == RegionOf(s, x)
      ensures Done(t, x) <==> Done(s, x) || (ends && x == h)
    {
      StepMap(p, s, x);
      StepDone(p, s, x);
    }
    assert StepsMapAt(s, t, h, ends, 0);
    hide Step;
    hide Executor;
    hide StepEnds;
  }

  // A call without a fork keeps the map right.
  lemma StepMapOk(p: Policy, s: State)
    requires Sound(s) && MapOk(s) && CodeOf(p, s) != FORK
    ensures MapOk(Step(p, s))
  {
    StepWithout(p, s);
    var t := Step(p, s);
    hide Step;
    hide Executor;
    hide StepEnds;
    if StepEnds(p, s) {
      var h := Executor(p, s).value;
      hide Without;
      NamesWithout(s, t, h);
      LinksWithout(s, t, h);
      MarksWithout(s, t, h);
    } else {
      SameMapOk(s, t);
    }
  }

  // Exactly which marks a call clears: those of the cells of the process it ends and, when that
  // was the last one linked to its segment, those of the segment. It sets none.
  lemma StepMarks(p: Policy, s: State, a: nat)
    requires Sound(s) && MapOk(s) && CodeOf(p, s) != FORK && a < |s.mem|
    ensures var t := Step(p, s);
            && |t.mem| == |s.mem|
            && (t.mem[a].marked <==>
                  && s.mem[a].marked
                  && !(StepEnds(p, s) && exists o :: Freed(s, Executor(p, s).value, o) && Owns(s, o, a)))
  {
    StepWithout(p, s);
    var t := Step(p, s);
    hide Step;
    hide Executor;
    hide StepEnds;
    if StepEnds(p, s) {
      FreedCell(s, t, Executor(p, s).value, a);
    }
  }

  // A load writes and marks only cells that were free; a rejected load changes nothing.
  lemma LoadEffect(s: State, name: string, i: Image)
    ensures var t := LoadProgram(s, name, i);
            && (LoadCode(s, i) != 0 ==> t == s)
            && (LoadCode(s, i) == 0 ==>
                  |t.mem| == |s.mem| && forall a :: 0 <= a < |s.mem| ==>
                    if i.load <= a <= i.load + i.size then !s.mem[a].marked && t.mem[a].marked
                    else t.mem[a] == s.mem[a])
  {
  }

  lemma LoadMap(s: State, name: string, i: Image, x: nat)
    requires Sound(s) && LoadCode(s, i) == 0
    ensures var t := LoadProgram(s, name, i);
            && t.segments == s.segments && |t.pcbs| == |s.pcbs| + 1
            && (Live(t, x) <==> Live(s, x) || x == |s.pcbs|)
            && RegionOf(t, x) == (if x == |s.pcbs| then Region(name, i.load, i.size, None) else RegionOf(s, x))
            && t.names == s.names[name := |s.pcbs|]
  {
    UnknownNotDone(s, |s.pcbs|);
  }

  lemma LoadOwns(s: State, name: string, i: Image, o: Owner, a: int)
    requires Sound(s) && LoadCode(s, i) == 0
    ensures Owns(LoadProgram(s, name, i), o, a)
       <==> (Owns(s, o, a) || (o == Program(|s.pcbs|) && i.load <= a <= i.load + i.size))
  {
    var t := LoadProgram(s, name, i);
    match o
    case Program(x) => LoadMap(s, name, i, x);
      if x < |t.pcbs| {
        assert RegionOf(t, x).load == t.pcbs[x].load;
      }
      hide LoadProgram;
    case Shared(g) =>
  }

  lemma LoadMarks(s: State, name: string, i: Image)
    requires Sound(s) && MarksOk(s) && LoadCode(s, i) == 0
    ensures MarksOk(LoadProgram(s, name, i))
  {
    var t := LoadProgram(s, name, i);
    var h := |s.pcbs|;
    LoadEffect(s, name, i);
    forall o, a
      ensures Owns(t, o, a) <==> (Owns(s, o, a) || (o == Program(h) && i.load <= a <= i.load + i.size))
    {
      LoadOwns(s, name, i, o, a);
    }
    assert !Live(s, h);
    hide LoadProgram;
    forall a | 0 <= a < |t.mem| && t.mem[a].marked
      ensures exists o :: Owns(t, o, a)
    {
      if i.load <= a <= i.load + i.size {
        assert Owns(t, Program(h), a);
      } else {
        var o :| Owns(s, o, a);
        assert Owns(t, o, a);
      }
    }
  }

  lemma LoadMapOk(s: State, name: string, i: Image)
    requires Sound(s) && MapOk(s)
    ensures MapOk(LoadProgram(s, name, i))
  {
    if LoadCode(s, i) == 0 {
      var t := LoadProgram(s, name, i);
      forall x: nat
        ensures Live(t, x) <==> Live(s, x) || x == |s.pcbs|
        ensures RegionOf(t, x) == (if x == |s.pcbs| then Region(name, i.load, i.size, None) else RegionOf(s, x))
      {
        LoadMap(s, name, i, x);
      }
      LoadMap(s, name, i, 0);
      LoadMarks(s, name, i);
      hide LoadProgram;
      forall n | n in t.names
        ensures Live(t, t.names[n]) && t.pcbs[t.names[n]].name == n
      {
        var x := t.names[n];
        assert RegionOf(t, x).name == t.pcbs[x].name;
        assert n != name ==> RegionOf(s, x).name == n;
      }
      forall g: nat | g < |t.segments|
        ensures Linked(t, g) == Linked(s, g)
      {
        forall x: nat
          ensures x in Linked(t, g) <==> x in Linked(s, g)
        {
          if x < |t.pcbs| {
            assert RegionOf(t, x).shm == t.pcbs[x].shm;
          }
        }
      }
      forall x: nat | x < |t.pcbs| && t.pcbs[x].shm.Some?
        ensures t.pcbs[x].shm.value < |t.segments|
      {
        assert RegionOf(t, x).shm == t.pcbs[x].shm;
      }
    }
  }

  // ---------- first fit ----------

  // First fit gives the lowest address at which a run of n free cells starts.
  lemma {:induction false} FirstFitLeast(m: Memory, n: int, a: nat)
    ensures var r := FirstFit(m, n, a);
            && (r.Some? ==> a <= r.value && FreeRun(m, r.value, n) && forall b :: a <= b < r.value ==> !FreeRun(m, b, n))
            && (r.None? ==> forall b: nat :: a <= b <= |m| ==> !FreeRun(m, b, n))
    decreases |m| - a
  {
    if a <= |m| && a + n <= |m| && !FreeRun(m, a, n) {
      FirstFitLeast(m, n, a + 1);
    }
  }

  // ---------- opening shared memory ----------

  // The link counts are right for all processes but those of `out`, which gave up their link.
  ghost predicate LinksOkBut(s: State, out: set<nat>) {
    && (forall g: nat :: g < |s.segments| ==> s.segments[g].links == |Linked(s, g) - out|)
    && (forall x: nat :: x < |s.pcbs| && s.pcbs[x].shm.Some? ==> s.pcbs[x].shm.value < |s.segments|)
  }

  lemma UnlinkShape(s: State, a: nat)
    ensures var t := Unlink(s, a);
            && t.pcbs == s.pcbs && t.names == s.names && t.terminated == s.terminated && t.logged == s.logged
            && |t.segments| == |s.segments| && |t.mem| == |s.mem|
            && forall g: nat :: g < |s.segments| ==>
                 t.segments[g] == if Get(s, a).shm == Some(g) then s.segments[g].(links := s.segments[g].links - 1)
                                  else s.segments[g]
  {
  }

  lemma SetMinusOne(m: set<nat>, out: set<nat>, a: nat)
    requires a in m && a !in out
    ensures |m - (out + {a})| == |m - out| - 1
  {
    assert m - (out + {a}) == (m - out) - {a};
  }

  lemma UnlinkLinks(s: State, a: nat, out: set<nat>)
    requires LinksOkBut(s, out) && Live(s, a) && a !in out
    ensures LinksOkBut(Unlink(s, a), out + {a})
  {
    UnlinkShape(s, a);
    var t := Unlink(s, a);
    forall g: nat | g < |t.segments|
      ensures t.segments[g].links == |Linked(t, g) - (out + {a})|
    {
      UnlinkLinksAt(s, a, out, g);
    }
    hide Unlink;
    hide Linked;
  }

  lemma UnlinkLinksAt(s: State, a: nat, out: set<nat>, g: nat)
    requires LinksOkBut(s, out) && Live(s, a) && a !in out && g < |s.segments|
    ensures var t := Unlink(s, a);
            g < |t.segments| && t.segments[g].links == |Linked(t, g) - (out + {a})|
  {
    UnlinkShape(s, a);
    var t := Unlink(s, a);
    hide Unlink;
    assert Linked(t, g) == Linked(s, g);
    if s.pcbs[a].shm == Some(g) {
      SetMinusOne(Linked(s, g), out, a);
    } else {
      assert Linked(s, g) - (out + {a}) == Linked(s, g) - out;
    }
  }

  // Giving up a link frees the segment's cells exactly when it was the last one.
  lemma UnlinkCells(s: State, a: nat, out: set<nat>)
    requires LinksOkBut(s, out) && Live(s, a) && a !in out && s.pcbs[a].shm.Some?
    ensures var t, seg := Unlink(s, a), s.segments[s.pcbs[a].shm.value];
            && seg.links >= 1
            && |t.mem| == |s.mem|
            && forall c :: 0 <= c < |s.mem| ==>
                 t.mem[c] == if seg.links == 1 && seg.load <= c <= seg.load + seg.size then s.mem[c].(marked := false) else s.mem[c]
  {
    assert a in Linked(s, s.pcbs[a].shm.value) - out;
  }

  lemma UnlinkMarksOk(s: State, a: nat, out: set<nat>)
    requires LinksOkBut(s, out) && Live(s, a) && a !in out && MarksOk(s)
    ensures MarksOk(Unlink(s, a))
  {
    var t := Unlink(s, a);
    UnlinkShape(s, a);
    if s.pcbs[a].shm.Some? {
      UnlinkCells(s, a, out);
      hide Unlink;
      var g := s.pcbs[a].shm.value;
      forall o, c
        ensures Owns(t, o, c) <==> Owns(s, o, c) && !(o == Shared(g) && s.segments[g].links == 1)
      {
      }
      hide LinksOkBut;
      var last := s.segments[g].links == 1;
      forall c | 0 <= c < |t.mem|
        ensures last && Owns(s, Shared(g), c) ==> !t.mem[c].marked
        ensures !(last && Owns(s, Shared(g), c)) ==> t.mem[c] == s.mem[c]
      {
      }
      FreedMarksOk(s, t, g, last);
    }
  }

  // When the cells of one region are freed, the other marks stay right.
  lemma FreedMarksOk(s: State, t: State, g: nat, last: bool)
    requires MarksOk(s) && |t.mem| == |s.mem|
    requires forall o, c :: Owns(t, o, c) <==> Owns(s, o, c) && !(o == Shared(g) && last)
    requires forall c :: 0 <= c < |t.mem| && last && Owns(s, Shared(g), c) ==> !t.mem[c].marked
    requires forall c :: 0 <= c < |t.mem| && !(last && Owns(s, Shared(g), c)) ==> t.mem[c] == s.mem[c]
    ensures MarksOk(t)
  {
    hide Owns;
    forall c | 0 <= c < |t.mem| && t.mem[c].marked
      ensures exists o :: Owns(t, o, c)
    {
      var o :| Owns(s, o, c);
      assert Owns(t, o, c);
    }
  }

  lemma ShareOwns(s: State, a: nat, b: nat, size: int, o: Owner, c: int)
    requires FirstFit(s.mem, 6 * size, 0).Some?
    ensures Owns(Share(s, a, b, size), o, c)
       <==> Owns(s, o, c) || (o == Shared(|s.segments|) && FirstFit(s.mem, 6 * size, 0).value <= c <= ExtraCell(s.mem, size))
  {
  }

  // The cell one past the counted run, which allocation marks as well.
  function ExtraCell(m: Memory, size: int): int
    requires FirstFit(m, 6 * size, 0).Some?
  {
    FirstFit(m, 6 * size, 0).value + 6 * size
  }

  // Opening a segment keeps marks and regions in agreement if and only if the one extra cell
  // it marks was free.
  lemma ShareMarks(s: State, a: nat, b: nat, size: int)
    requires MarksOk(s) && FirstFit(s.mem, 6 * size, 0).Some? && size >= 0
    ensures MarksOk(Share(s, a, b, size)) <==> !Marked(s.mem, ExtraCell(s.mem, size))
  {
    var t, g := Share(s, a, b, size), |s.segments|;
    var at := FirstFit(s.mem, 6 * size, 0).value;
    FirstFitLeast(s.mem, 6 * size, 0);
    forall o, c
      ensures Owns(t, o, c) <==> Owns(s, o, c) || (o == Shared(g) && at <= c <= at + 6 * size)
    {
      ShareOwns(s, a, b, size, o, c);
    }
    assert |t.mem| == |s.mem|;
    assert forall c :: 0 <= c < |t.mem| ==> (t.mem[c].marked <==> s.mem[c].marked || at <= c <= at + 6 * size);
    assert forall c :: at <= c < at + 6 * size ==> !Marked(s.mem, c);
    hide Share;
    AddedMarks(s, t, g, at, at + 6 * size);
  }

  // A new region lo..hi whose cells but the last were free.
  lemma AddedMarks(s: State, t: State, g: nat, lo: int, hi: int)
    requires MarksOk(s) && |t.mem| == |s.mem| && 0 <= lo <= hi && !(exists c :: Owns(s, Shared(g), c))
    requires forall o, c :: Owns(t, o, c) <==> Owns(s, o, c) || (o == Shared(g) && lo <= c <= hi)
    requires forall c :: 0 <= c < |t.mem| ==> (t.mem[c].marked <==> s.mem[c].marked || lo <= c <= hi)
    requires forall c :: lo <= c < hi ==> !Marked(s.mem, c)
    ensures MarksOk(t) <==> !Marked(s.mem, hi)
  {
    hide Owns;
    if Marked(s.mem, hi) {
      var o :| Owns(s, o, hi);
      assert Owns(t, o, hi) && Owns(t, Shared(g), hi) && o != Shared(g);
    } else {
      forall o, c | 0 <= c < |t.mem| && lo <= c <= hi
        ensures !Owns(s, o, c)
      {
        assert !Marked(s.mem, c);
      }
      forall o, c | 0 <= c < |t.mem| && Owns(t, o, c)
        ensures t.mem[c].marked
      {
      }
      forall c | 0 <= c < |t.mem| && t.mem[c].marked
        ensures exists o :: Owns(t, o, c)
      {
        if lo <= c <= hi {
          assert Owns(t, Shared(g), c);
        } else {
          var o :| Owns(s, o, c);
          assert Owns(t, o, c);
        }
      }
    }
  }

  lemma ShareShape(s: State, a: nat, b: nat, size: int)
    requires a < |s.pcbs| && b < |s.pcbs| && FirstFit(s.mem, 6 * size, 0).Some?
    ensures var t := Share(s, a, b, size);
            && |t.pcbs| == |s.pcbs| && t.terminated == s.terminated && t.logged == s.logged && t.names == s.names
            && |t.segments| == |s.segments| + 1 && t.segments[|s.segments|].links == 2
            && (forall g: nat :: g < |s.segments| ==> t.segments[g] == s.segments[g])
            && (forall x: nat :: x < |s.pcbs| ==>
                  t.pcbs[x].shm == (if x == a || x == b then Some(|s.segments|) else s.pcbs[x].shm)
                  && t.pcbs[x].name == s.pcbs[x].name)
  {
  }

  lemma ShareLinks(s: State, a: nat, b: nat, size: int)
    requires LinksOkBut(s, {a, b}) && Live(s, a) && Live(s, b) && a != b && FirstFit(s.mem, 6 * size, 0).Some?
    ensures LinksOk(Share(s, a, b, size))
  {
    hide Share;
    hide Linked;
    var t := Share(s, a, b, size);
    ShareShape(s, a, b, size);
    forall g: nat | g < |t.segments|
      ensures t.segments[g].links == |Linked(t, g)|
    {
      ShareLinked(s, a, b, size, g);
    }
  }

  // The new segment has the two new links, and every other one loses those it had from them.
  lemma ShareLinked(s: State, a: nat, b: nat, size: int, g: nat)
    requires LinksOkBut(s, {a, b}) && Live(s, a) && Live(s, b) && a != b && FirstFit(s.mem, 6 * size, 0).Some?
    requires g <= |s.segments|
    ensures |Linked(Share(s, a, b, size), g)| == if g == |s.segments| then 2 else s.segments[g].links
  {
    hide Share;
    var t := Share(s, a, b, size);
    ShareShape(s, a, b, size);
    if g == |s.segments| {
      assert Linked(t, g) == {a, b};
    } else {
      assert Linked(t, g) == Linked(s, g) - {a, b};
    }
  }

  // With itself, a process would count twice.
  lemma ShareWithSelf(s: State, a: nat, size: int)
    requires Live(s, a) && FirstFit(s.mem, 6 * size, 0).Some?
    requires forall x: nat :: x < |s.pcbs| && s.pcbs[x].shm.Some? ==> s.pcbs[x].shm.value < |s.segments|
    ensures !LinksOk(Share(s, a, a, size))
  {
    var t, g := Share(s, a, a, size), |s.segments|;
    ShareShape(s, a, a, size);
    hide Share;
    assert Linked(t, g) == {a};
  }

  // The state in which the new segment is allocated: both processes have given up their links.
  function BothUnlinked(s: State, a: nat, b: nat): State {
    Unlink(Unlink(s, a), b)
  }

  lemma BothUnlinkedOk(s: State, a: nat, b: nat)
    requires MapOk(s) && Live(s, a) && Live(s, b) && a != b
    ensures var u := BothUnlinked(s, a, b);
            && LinksOkBut(u, {a, b}) && MarksOk(u) && NamesOk(u) && Live(u, a) && Live(u, b)
            && u.pcbs == s.pcbs && u.terminated == s.terminated && u.logged == s.logged
  {
    LinksAll(s);
    var r := Unlink(s, a);
    UnlinkShape(s, a);
    UnlinkLinks(s, a, {});
    UnlinkMarksOk(s, a, {});
    UnlinkShape(r, b);
    UnlinkLinks(r, b, {} + {a});
    UnlinkMarksOk(r, b, {} + {a});
    hide Unlink;
    assert {} + {a} + {b} == {a, b};
  }

  // Opening keeps the link counts right if and only if the two names differ.
  lemma OpenLinksOk(s: State, size: int, one: string, two: string)
    requires MapOk(s) && size >= 0 && one in s.names && two in s.names
    requires FirstFit(BothUnlinked(s, s.names[one], s.names[two]).mem, 6 * size, 0).Some?
    ensures LinksOk(OpenShared(s, size, one, two)) <==> one != two
  {
    if one != two {
      OpenMapOk(s, size, one, two);
    } else {
      var a := s.names[one];
      var u := BothUnlinked(s, a, a);
      assert OpenShared(s, size, one, two) == Share(u, a, a, size);
      UnlinkShape(s, a);
      UnlinkShape(Unlink(s, a), a);
      hide Unlink;
      hide OpenShared;
      hide Share;
      ShareWithSelf(u, a, size);
    }
  }

  // Opening a segment between two different processes keeps names and link counts right, and
  // keeps the marks right if and only if the extra cell was free.
  lemma OpenMapOk(s: State, size: int, one: string, two: string)
    requires MapOk(s) && one != two && size >= 0
    requires one in s.names && two in s.names
    requires FirstFit(BothUnlinked(s, s.names[one], s.names[two]).mem, 6 * size, 0).Some?
    ensures var t, u := OpenShared(s, size, one, two), BothUnlinked(s, s.names[one], s.names[two]);
            && NamesOk(t) && LinksOk(t)
            && (MarksOk(t) <==> !Marked(u.mem, ExtraCell(u.mem, size)))
  {
    var a, b := s.names[one], s.names[two];
    assert s.pcbs[a].name == one && s.pcbs[b].name == two;
    BothUnlinkedOk(s, a, b);
    var u := BothUnlinked(s, a, b);
    assert OpenShared(s, size, one, two) == Share(u, a, b, size);
    hide BothUnlinked;
    hide OpenShared;
    hide Share;
    ShareNames(u, a, b, size);
    ShareLinks(u, a, b, size);
    ShareMarks(u, a, b, size);
  }

  lemma LinksAll(s: State)
    requires LinksOk(s)
    ensures LinksOkBut(s, {})
  {
    forall g: nat | g < |s.segments|
      ensures Linked(s, g) - {} == Linked(s, g)
    {
    }
  }

  lemma ShareNames(s: State, a: nat, b: nat, size: int)
    requires NamesOk(s)
    ensures NamesOk(Share(s, a, b, size))
  {
    var t := Share(s, a, b, size);
    forall n | n in t.names
      ensures Live(t, t.names[n]) && t.pcbs[t.names[n]].name == n
    {
      assert n in s.names && Live(s, s.names[n]);
    }
  }

  // ---------- runs ----------

  // A run without forks, in which every segment is opened between different processes, with
  // a free run large enough and a free extra cell.
  ghost predicate Careful(s: State, e: Event) {
    match e
    case Tick(p) => CodeOf(p, s) != FORK
    case OpenSegment(size, one, two) =>
      one in s.names && two in s.names ==>
        && one != two && size >= 0
        && var u := BothUnlinked(s, s.names[one], s.names[two]);
           FirstFit(u.mem, 6 * size, 0).Some? && !Marked(u.mem, ExtraCell(u.mem, size))
    case _ => true
  }

  ghost predicate CarefulRun(s: State, es: seq<Event>)
    decreases |es|
  {
    es != [] ==> Careful(s, es[0]) && CarefulRun(Apply(s, es[0]), es[1..])
  }

  lemma ApplyMapOk(s: State, e: Event)
    requires Sound(s) && MapOk(s) && Careful(s, e)
    ensures MapOk(Apply(s, e))
  {
    match e
    case Tick(p) => StepMapOk(p, s);
    case Arrive(name, i) => LoadMapOk(s, name, i);
    case NewSemaphore(value, one, two) => SameMapOk(s, Apply(s, e));
    case OpenSegment(size, one, two) =>
      if one in s.names && two in s.names {
        OpenMapOk(s, size, one, two);
      }
    case Log => SameMapOk(s, Apply(s, e));
  }

  // Over every such run: a cell is marked exactly when it lies in exactly one live program or
  // shared region, every segment counts exactly the live processes linked to it, and names
  // lead only to live processes.
  lemma {:induction false} RunMapOk(s: State, es: seq<Event>)
    requires Sound(s) && MapOk(s) && CarefulRun(s, es)
    ensures MapOk(Run(s, es))
    decreases |es|
  {
    if es != [] {
      ApplySound(s, es[0]);
      ApplyMapOk(s, es[0]);
      RunMapOk(Apply(s, es[0]), es[1..]);
    }
  }

  lemma BootMapOk()
    ensures MapOk(Boot())
  {
  }

  const ImageA: Image := Image(6, 5, 0, [])
  const ImageB: Image := Image(20, 5, 0, [])

  // Two programs, at cells 6..11 and 20..25.
  function TwoPrograms(): State {
    LoadProgram(LoadProgram(Boot(), "a", ImageA), "b", ImageB)
  }

  lemma TwoProgramsLoaded()
    ensures var s := TwoPrograms();
            && s.names == map["a" := 0, "b" := 1] && |s.pcbs| == 2 && s.segments == [] && |s.mem| == CAPACITY
            && s.pcbs[0].shm.None? && s.pcbs[1].shm.None?
            && (forall a :: 0 <= a < CAPACITY ==> (s.mem[a].marked <==> 6 <= a <= 11 || 20 <= a <= 25))
  {
    assert "a" != "b";
    assert LoadCode(Boot(), ImageA) == 0;
    var one := LoadProgram(Boot(), "a", ImageA);
    assert forall a :: 0 <= a < CAPACITY ==> (one.mem[a].marked <==> 6 <= a <= 11);
    assert LoadCode(one, ImageB) == 0;
  }

  // The one cell more can belong to somebody: a segment of one instruction for these two
  // programs takes the six free cells 0..5 and marks cell 6, which is the first of program "a".
  lemma ExtraCellBreaksMarks()
    ensures MapOk(TwoPrograms()) && !MarksOk(OpenShared(TwoPrograms(), 1, "a", "b"))
  {
    var s := TwoPrograms();
    TwoProgramsMapOk();
    TwoProgramsLoaded();
    hide TwoPrograms;
    hide MapOk;
    assert BothUnlinked(s, 0, 1) == s;
    assert FreeRun(s.mem, 0, 6) && Marked(s.mem, 6);
    assert FirstFit(s.mem, 6, 0) == Some(0);
    hide FirstFit;
    hide BothUnlinked;
    OpenMapOk(s, 1, "a", "b");
  }

  lemma TwoProgramsMapOk()
    ensures MapOk(TwoPrograms())
  {
    var one := LoadProgram(Boot(), "a", ImageA);
    BootSound();
    BootMapOk();
    LoadMapOk(Boot(), "a", ImageA);
    ApplySound(Boot(), Arrive("a", ImageA));
    hide LoadProgram;
    hide MapOk;
    LoadMapOk(one, "b", ImageB);
  }
}
