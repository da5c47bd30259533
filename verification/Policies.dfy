// The three policies compared: when two of them make the very same decisions.
module Policies {
  import opened Options
  import opened Machine
  import opened MachineLaws
  import opened Processes
  import opened System
  import opened Census
  import opened Levels
  import opened Fairness

  // A process without the two fields that only record scheduling: the quantum count and pState.
  function Strip(p: Process): Process {
    p.(quantumCount := 0, tag := Created)
  }

  // The same system: processes with their contexts, queues, running process, CPU, memory and
  // clock. Only the quantum clock, quantum counts and state tags may differ.
  ghost predicate Alike(s: State, t: State) {
    && s.(pcbs := [], quantumClock := 0) == t.(pcbs := [], quantumClock := 0)
    && |s.pcbs| == |t.pcbs|
    && forall x: nat :: x < |s.pcbs| ==> Strip(s.pcbs[x]) == Strip(t.pcbs[x])
  }

  ghost predicate AllTop(s: State) {
    forall x: nat :: Prio(s, x) == 0
  }

  // ---------- every operation respects Alike ----------

  lemma GetAlike(s: State, t: State, x: nat)
    requires Alike(s, t)
    ensures Strip(Get(s, x)) == Strip(Get(t, x))
  {
  }

  lemma PutAlike(s: State, t: State, h: nat, p: Process, q: Process)
    requires Alike(s, t) && Strip(p) == Strip(q)
    ensures Alike(Put(s, h, p), Put(t, h, q))
  {
  }

  lemma EnqueueAlike(s: State, t: State, h: nat, tag: Tag)
    requires Alike(s, t)
    ensures Alike(Enqueue(s, h, tag), Enqueue(t, h, tag))
  {
    GetAlike(s, t, h);
    var a, b := Push(s, h, tag), Push(t, h, tag);
    assert Alike(a, b);
    GetAlike(a, b, h);
    PutAlike(a, b, h, Get(a, h).(tag := tag), Get(b, h).(tag := tag));
  }

  lemma {:induction false} AdmitAlike(s: State, t: State)
    requires Alike(s, t)
    ensures Alike(Admit(s), Admit(t))
    decreases |s.arrived|
  {
    if s.arrived != [] {
      var a, b := s.(arrived := s.arrived[1..]), t.(arrived := t.arrived[1..]);
      assert Alike(a, b);
      EnqueueAlike(a, b, s.arrived[0], Ready);
      AdmitAlike(Enqueue(a, s.arrived[0], Ready), Enqueue(b, t.arrived[0], Ready));
    }
  }

  lemma SwitchInAlike(s: State, t: State)
    requires Alike(s, t)
    ensures Alike(SwitchIn(s), SwitchIn(t)) && Alike(TagRunning(SwitchIn(s)), SwitchIn(t))
    ensures Alike(TagRunning(SwitchIn(s)), TagRunning(SwitchIn(t)))
  {
    if !NoneReady(s) {
      GetAlike(s, t, s.ready[Top(s.ready)][0]);
    }
  }

  lemma SaveAlike(s: State, t: State, h: nat)
    requires Alike(s, t)
    ensures Alike(Save(s, h), Save(t, h))
  {
    GetAlike(s, t, h);
    PutAlike(s, t, h, Get(s, h).(cpu := s.cpu), Get(t, h).(cpu := t.cpu));
  }

  lemma ExecuteAlike(p: Policy, q: Policy, s: State, t: State, h: nat)
    requires Alike(s, t)
    ensures CycleOf(s, h) == CycleOf(t, h) && Alike(Execute(p, s, h), Execute(q, t, h))
  {
    GetAlike(s, t, h);
  }

  lemma UnlinkAlike(s: State, t: State, h: nat)
    requires Alike(s, t)
    ensures Alike(Unlink(s, h), Unlink(t, h))
  {
    GetAlike(s, t, h);
  }

  lemma DeallocateAlike(s: State, t: State, h: nat)
    requires Alike(s, t)
    ensures Alike(Deallocate(s, h), Deallocate(t, h))
  {
    UnlinkAlike(s, t, h);
    var a, b := Unlink(s, h), Unlink(t, h);
    GetAlike(a, b, h);
    hide Unlink;
    var c := a.(mem := SetMarks(a.mem, Get(a, h).load, Get(a, h).load + Get(a, h).size, false), names := a.names - {Get(a, h).name});
    var d := b.(mem := SetMarks(b.mem, Get(b, h).load, Get(b, h).load + Get(b, h).size, false), names := b.names - {Get(b, h).name});
    assert Alike(c, d);
    PutAlike(c, d, h, Finish(Get(a, h), c.clock), Finish(Get(b, h), d.clock));
  }

  lemma ForkAlike(s: State, t: State, h: nat)
    requires Alike(s, t)
    ensures Alike(Fork(s, h), Fork(t, h))
  {
    GetAlike(s, t, h);
    var c := |s.pcbs|;
    var x, y := Child(Get(s, h), s.clock), Child(Get(t, h), t.clock);
    assert x == y;
    var a, b := Put(s, h, Get(s, h).(child := Some(c))), Put(t, h, Get(t, h).(child := Some(c)));
    PutAlike(s, t, h, Get(s, h).(child := Some(c)), Get(t, h).(child := Some(c)));
    EnqueueAlike(a.(pcbs := a.pcbs + [x], names := a.names[x.name := c]),
                 b.(pcbs := b.pcbs + [y], names := b.names[y.name := c]), c, Ready);
  }

  lemma BlockAlike(s: State, t: State, h: nat)
    requires Alike(s, t) && HasSemaphore(s, h)
    ensures HasSemaphore(t, h) && Alike(Block(s, h), Block(t, h))
  {
    GetAlike(s, t, h);
  }

  lemma ReleaseAlike(s: State, t: State, h: nat)
    requires Alike(s, t)
    ensures Alike(Release(s, h), Release(t, h))
  {
    GetAlike(s, t, h);
    if HasSemaphore(s, h) {
      var i := Get(s, h).semId;
      var sem := s.semaphores[i].(value := s.semaphores[i].value + 1);
      if sem.blocked != [] {
        var sems := s.semaphores[i := sem.(blocked := sem.blocked[1..])];
        EnqueueAlike(s.(semaphores := sems), t.(semaphores := sems), sem.blocked[0], Ready);
      }
    }
  }

  lemma SharedAddressAlike(s: State, t: State, h: nat)
    requires Alike(s, t)
    ensures Alike(SharedAddress(s, h), SharedAddress(t, h))
  {
    GetAlike(s, t, h);
    EnqueueAlike(PopWaiting(s), PopWaiting(t), FrontWaiting(s, h), Terminated);
    DeallocateAlike(Enqueue(PopWaiting(s), FrontWaiting(s, h), Terminated), Enqueue(PopWaiting(t), FrontWaiting(t, h), Terminated), h);
    hide Deallocate;
    hide Enqueue;
  }

  lemma ServiceAlike(s: State, t: State, h: nat, code: int)
    requires Alike(s, t)
    ensures Alike(Service(s, h, code), Service(t, h, code))
  {
    GetAlike(s, t, h);
    if code == PRINT {
      PutAlike(s, t, h, Get(s, h).(cpu := AfterPrint(Get(s, h).cpu, s.mem)), Get(t, h).(cpu := AfterPrint(Get(t, h).cpu, t.mem)));
    } else if code == FORK {
      ForkAlike(s, t, h);
    } else if code == SHARED_ADDRESS {
      SharedAddressAlike(s, t, h);
    } else if code == RELEASE {
      ReleaseAlike(s, t, h);
    } else if HasSemaphore(s, h) {
      BlockAlike(s, t, h);
    }
  }

  lemma ParkAlike(s: State, t: State, h: nat)
    requires Alike(s, t)
    ensures Alike(Park(s, h), Park(t, h))
  {
    SaveAlike(s, t, h);
    EnqueueAlike(Save(s, h), Save(t, h), h, Waiting);
  }

  lemma ResumeAlike(p: Policy, q: Policy, s: State, t: State, h: nat)
    requires Alike(s, t)
    ensures Alike(Vacate(p, Resume(s, h)), Vacate(q, Resume(t, h)))
  {
    EnqueueAlike(PopWaiting(s), PopWaiting(t), h, Ready);
  }

  // The reward of a SWI changes only the quantum count of a top-level process.
  lemma RewardAlike(p: Policy, q: Policy, s: State, t: State, h: nat)
    requires Alike(s, t) && Get(s, h).priority == 0
    ensures Alike(Reward(p, s, h), Reward(q, t, h))
  {
    GetAlike(s, t, h);
  }

  lemma SettleAlike(p: Policy, q: Policy, s: State, t: State, h: nat, code: int)
    requires Alike(s, t) && Get(s, h).priority == 0
    ensures Alike(Settle(p, s, h, code), Settle(q, t, h, code))
  {
    if code >= 20 {
      ParkAlike(s, t, h);
      ParkGrows(s, h);
      assert Prio(Park(s, h), h) == Prio(s, h);
      ServiceAlike(Park(s, h), Park(t, h), h, code);
      ServiceGrows(Park(s, h), h, code);
      var a, b := Service(Park(s, h), h, code), Service(Park(t, h), h, code);
      assert Prio(a, h) == Prio(Park(s, h), h);
      hide Service;
      hide Park;
      RewardAlike(p, q, a, b, h);
      ResumeAlike(p, q, Reward(p, a, h), Reward(q, b, h), h);
    } else if code == HALTED {
      SaveAlike(s, t, h);
      EnqueueAlike(Save(s, h), Save(t, h), h, Terminated);
      DeallocateAlike(Enqueue(Save(s, h), h, Terminated), Enqueue(Save(t, h), h, Terminated), h);
      hide Deallocate;
      hide Enqueue;
    }
  }

  lemma ActAlike(p: Policy, q: Policy, s: State, t: State)
    requires Alike(s, t) && (s.running.Some? ==> Get(s, s.running.value).priority == 0)
    ensures Alike(Act(p, s), Act(q, t))
  {
    if s.running.Some? {
      var h := s.running.value;
      ExecuteAlike(p, q, s, t, h);
      assert Get(Execute(p, s, h), h).priority == Get(s, h).priority;
      SettleAlike(p, q, Execute(p, s, h), Execute(q, t, h), h, CycleOf(s, h).code);
    }
  }

  lemma ShareAlike(s: State, t: State, a: nat, b: nat, size: int)
    requires Alike(s, t)
    ensures Alike(Share(s, a, b, size), Share(t, a, b, size))
  {
    GetAlike(s, t, a);
    GetAlike(s, t, b);
  }

  lemma LoadAlike(s: State, t: State, name: string, i: Image)
    requires Alike(s, t)
    ensures Alike(LoadProgram(s, name, i), LoadProgram(t, name, i))
  {
    var h := |s.pcbs|;
    var p := Loaded(name, s.loaded, i.load, i.size, i.first, s.clock);
    var m := SetMarks(Written(s.mem, i), i.load, i.load + i.size, true);
    EnqueueAlike(s.(pcbs := s.pcbs + [p], loaded := s.loaded + 1, names := s.names[name := h], mem := m),
                 t.(pcbs := t.pcbs + [p], loaded := t.loaded + 1, names := t.names[name := h], mem := m), h, New);
  }

  lemma InitAlike(s: State, t: State, value: int, one: string, two: string)
    requires Alike(s, t)
    ensures Alike(InitSemaphore(s, value, one, two), InitSemaphore(t, value, one, two))
  {
    match (Lookup(s, one), Lookup(s, two))
    case (Some(a), Some(b)) =>
      GetAlike(s, t, a);
      GetAlike(s, t, b);
    case _ =>
  }

  lemma OpenAlike(s: State, t: State, size: int, one: string, two: string)
    requires Alike(s, t)
    ensures Alike(OpenShared(s, size, one, two), OpenShared(t, size, one, two))
  {
    match (Lookup(s, one), Lookup(s, two))
    case (Some(a), Some(b)) =>
      UnlinkAlike(s, t, a);
      UnlinkAlike(Unlink(s, a), Unlink(t, a), b);
      ShareAlike(Unlink(Unlink(s, a), b), Unlink(Unlink(t, a), b), a, b, size);
      hide Unlink;
      hide Share;
    case _ =>
  }

  lemma QuietAlike(s: State, t: State, e: Event)
    requires Alike(s, t) && !e.Tick?
    ensures Alike(Apply(s, e), Apply(t, e))
  {
    match e
    case Arrive(name, i) => LoadAlike(s, t, name, i);
    case NewSemaphore(value, one, two) => InitAlike(s, t, value, one, two);
    case OpenSegment(size, one, two) => OpenAlike(s, t, size, one, two);
    case Log =>
  }

  // ---------- FCFS and round robin never change a priority ----------

  lemma FlatPrepare(p: Policy, s: State)
    requires !p.Mlfq?
    ensures SamePriorities(s, Prepare(p, s))
  {
    AdmitGrows(s);
    var a := Admit(s);
    FlatSwitch(a);
    var d := DispatchIdle(p, a);
    if Preempts(p, d) {
      var h := d.running.value;
      assert SamePriorities(d, Save(d, h));
      EnqueueGrows(Save(d, h), h, Ready);
      FlatSwitch(Enqueue(Save(d, h), h, Ready));
    }
  }

  lemma FlatSwitch(s: State)
    ensures SamePriorities(s, SwitchIn(s)) && SamePriorities(s, TagRunning(SwitchIn(s)))
  {
  }

  lemma FlatAct(p: Policy, s: State)
    requires !p.Mlfq?
    ensures SamePriorities(s, Act(p, s))
  {
    if s.running.Some? {
      var h := s.running.value;
      var t := Execute(p, s, h);
      assert SamePriorities(s, t);
      var code := CycleOf(s, h).code;
      if code >= 20 {
        ParkGrows(t, h);
        ServiceGrows(Park(t, h), h, code);
        ResumeGrows(p, Service(Park(t, h), h, code), h);
      } else if code == HALTED {
        TerminateGrows(p, t, h);
      }
    }
  }

  lemma FlatStep(p: Policy, s: State)
    requires !p.Mlfq? && AllTop(s)
    ensures AllTop(Prepare(p, s)) && AllTop(Step(p, s))
  {
    FlatPrepare(p, s);
    FlatAct(p, Prepare(p, s));
  }

  lemma FlatApply(s: State, e: Event)
    requires AllTop(s) && (e.Tick? ==> !e.policy.Mlfq?)
    ensures AllTop(Apply(s, e))
  {
    if e.Tick? {
      FlatStep(e.policy, s);
    } else {
      QuietReady(s, e);
    }
  }

  // With all priorities 0 the two lower queues are empty.
  lemma OnlyTopQueue(s: State)
    requires Sorted(s) && AllTop(s)
    ensures s.ready[1] == [] && s.ready[2] == []
  {
    assert forall k: nat :: 1 <= k < 3 && s.ready[k] != [] ==> Prio(s, s.ready[k][0]) == k;
  }

  // ---------- the same events under another policy ----------

  function Under(e: Event, p: Policy): Event {
    if e.Tick? then Tick(p) else e
  }

  function AllUnder(es: seq<Event>, p: Policy): seq<Event> {
    if es == [] then [] else [Under(es[0], p)] + AllUnder(es[1..], p)
  }

  // ---------- MLFQ and round robin ----------

  // The call charges the running process its fifth expiry in a row, which demotes it.
  predicate Demotes(p: Policy, s: State) {
    var d := DispatchIdle(p, Admit(s));
    Preempts(p, d) && Get(d, d.running.value).quantumCount >= 4
  }

  predicate NoDemotion(s: State, es: seq<Event>)
    decreases |es|
  {
    es != [] ==> (es[0].Tick? ==> !Demotes(es[0].policy, s)) && NoDemotion(Apply(s, es[0]), es[1..])
  }

  // MLFQ state `s` and round-robin state `t`: alike, and the quantum clocks agree modulo the
  // quantum and on being zero.
  ghost predicate InStep(q: int, s: State, t: State)
    requires q >= 1
  {
    Alike(s, t) && Steady(s) && Steady(t) && AllTop(t) && s.quantumClock % q == t.quantumClock % q
  }

  lemma AlikeTop(s: State, t: State)
    requires Alike(s, t) && AllTop(t)
    ensures AllTop(s)
  {
    forall x: nat
      ensures Prio(s, x) == 0
    {
      GetAlike(s, t, x);
      assert Prio(t, x) == 0;
    }
  }

  lemma DispatchInStep(q: int, f: int, s: State, t: State)
    requires q >= 1 && Alike(s, t) && Clocked(s) && Clocked(t) && s.arrived == [] && s.waiting == []
    requires s.quantumClock % q == t.quantumClock % q
    ensures var c, d := DispatchIdle(Mlfq(q, f), s), DispatchIdle(Rr(q), t);
            && Alike(c, d) && c.quantumClock % q == d.quantumClock % q && (c.quantumClock == 0 <==> d.quantumClock == 0)
            && c.quantumClock >= 0 && d.quantumClock >= 0
  {
    SwitchInAlike(s, t);
  }

  lemma PreemptInStep(q: int, f: int, s: State, t: State)
    requires q >= 1 && Alike(s, t) && AllTop(s) && s.ready[1] == [] && s.ready[2] == []
    requires s.quantumClock % q == t.quantumClock % q && (s.quantumClock == 0 <==> t.quantumClock == 0)
    requires s.quantumClock >= 0 && t.quantumClock >= 0
    requires Preempts(Mlfq(q, f), s) ==> Get(s, s.running.value).quantumCount < 4
    ensures Preempts(Mlfq(q, f), s) <==> Preempts(Rr(q), t)
    ensures var c, d := Preempt(Mlfq(q, f), s), Preempt(Rr(q), t);
            Alike(c, d) && c.quantumClock % q == d.quantumClock % q && c.quantumClock >= 0
  {
    if s.running.Some? {
      assert Prio(s, s.running.value) == 0;
    }
    assert Preempts(Mlfq(q, f), s) <==> Preempts(Rr(q), t);
    if Preempts(Mlfq(q, f), s) {
      SwapInStep(q, f, s, t, s.running.value);
    }
    hide Preempts;
    hide Charge;
    hide Enqueue;
    hide SwitchIn;
  }

  // Both preempt: MLFQ starts its clock again, round robin is at a multiple of the quantum.
  lemma SwapInStep(q: int, f: int, s: State, t: State, h: nat)
    requires q >= 1 && Alike(s, t) && Get(s, h).quantumCount < 4 && t.quantumClock % q == 0
    ensures var c := TagRunning(SwitchIn(Enqueue(Charge(Mlfq(q, f), s, h), h, Ready)));
            var d := TagRunning(SwitchIn(Enqueue(Charge(Rr(q), t, h), h, Ready)));
            Alike(c, d) && c.quantumClock == 0 && d.quantumClock % q == 0
  {
    ChargeInStep(q, f, s, t, h);
    var c, d := Charge(Mlfq(q, f), s, h), Charge(Rr(q), t, h);
    assert c.quantumClock == 0 && d.quantumClock == t.quantumClock;
    hide Charge;
    EnqueueAlike(c, d, h, Ready);
    SwitchInAlike(Enqueue(c, h, Ready), Enqueue(d, h, Ready));
    assert Enqueue(c, h, Ready).quantumClock == 0 && Enqueue(d, h, Ready).quantumClock == t.quantumClock;
    hide Enqueue;
  }

  lemma ChargeInStep(q: int, f: int, s: State, t: State, h: nat)
    requires Alike(s, t) && Get(s, h).quantumCount < 4
    ensures Alike(Charge(Mlfq(q, f), s, h), Charge(Rr(q), t, h))
  {
    SaveAlike(s, t, h);
    var a, b := Save(s, h), Save(t, h);
    GetAlike(a, b, h);
    if h < |s.pcbs| {
      assert Get(a, h).quantumCount < 4;
    }
    PutAlike(a, b, h, UseQuantum(Get(a, h)), Get(b, h));
  }

  lemma PrepareInStep(q: int, f: int, s: State, t: State)
    requires q >= 1 && f >= 1 && InStep(q, s, t) && !Demotes(Mlfq(q, f), s)
    ensures var c, d := Prepare(Mlfq(q, f), s), Prepare(Rr(q), t);
            Alike(c, d) && c.quantumClock % q == d.quantumClock % q && AllTop(c)
  {
    AdmitAlike(s, t);
    AdmitGrows(s);
    AdmitGrows(t);
    AdmitPlaces(s, 0);
    var a, b := Admit(s), Admit(t);
    AlikeTop(s, t);
    DispatchInStep(q, f, a, b);
    DispatchSorted(Mlfq(q, f), a);
    var c, d := DispatchIdle(Mlfq(q, f), a), DispatchIdle(Rr(q), b);
    OnlyTopQueue(c);
    PreemptInStep(q, f, c, d);
    FlatStep(Rr(q), t);
    AlikeTop(Preempt(Mlfq(q, f), c), Preempt(Rr(q), d));
  }

  lemma ActClock(p: Policy, s: State)
    requires Slicing(p) && s.quantumClock >= 0 && (s.running.Some? ==> s.running.value < |s.pcbs|)
    ensures Act(p, s).quantumClock ==
              if s.running.None? then s.quantumClock
              else if Act(p, s).running.None? then 0 else s.quantumClock + 1
  {
    if s.running.Some? {
      ActRuns(p, s);
    }
  }

  lemma SuccMod(a: int, b: int, q: int)
    requires q >= 1 && a % q == b % q
    ensures (a + 1) % q == (b + 1) % q
  {
    DivMod(a, q);
    DivMod(b, q);
    DivMod(b + 1, q);
    var k := a / q - b / q;
    Distrib(a / q, b / q, q);
    assert a + 1 == k * q + (b + 1);
    Distrib(k, -((b + 1) / q), q);
    ModUnique(a + 1, k + (b + 1) / q, (b + 1) % q, q);
  }

  lemma ActInStep(q: int, f: int, s: State, t: State)
    requires q >= 1 && f >= 1 && Alike(s, t) && AllTop(s) && s.quantumClock % q == t.quantumClock % q
    requires s.quantumClock >= 0 && t.quantumClock >= 0 && (s.running.Some? ==> s.running.value < |s.pcbs|)
    ensures var u, v := Act(Mlfq(q, f), s), Act(Rr(q), t);
            Alike(u, v) && u.quantumClock % q == v.quantumClock % q
  {
    if s.running.Some? {
      assert Prio(s, s.running.value) == 0;
    }
    ActAlike(Mlfq(q, f), Rr(q), s, t);
    ActClock(Mlfq(q, f), s);
    ActClock(Rr(q), t);
    hide Act;
    SuccMod(s.quantumClock, t.quantumClock, q);
  }

  lemma StepInStep(q: int, f: int, s: State, t: State)
    requires q >= 1 && f >= 1 && InStep(q, s, t) && !Demotes(Mlfq(q, f), s)
    ensures InStep(q, Step(Mlfq(q, f), s), Step(Rr(q), t))
    ensures Executor(Mlfq(q, f), s) == Executor(Rr(q), t)
  {
    PrepareInStep(q, f, s, t);
    PreparedFacts(Mlfq(q, f), s);
    PreparedFacts(Rr(q), t);
    ActInStep(q, f, Prepare(Mlfq(q, f), s), Prepare(Rr(q), t));
    ApplySteady(s, Tick(Mlfq(q, f)));
    ApplySteady(t, Tick(Rr(q)));
    FlatStep(Rr(q), t);
    hide Prepare;
    hide Act;
  }

  // As long as MLFQ demotes nobody it does what round robin does with the same quantum: same
  // running process, queues, contexts, memory and clock, with quantum clocks that agree
  // modulo the quantum although only MLFQ resets its clock on a switch.
  lemma {:induction false} FeedbackIsRoundRobin(q: int, f: int, s: State, t: State, es: seq<Event>)
    requires q >= 1 && f >= 1 && InStep(q, s, t)
    requires NoDemotion(s, AllUnder(es, Mlfq(q, f)))
    ensures InStep(q, Run(s, AllUnder(es, Mlfq(q, f))), Run(t, AllUnder(es, Rr(q))))
    decreases |es|
  {
    if es != [] {
      var m, r := Under(es[0], Mlfq(q, f)), Under(es[0], Rr(q));
      var ms, rs := AllUnder(es, Mlfq(q, f)), AllUnder(es, Rr(q));
      assert ms[0] == m && ms[1..] == AllUnder(es[1..], Mlfq(q, f));
      assert rs[0] == r && rs[1..] == AllUnder(es[1..], Rr(q));
      if es[0].Tick? {
        StepInStep(q, f, s, t);
      } else {
        QuietAlike(s, t, m);
        ApplySteady(s, m);
        ApplySteady(t, r);
        FlatApply(t, r);
        QuietReady(s, m);
        QuietReady(t, r);
      }
      FeedbackIsRoundRobin(q, f, Apply(s, m), Apply(t, r), es[1..]);
    }
  }

  // ---------- round robin and FCFS ----------

  // Instructions since the last dispatch, after a call, when there were `b` before it.
  function BurstAfter(p: Policy, s: State, b: nat): nat {
    var before := if s.running.None? then 0 else b;
    if Step(p, s).running.None? then 0 else before + 1
  }

  // In the FCFS run no process executes more than q instructions between its dispatch and
  // its next SWI or halt; `b` were executed before the run starts.
  predicate ShortBursts(q: int, s: State, es: seq<Event>, b: nat)
    decreases |es|
  {
    es != [] ==>
      if es[0].Tick? then
        && (Executor(es[0].policy, s).Some? ==> (if s.running.None? then 0 else b) < q)
        && ShortBursts(q, Apply(s, es[0]), es[1..], BurstAfter(es[0].policy, s, b))
      else ShortBursts(q, Apply(s, es[0]), es[1..], b)
  }

  // FCFS state `s` and round-robin state `t`.
  ghost predicate Together(s: State, t: State, b: nat) {
    && Alike(s, t) && Sound(s) && Steady(t) && AllTop(t)
    && t.quantumClock == if s.running.None? then 0 else b
  }

  lemma PrepareTogether(q: int, s: State, t: State, b: nat)
    requires q >= 1 && Together(s, t, b)
    requires Executor(Fcfs, s).Some? ==> (if s.running.None? then 0 else b) < q
    ensures Alike(Prepare(Fcfs, s), Prepare(Rr(q), t))
    ensures Prepare(Rr(q), t).quantumClock == t.quantumClock
  {
    AdmitAlike(s, t);
    AdmitPlaces(s, 0);
    AdmitGrows(s);
    AdmitGrows(t);
    var a, c := Admit(s), Admit(t);
    SwitchInAlike(a, c);
    var d := DispatchIdle(Rr(q), c);
    assert Alike(DispatchIdle(Fcfs, a), d) && d.quantumClock == t.quantumClock;
    if d.quantumClock != 0 {
      ModUnique(d.quantumClock, 0, d.quantumClock, q);
    }
    assert !Preempts(Rr(q), d);
  }

  lemma StepTogether(q: int, s: State, t: State, b: nat)
    requires q >= 1 && Together(s, t, b)
    requires Executor(Fcfs, s).Some? ==> (if s.running.None? then 0 else b) < q
    ensures Together(Step(Fcfs, s), Step(Rr(q), t), BurstAfter(Fcfs, s, b))
    ensures Executor(Fcfs, s) == Executor(Rr(q), t)
  {
    PrepareTogether(q, s, t, b);
    var c, d := Prepare(Fcfs, s), Prepare(Rr(q), t);
    PreparedFacts(Rr(q), t);
    ApplySound(s, Tick(Fcfs));
    ApplySteady(t, Tick(Rr(q)));
    FlatStep(Rr(q), t);
    AlikeTop(c, d);
    if c.running.Some? {
      assert Prio(c, c.running.value) == 0;
    }
    ActAlike(Fcfs, Rr(q), c, d);
    ActClock(Rr(q), d);
  }

  // Round robin refines to FCFS: when every burst of the FCFS run fits in the quantum, the
  // round-robin run agrees with it on everything but the quantum clock and the state tags.
  lemma {:induction false} RoundRobinIsFcfs(q: int, s: State, t: State, es: seq<Event>, b: nat)
    requires q >= 1 && Together(s, t, b) && ShortBursts(q, s, AllUnder(es, Fcfs), b)
    ensures Alike(Run(s, AllUnder(es, Fcfs)), Run(t, AllUnder(es, Rr(q))))
    decreases |es|
  {
    if es != [] {
      var m, r := Under(es[0], Fcfs), Under(es[0], Rr(q));
      var ms, rs := AllUnder(es, Fcfs), AllUnder(es, Rr(q));
      assert ms[0] == m && ms[1..] == AllUnder(es[1..], Fcfs);
      assert rs[0] == r && rs[1..] == AllUnder(es[1..], Rr(q));
      if es[0].Tick? {
        StepTogether(q, s, t, b);
        RoundRobinIsFcfs(q, Apply(s, m), Apply(t, r), es[1..], BurstAfter(Fcfs, s, b));
      } else {
        QuietAlike(s, t, m);
        ApplySound(s, m);
        ApplySteady(t, r);
        FlatApply(t, r);
        QuietReady(s, m);
        QuietReady(t, r);
        RoundRobinIsFcfs(q, Apply(s, m), Apply(t, r), es[1..], b);
      }
    }
  }
}
