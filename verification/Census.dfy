// Conservation of processes: every created process is in exactly one place.
module Census {
  import opened Options
  import opened Machine
  import opened Processes
  import opened System

  function Occ(q: seq<nat>, x: nat): nat {
    multiset(q)[x]
  }

  function One(h: nat, x: nat): nat {
    if h == x then 1 else 0
  }

  // Occurrences in all block queues.
  function Blocked(sems: seq<Semaphore>, x: nat): nat {
    if sems == [] then 0
    else Occ(sems[|sems| - 1].blocked, x) + Blocked(sems[..|sems| - 1], x)
  }

  function InReady(q: Levels, x: nat): nat {
    Occ(q[0], x) + Occ(q[1], x) + Occ(q[2], x)
  }

  // How often `x` is held by the queues, the block queues and the running slot together.
  function Places(s: State, x: nat): nat {
    Occ(s.arrived, x) + Occ(s.waiting, x) + InReady(s.ready, x) + Occ(s.terminated, x) + Occ(s.logged, x)
    + Blocked(s.semaphores, x) + if s.running == Some(x) then 1 else 0
  }

  ghost predicate Conserved(s: State) {
    forall x: nat :: Places(s, x) == if x < |s.pcbs| then 1 else 0
  }

  // Priorities name one of the three levels, so no enqueued process is dropped.
  ghost predicate Ranged(s: State) {
    forall h: nat :: h < |s.pcbs| ==> 0 <= s.pcbs[h].priority <= 2
  }

  ghost predicate Sound(s: State) {
    Conserved(s) && Ranged(s) && s.waiting == []
  }

  // ---------- queue arithmetic ----------

  lemma OccTail(q: seq<nat>, x: nat)
    requires q != []
    ensures Occ(q, x) == One(q[0], x) + Occ(q[1..], x)
  {
    assert q == [q[0]] + q[1..];
  }

  lemma {:induction false} BlockedUpdate(sems: seq<Semaphore>, i: nat, t: Semaphore, x: nat)
    requires i < |sems|
    ensures Blocked(sems[i := t], x) + Occ(sems[i].blocked, x) == Blocked(sems, x) + Occ(t.blocked, x)
  {
    var n := |sems| - 1;
    if i == n {
      assert sems[i := t][..n] == sems[..n];
    } else {
      assert sems[i := t][..n] == sems[..n][i := t];
      BlockedUpdate(sems[..n], i, t, x);
    }
  }

  lemma BlockedAppend(sems: seq<Semaphore>, t: Semaphore, x: nat)
    ensures Blocked(sems + [t], x) == Blocked(sems, x) + Occ(t.blocked, x)
  {
    assert (sems + [t])[..|sems|] == sems;
  }

  predicate IsQueue(t: Tag) {
    t == New || t == Ready || t == Waiting || t == Terminated
  }

  lemma OccAppend(q: seq<nat>, h: nat, x: nat)
    ensures Occ(q + [h], x) == Occ(q, x) + One(h, x)
  {
  }

  lemma InReadyAppend(q: Levels, k: nat, h: nat, x: nat)
    requires k < 3
    ensures InReady(q[k := q[k] + [h]], x) == InReady(q, x) + One(h, x)
  {
    OccAppend(q[k], h, x);
  }

  lemma InReadyTail(q: Levels, k: nat, x: nat)
    requires k < 3 && q[k] != []
    ensures InReady(q[k := q[k][1..]], x) + One(q[k][0], x) == InReady(q, x)
  {
    OccTail(q[k], x);
  }

  lemma PushPlaces(s: State, h: nat, t: Tag, x: nat)
    requires IsQueue(t) && 0 <= Get(s, h).priority <= 2
    ensures Places(Push(s, h, t), x) == Places(s, x) + One(h, x)
  {
    match t
    case New => OccAppend(s.arrived, h, x);
    case Ready => InReadyAppend(s.ready, Get(s, h).priority, h, x);
    case Waiting => OccAppend(s.waiting, h, x);
    case Terminated => OccAppend(s.terminated, h, x);
  }

  lemma RetagPlaces(s: State, h: nat, t: Tag, x: nat)
    ensures Places(Retag(s, h, t), x) == Places(s, x)
  {
  }

  lemma EnqueuePlaces(s: State, h: nat, t: Tag, x: nat)
    requires IsQueue(t) && 0 <= Get(s, h).priority <= 2
    ensures Places(Enqueue(s, h, t), x) == Places(s, x) + One(h, x)
  {
    hide Places;
    PushPlaces(s, h, t, x);
    RetagPlaces(Push(s, h, t), h, t, x);
  }

  lemma EnqueueRanged(s: State, h: nat, t: Tag)
    requires Ranged(s)
    ensures Ranged(Enqueue(s, h, t)) && |Enqueue(s, h, t).pcbs| == |s.pcbs|
    ensures t != Waiting ==> Enqueue(s, h, t).waiting == s.waiting
    ensures t == Waiting ==> Enqueue(s, h, t).waiting == s.waiting + [h]
  {
  }

  // ---------- the phases of a step ----------

  lemma {:induction false} AdmitPlaces(s: State, x: nat)
    requires Ranged(s)
    ensures Places(Admit(s), x) == Places(s, x)
    ensures Ranged(Admit(s)) && |Admit(s).pcbs| == |s.pcbs|
    ensures Admit(s).waiting == s.waiting && Admit(s).arrived == [] && Admit(s).running == s.running
    decreases |s.arrived|
  {
    if s.arrived != [] {
      var h := s.arrived[0];
      var t := s.(arrived := s.arrived[1..]);
      OccTail(s.arrived, x);
      EnqueuePlaces(t, h, Ready, x);
      EnqueueRanged(t, h, Ready);
      AdmitPlaces(Enqueue(t, h, Ready), x);
    }
  }

  // The popped process takes the running slot; whoever held the slot is no longer counted there.
  lemma SwitchInPlaces(s: State, x: nat)
    requires !NoneReady(s)
    ensures Places(SwitchIn(s), x) == Places(s.(running := None), x)
    ensures SwitchIn(s).running.Some? && SwitchIn(s).pcbs == s.pcbs && SwitchIn(s).waiting == s.waiting
  {
    InReadyTail(s.ready, Top(s.ready), x);
  }

  lemma PutKeeps(s: State, h: nat, p: Process, x: nat)
    requires Ranged(s) && 0 <= p.priority <= 2
    ensures Places(Put(s, h, p), x) == Places(s, x)
    ensures Ranged(Put(s, h, p)) && |Put(s, h, p).pcbs| == |s.pcbs| && Put(s, h, p).waiting == s.waiting
  {
  }

  lemma DispatchPlaces(p: Policy, s: State, x: nat)
    requires Ranged(s) && s.waiting == [] && s.arrived == []
    ensures Places(DispatchIdle(p, s), x) == Places(s, x)
    ensures Ranged(DispatchIdle(p, s)) && |DispatchIdle(p, s).pcbs| == |s.pcbs|
    ensures DispatchIdle(p, s).waiting == []
  {
    if s.running.None? && !NoneReady(s) {
      SwitchInPlaces(s, x);
      var t := SwitchIn(s);
      var h := t.running.value;
      PutKeeps(t, h, Get(t, h).(tag := Running), x);
    }
  }

  lemma EnqueueReadyFills(s: State, h: nat)
    requires 0 <= Get(s, h).priority <= 2
    ensures !NoneReady(Enqueue(s, h, Ready)) && Enqueue(s, h, Ready).running == s.running
  {
  }

  lemma TagRunningKeeps(s: State, x: nat)
    requires Ranged(s)
    ensures Places(TagRunning(s), x) == Places(s, x)
    ensures Ranged(TagRunning(s)) && |TagRunning(s).pcbs| == |s.pcbs| && TagRunning(s).waiting == s.waiting
  {
  }

  lemma ChargeKeeps(p: Policy, s: State, h: nat, x: nat)
    requires Ranged(s)
    ensures var t := Charge(p, s, h);
            && Places(t, x) == Places(s, x) && Ranged(t) && |t.pcbs| == |s.pcbs|
            && t.waiting == s.waiting && t.running == s.running
  {
    PutKeeps(s, h, Get(s, h).(cpu := s.cpu), x);
    PutKeeps(Save(s, h), h, UseQuantum(Get(Save(s, h), h)), x);
  }

  lemma PreemptPlaces(p: Policy, s: State, x: nat)
    requires Ranged(s)
    ensures Places(Preempt(p, s), x) == Places(s, x)
    ensures Ranged(Preempt(p, s)) && |Preempt(p, s).pcbs| == |s.pcbs| && Preempt(p, s).waiting == s.waiting
  {
    if Preempts(p, s) {
      var h := s.running.value;
      var t := Charge(p, s, h);
      ChargeKeeps(p, s, h, x);
      EnqueuePlaces(t, h, Ready, x);
      EnqueueRanged(t, h, Ready);
      EnqueueReadyFills(t, h);
      SwitchInPlaces(Enqueue(t, h, Ready), x);
      TagRunningKeeps(SwitchIn(Enqueue(t, h, Ready)), x);
    }
  }

  lemma PreparePlaces(p: Policy, s: State, x: nat)
    requires Ranged(s) && s.waiting == []
    ensures Places(Prepare(p, s), x) == Places(s, x)
    ensures Ranged(Prepare(p, s)) && |Prepare(p, s).pcbs| == |s.pcbs| && Prepare(p, s).waiting == []
  {
    AdmitPlaces(s, x);
    DispatchPlaces(p, Admit(s), x);
    PreemptPlaces(p, DispatchIdle(p, Admit(s)), x);
  }

  // ---------- interrupts ----------

  // `t` has the same queues and slot as `s`, and the same number of processes.
  ghost predicate SameQueues(s: State, t: State) {
    && t.arrived == s.arrived && t.waiting == s.waiting && t.ready == s.ready && t.terminated == s.terminated
    && t.logged == s.logged && t.semaphores == s.semaphores && t.running == s.running && |t.pcbs| == |s.pcbs|
  }

  lemma DeallocateKeeps(s: State, h: nat)
    requires Ranged(s)
    ensures SameQueues(s, Deallocate(s, h)) && Ranged(Deallocate(s, h))
  {
    assert SameQueues(s, Unlink(s, h)) && Unlink(s, h).pcbs == s.pcbs;
  }

  lemma HaltPlaces(s: State, h: nat, x: nat)
    requires Ranged(s) && s.waiting == [h]
    ensures var t := Halt(s, h);
            Places(t, x) == Places(s, x) && Ranged(t) && |t.pcbs| == |s.pcbs| && t.waiting == [] && t.running == s.running
  {
    var t := PopWaiting(s);
    OccTail(s.waiting, x);
    EnqueuePlaces(t, h, Terminated, x);
    EnqueueRanged(t, h, Terminated);
    DeallocateKeeps(Enqueue(t, h, Terminated), h);
  }

  lemma BlockPlaces(s: State, h: nat, x: nat)
    requires Ranged(s) && s.waiting == [h] && HasSemaphore(s, h)
    ensures var t := Block(s, h);
            Places(t, x) == Places(s, x) && Ranged(t) && |t.pcbs| == |s.pcbs| && t.waiting == [] && t.running == s.running
  {
    var i := Get(s, h).semId;
    var sem := s.semaphores[i];
    OccTail(s.waiting, x);
    OccAppend(sem.blocked, h, x);
    BlockedUpdate(s.semaphores, i, sem.(blocked := sem.blocked + [h]), x);
  }

  lemma AcquirePlaces(s: State, h: nat, x: nat)
    requires Ranged(s) && s.waiting == [h]
    ensures var t := Acquire(s, h);
            Places(t, x) == Places(s, x) && Ranged(t) && |t.pcbs| == |s.pcbs| && t.running == s.running
            && (t.waiting == [h] || t.waiting == [])
  {
    if HasSemaphore(s, h) {
      var i := Get(s, h).semId;
      var sem := s.semaphores[i];
      if sem.value == 0 {
        BlockPlaces(s, h, x);
      } else {
        BlockedUpdate(s.semaphores, i, sem.(value := sem.value - 1), x);
      }
    }
  }

  lemma ReleasePlaces(s: State, h: nat, x: nat)
    requires Ranged(s)
    ensures var t := Release(s, h);
            Places(t, x) == Places(s, x) && Ranged(t) && |t.pcbs| == |s.pcbs| && t.waiting == s.waiting && t.running == s.running
  {
    if HasSemaphore(s, h) {
      var i := Get(s, h).semId;
      var sem := s.semaphores[i].(value := s.semaphores[i].value + 1);
      if sem.blocked == [] {
        BlockedUpdate(s.semaphores, i, sem, x);
      } else {
        var rest := sem.(blocked := sem.blocked[1..]);
        BlockedUpdate(s.semaphores, i, rest, x);
        OccTail(sem.blocked, x);
        var t := s.(semaphores := s.semaphores[i := rest]);
        EnqueuePlaces(t, sem.blocked[0], Ready, x);
        EnqueueRanged(t, sem.blocked[0], Ready);
      }
    }
  }

  lemma ForkPlaces(s: State, h: nat, x: nat)
    requires Ranged(s)
    ensures var t := Fork(s, h);
            Places(t, x) == Places(s, x) + One(|s.pcbs|, x) && Ranged(t) && |t.pcbs| == |s.pcbs| + 1
            && t.waiting == s.waiting && t.running == s.running
  {
    var c := |s.pcbs|;
    var t := Put(s, h, Get(s, h).(child := Some(c)));
    PutKeeps(s, h, Get(s, h).(child := Some(c)), x);
    var child := Child(Get(s, h), s.clock);
    var u := t.(pcbs := t.pcbs + [child], names := t.names[child.name := c]);
    EnqueuePlaces(u, c, Ready, x);
    EnqueueRanged(u, c, Ready);
  }

  lemma AddressPlaces(s: State, h: nat, x: nat)
    requires Ranged(s) && s.waiting == [h]
    ensures var t := SharedAddress(s, h);
            && Places(t, x) == Places(s, x) && Ranged(t) && |t.pcbs| == |s.pcbs| && t.running == s.running
            && (t.waiting == [h] || t.waiting == [])
  {
    HaltPlaces(s, h, x);
    hide Halt;
  }

  lemma ServicePlaces(s: State, h: nat, code: int, x: nat)
    requires Ranged(s) && s.waiting == [h]
    ensures var t := Service(s, h, code);
            && Ranged(t) && t.running == s.running && (t.waiting == [h] || t.waiting == [])
            && |t.pcbs| == |s.pcbs| + (if code == FORK then 1 else 0)
            && Places(t, x) == Places(s, x) + (if code == FORK then One(|s.pcbs|, x) else 0)
  {
    hide SharedAddress;
    hide Acquire;
    hide Release;
    hide Block;
    hide Fork;
    if code == PRINT {
      PutKeeps(s, h, Get(s, h).(cpu := AfterPrint(Get(s, h).cpu, s.mem)), x);
    } else if code == FORK {
      ForkPlaces(s, h, x);
    } else if code == SHARED_ADDRESS {
      AddressPlaces(s, h, x);
    } else if code == ACQUIRE {
      AcquirePlaces(s, h, x);
    } else if code == RELEASE {
      ReleasePlaces(s, h, x);
    } else if code == WAIT && HasSemaphore(s, h) {
      BlockPlaces(s, h, x);
    }
  }

  lemma ResumePlaces(s: State, h: nat, x: nat)
    requires Ranged(s) && (s.waiting == [h] || s.waiting == [])
    ensures var t := Resume(s, h);
            Places(t, x) == Places(s, x) && Ranged(t) && |t.pcbs| == |s.pcbs| && t.waiting == [] && t.running == s.running
  {
    if s.waiting != [] {
      OccTail(s.waiting, x);
      EnqueuePlaces(PopWaiting(s), h, Ready, x);
      EnqueueRanged(PopWaiting(s), h, Ready);
    }
  }

  // ---------- a whole step ----------

  lemma ParkPlaces(s: State, h: nat, x: nat)
    requires Ranged(s) && s.waiting == []
    ensures var t := Park(s, h);
            && Ranged(t) && t.waiting == [h] && |t.pcbs| == |s.pcbs| && t.running == s.running
            && Places(t, x) == Places(s, x) + One(h, x)
  {
    PutKeeps(s, h, Get(s, h).(cpu := s.cpu), x);
    EnqueuePlaces(Save(s, h), h, Waiting, x);
    EnqueueRanged(Save(s, h), h, Waiting);
  }

  lemma RewardKeeps(p: Policy, s: State, h: nat, x: nat)
    requires Ranged(s)
    ensures var t := Reward(p, s, h);
            && Ranged(t) && t.waiting == s.waiting && |t.pcbs| == |s.pcbs| && t.running == s.running
            && Places(t, x) == Places(s, x)
  {
    PutKeeps(s, h, Promote(Get(s, h)), x);
  }

  lemma VacatePlaces(p: Policy, s: State, h: nat, x: nat)
    requires s.running == Some(h)
    ensures Places(Vacate(p, s), x) + One(h, x) == Places(s, x)
  {
  }

  lemma InterruptedPlaces(p: Policy, s: State, h: nat, code: int, x: nat)
    requires Ranged(s) && s.waiting == [] && s.running == Some(h)
    ensures var t := Interrupted(p, s, h, code);
            && Ranged(t) && t.waiting == []
            && |t.pcbs| == |s.pcbs| + (if code == FORK then 1 else 0)
            && Places(t, x) == Places(s, x) + (if code == FORK then One(|s.pcbs|, x) else 0)
  {
    ParkPlaces(s, h, x);
    ServicePlaces(Park(s, h), h, code, x);
    var t := Service(Park(s, h), h, code);
    RewardKeeps(p, t, h, x);
    ResumePlaces(Reward(p, t, h), h, x);
    VacatePlaces(p, Resume(Reward(p, t, h), h), h, x);
  }

  lemma TerminatePlaces(p: Policy, s: State, h: nat, x: nat)
    requires Ranged(s) && s.waiting == [] && s.running == Some(h)
    ensures var t := Terminate(p, s, h);
            Ranged(t) && t.waiting == [] && |t.pcbs| == |s.pcbs| && Places(t, x) == Places(s, x)
  {
    PutKeeps(s, h, Get(s, h).(cpu := s.cpu), x);
    EnqueuePlaces(Save(s, h), h, Terminated, x);
    EnqueueRanged(Save(s, h), h, Terminated);
    DeallocateKeeps(Enqueue(Save(s, h), h, Terminated), h);
  }

  lemma ExecuteKeeps(p: Policy, s: State, h: nat)
    requires Ranged(s)
    ensures SameQueues(s, Execute(p, s, h)) && Ranged(Execute(p, s, h))
  {
  }

  lemma ActPlaces(p: Policy, s: State, x: nat)
    requires Ranged(s) && s.waiting == []
    ensures var t := Act(p, s);
            var forks := s.running.Some? && CycleOf(s, s.running.value).code == FORK;
            && Ranged(t) && t.waiting == []
            && |t.pcbs| == |s.pcbs| + (if forks then 1 else 0)
            && Places(t, x) == Places(s, x) + (if forks then One(|s.pcbs|, x) else 0)
  {
    if s.running.Some? {
      var h := s.running.value;
      var u, code := Execute(p, s, h), CycleOf(s, h).code;
      ExecuteKeeps(p, s, h);
      hide Execute;
      hide CycleOf;
      if code >= 20 {
        InterruptedPlaces(p, u, h, code, x);
      } else if code == HALTED {
        TerminatePlaces(p, u, h, x);
      }
      hide Interrupted;
      hide Terminate;
    }
  }

  // One call keeps every process in its one place; only a fork creates one, in a ready queue.
  lemma StepPlaces(p: Policy, s: State, x: nat)
    requires Ranged(s) && s.waiting == []
    ensures var t := Step(p, s);
            && Ranged(t) && t.waiting == []
            && |t.pcbs| == |s.pcbs| + (if CodeOf(p, s) == FORK then 1 else 0)
            && Places(t, x) == Places(s, x) + (if CodeOf(p, s) == FORK then One(|s.pcbs|, x) else 0)
  {
    PreparePlaces(p, s, x);
    ActPlaces(p, Prepare(p, s), x);
    hide Prepare;
    hide Act;
    hide Places;
  }

  lemma LoadPlaces(s: State, name: string, i: Image, x: nat)
    requires Ranged(s)
    ensures var t := LoadProgram(s, name, i);
            && Ranged(t) && t.waiting == s.waiting
            && |t.pcbs| == |s.pcbs| + (if LoadCode(s, i) == 0 then 1 else 0)
            && Places(t, x) == Places(s, x) + (if LoadCode(s, i) == 0 then One(|s.pcbs|, x) else 0)
  {
    if LoadCode(s, i) == 0 {
      var h := |s.pcbs|;
      var p := Loaded(name, s.loaded, i.load, i.size, i.first, s.clock);
      var t := s.(pcbs := s.pcbs + [p], loaded := s.loaded + 1, names := s.names[name := h],
                  mem := SetMarks(Written(s.mem, i), i.load, i.load + i.size, true));
      EnqueuePlaces(t, h, New, x);
      EnqueueRanged(t, h, New);
    }
  }

  lemma InitSemaphorePlaces(s: State, value: int, one: string, two: string, x: nat)
    requires Ranged(s)
    ensures var t := InitSemaphore(s, value, one, two);
            Ranged(t) && t.waiting == s.waiting && |t.pcbs| == |s.pcbs| && Places(t, x) == Places(s, x)
  {
    BlockedAppend(s.semaphores, Semaphore(value, []), x);
  }

  lemma UnlinkKeeps(s: State, h: nat)
    ensures SameQueues(s, Unlink(s, h)) && Unlink(s, h).pcbs == s.pcbs
  {
  }

  lemma ShareKeeps(s: State, a: nat, b: nat, size: int)
    requires Ranged(s)
    ensures SameQueues(s, Share(s, a, b, size)) && Ranged(Share(s, a, b, size))
  {
  }

  lemma OpenSharedPlaces(s: State, size: int, one: string, two: string, x: nat)
    requires Ranged(s)
    ensures var t := OpenShared(s, size, one, two);
            Ranged(t) && t.waiting == s.waiting && |t.pcbs| == |s.pcbs| && Places(t, x) == Places(s, x)
  {
    match (Lookup(s, one), Lookup(s, two))
    case (Some(a), Some(b)) =>
      UnlinkKeeps(s, a);
      UnlinkKeeps(Unlink(s, a), b);
      ShareKeeps(Unlink(Unlink(s, a), b), a, b, size);
    case _ =>
  }

  lemma ApplyPlaces(s: State, e: Event, x: nat)
    requires Sound(s)
    ensures Places(Apply(s, e), x) == if x < |Apply(s, e).pcbs| then 1 else 0
    ensures Ranged(Apply(s, e)) && Apply(s, e).waiting == [] && |s.pcbs| <= |Apply(s, e).pcbs|
  {
    assert Places(s, x) == if x < |s.pcbs| then 1 else 0;
    match e
    case Tick(p) => StepPlaces(p, s, x);
    case Arrive(name, image) => LoadPlaces(s, name, image, x);
    case NewSemaphore(value, one, two) => InitSemaphorePlaces(s, value, one, two, x);
    case OpenSegment(size, one, two) => OpenSharedPlaces(s, size, one, two, x);
    case Log =>
  }

  // Every event keeps each process in exactly one place and the waiting queue empty.
  lemma ApplySound(s: State, e: Event)
    requires Sound(s)
    ensures Sound(Apply(s, e)) && |s.pcbs| <= |Apply(s, e).pcbs|
  {
    ApplyPlaces(s, e, 0);
    forall x: nat
      ensures Places(Apply(s, e), x) == if x < |Apply(s, e).pcbs| then 1 else 0
    {
      ApplyPlaces(s, e, x);
    }
  }

  // Conservation over every run, whatever policies and other events it mixes.
  lemma {:induction false} RunSound(s: State, es: seq<Event>)
    requires Sound(s)
    ensures Sound(Run(s, es)) && |s.pcbs| <= |Run(s, es).pcbs|
    decreases |es|
  {
    if es != [] {
      ApplySound(s, es[0]);
      RunSound(Apply(s, es[0]), es[1..]);
    }
  }

  lemma BootSound()
    ensures Sound(Boot())
  {
  }
}
