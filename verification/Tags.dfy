// What pState says: it always names the place where the process is, except that the running
// process may still be tagged READY (round robin and MLFQ dispatch without setting RUNNING).
module Tags {
  import opened Options
  import opened Machine
  import opened Processes
  import opened System
  import opened Census
  import opened Feedback
  import opened Policies
  import Timekeeping
  import Levels
  import Fairness

  function TagOf(s: State, x: nat): Tag {
    Get(s, x).tag
  }

  // The queue that holds `x` is the one its tag names.
  ghost predicate Queued(s: State, x: nat) {
    && (Occ(s.arrived, x) > 0 ==> TagOf(s, x) == New)
    && (InReady(s.ready, x) > 0 ==> TagOf(s, x) == Ready)
    && (Occ(s.waiting, x) > 0 ==> TagOf(s, x) == Waiting)
    && (Blocked(s.semaphores, x) > 0 ==> TagOf(s, x) == Waiting)
    && (Occ(s.terminated, x) > 0 ==> TagOf(s, x) == Terminated)
    && (Occ(s.logged, x) > 0 ==> TagOf(s, x) == Terminated)
  }

  ghost predicate Runs(s: State, x: nat) {
    s.running == Some(x) ==> TagOf(s, x) == Ready || TagOf(s, x) == Running
  }

  ghost predicate Tagged(s: State, x: nat) {
    Queued(s, x) && Runs(s, x)
  }

  // In no queue.
  predicate Free(s: State, x: nat) {
    Places(s.(running := None), x) == 0
  }

  // In one queue at most, and in none unless it exists.
  predicate Counted(s: State, x: nat) {
    Places(s.(running := None), x) <= if x < |s.pcbs| then 1 else 0
  }

  // ---------- the phases of a call ----------

  lemma PushTagged(s: State, h: nat, t: Tag, x: nat)
    requires IsQueue(t) && 0 <= Get(s, h).priority <= 2
    requires if x == h then Free(s, x) && TagOf(s, x) == t else Queued(s, x)
    ensures Queued(Push(s, h, t), x)
  {
    match t
    case New => OccAppend(s.arrived, h, x);
    case Ready => InReadyAppend(s.ready, Get(s, h).priority, h, x);
    case Waiting => OccAppend(s.waiting, h, x);
    case Terminated => OccAppend(s.terminated, h, x);
  }

  lemma RetagPush(s: State, h: nat, t: Tag)
    ensures Enqueue(s, h, t) == Push(Retag(s, h, t), h, t)
    ensures Get(Retag(s, h, t), h).priority == Get(s, h).priority
  {
  }

  lemma RetagOther(s: State, h: nat, t: Tag, x: nat)
    ensures x != h ==> TagOf(Retag(s, h, t), x) == TagOf(s, x)
    ensures x == h && h < |s.pcbs| ==> TagOf(Retag(s, h, t), x) == t
    ensures SameQueues(s, Retag(s, h, t)) && Places(Retag(s, h, t).(running := None), x) == Places(s.(running := None), x)
  {
  }

  lemma EnqueueTagged(s: State, h: nat, t: Tag, x: nat)
    requires IsQueue(t) && 0 <= Get(s, h).priority <= 2
    requires Queued(s, x) && (x == h ==> h < |s.pcbs| && Free(s, x))
    ensures Queued(Enqueue(s, h, t), x)
  {
    RetagPush(s, h, t);
    RetagOther(s, h, t, x);
    hide Enqueue;
    hide Push;
    var r := Retag(s, h, t);
    hide Retag;
    if x != h {
      SameTagged(s, r, x);
    }
    hide Queued;
    PushTagged(r, h, t, x);
  }

  // `h` leaves the front of the new queue.
  lemma AdmitOne(s: State, x: nat)
    requires Ranged(s) && s.arrived != [] && Places(s, x) <= (if x < |s.pcbs| then 1 else 0) && Tagged(s, x)
    ensures var t := Enqueue(s.(arrived := s.arrived[1..]), s.arrived[0], Ready);
            Tagged(t, x) && Places(t, x) == Places(s, x) && Ranged(t) && |t.pcbs| == |s.pcbs|
  {
    var h, t := s.arrived[0], s.(arrived := s.arrived[1..]);
    OccTail(s.arrived, x);
    EnqueueTagged(t, h, Ready, x);
    EnqueuePlaces(t, h, Ready, x);
    EnqueueRanged(t, h, Ready);
  }

  lemma {:induction false} AdmitTagged(s: State, x: nat)
    requires Ranged(s) && Places(s, x) <= (if x < |s.pcbs| then 1 else 0) && Tagged(s, x)
    ensures Tagged(Admit(s), x)
    decreases |s.arrived|
  {
    if s.arrived != [] {
      AdmitOne(s, x);
      AdmitTagged(Enqueue(s.(arrived := s.arrived[1..]), s.arrived[0], Ready), x);
    }
  }

  // The process switched in leaves its queue.
  lemma SwitchInTagged(s: State, x: nat)
    requires Queued(s, x) && !NoneReady(s) && Counted(s, x)
    ensures var t := SwitchIn(s);
            && Queued(t, x) && Runs(t, x) && Queued(TagRunning(t), x) && Runs(TagRunning(t), x)
            && t.pcbs == s.pcbs && t.running.Some?
  {
    var k := Top(s.ready);
    InReadyTail(s.ready, k, x);
  }

  lemma DispatchTagged(p: Policy, s: State, x: nat)
    requires Ranged(s) && s.waiting == [] && s.arrived == [] && Counted(s, x) && Tagged(s, x)
    ensures Tagged(DispatchIdle(p, s), x)
  {
    if s.running.None? && !NoneReady(s) {
      SwitchInTagged(s, x);
      hide SwitchIn;
      hide Queued;
      QueuedClock(SwitchIn(s), 0, x);
    }
  }

  lemma QueuedClock(s: State, clock: int, x: nat)
    ensures Queued(s.(quantumClock := clock), x) <==> Queued(s, x)
  {
  }

  lemma ChargeTagged(p: Policy, s: State, h: nat, x: nat)
    requires Queued(s, x)
    ensures Queued(Charge(p, s, h), x) && |Charge(p, s, h).pcbs| == |s.pcbs|
  {
    ChargeQueues(p, s, h, x);
    hide Charge;
    SameTagged(s, Charge(p, s, h), x);
  }

  lemma ChargeQueues(p: Policy, s: State, h: nat, x: nat)
    ensures SameQueues(s, Charge(p, s, h)) && TagOf(Charge(p, s, h), x) == TagOf(s, x)
  {
  }

  lemma PreemptTagged(p: Policy, s: State, x: nat)
    requires Ranged(s) && Places(s, x) <= (if x < |s.pcbs| then 1 else 0) && Tagged(s, x) && (s.running.Some? ==> s.running.value < |s.pcbs|)
    ensures Tagged(Preempt(p, s), x)
  {
    if Preempts(p, s) {
      var h := s.running.value;
      var c := Charge(p, s, h);
      var e := Enqueue(c, h, Ready);
      ChargeTagged(p, s, h, x);
      ChargeKeeps(p, s, h, x);
      hide Charge;
      EnqueueTagged(c, h, Ready, x);
      EnqueuePlaces(c, h, Ready, x);
      EnqueueReadyFills(c, h);
      hide Enqueue;
      SwitchInTagged(e, x);
    }
  }

  // ---------- interrupts ----------

  // `t` has the queues of `s`, and `x` the same tag.
  lemma SameTagged(s: State, t: State, x: nat)
    requires SameQueues(s, t) && TagOf(t, x) == TagOf(s, x) && Queued(s, x)
    ensures Queued(t, x)
  {
  }

  lemma DeallocateTagged(s: State, h: nat, x: nat)
    requires Ranged(s) && Queued(s, x)
    ensures Queued(Deallocate(s, h), x)
  {
    DeallocateKeeps(s, h);
    UnlinkKeeps(s, h);
    SameTagged(s, Deallocate(s, h), x);
  }

  lemma HaltTagged(s: State, h: nat, x: nat)
    requires Ranged(s) && s.waiting == [h] && h < |s.pcbs| && Counted(s, x) && Queued(s, x)
    ensures Queued(Halt(s, h), x)
  {
    var t := PopWaiting(s);
    OccTail(s.waiting, x);
    EnqueueTagged(t, h, Terminated, x);
    EnqueueRanged(t, h, Terminated);
    DeallocateTagged(Enqueue(t, h, Terminated), h, x);
  }

  lemma BlockTagged(s: State, h: nat, x: nat)
    requires s.waiting == [h] && h < |s.pcbs| && HasSemaphore(s, h) && Queued(s, x)
    requires Counted(s, x)
    ensures Queued(Block(s, h), x)
  {
    var i := Get(s, h).semId;
    var sem := s.semaphores[i];
    OccTail(s.waiting, x);
    OccAppend(sem.blocked, h, x);
    BlockedUpdate(s.semaphores, i, sem.(blocked := sem.blocked + [h]), x);
  }

  lemma AcquireTagged(s: State, h: nat, x: nat)
    requires s.waiting == [h] && h < |s.pcbs| && Queued(s, x) && Counted(s, x)
    ensures Queued(Acquire(s, h), x)
  {
    if HasSemaphore(s, h) {
      var i := Get(s, h).semId;
      var sem := s.semaphores[i];
      if sem.value == 0 {
        BlockTagged(s, h, x);
      } else {
        BlockedUpdate(s.semaphores, i, sem.(value := sem.value - 1), x);
      }
    }
  }

  lemma ReleaseTagged(s: State, h: nat, x: nat)
    requires Ranged(s) && Queued(s, x) && Counted(s, x)
    ensures Queued(Release(s, h), x)
  {
    if HasSemaphore(s, h) {
      var i := Get(s, h).semId;
      var sem := s.semaphores[i].(value := s.semaphores[i].value + 1);
      if sem.blocked == [] {
        BlockedUpdate(s.semaphores, i, sem, x);
      } else {
        WakeTagged(s, i, sem, x);
      }
    }
  }

  lemma WakeTagged(s: State, i: nat, sem: Semaphore, x: nat)
    requires Ranged(s) && Queued(s, x) && Counted(s, x)
    requires i < |s.semaphores| && sem.blocked == s.semaphores[i].blocked && sem.blocked != []
    ensures Queued(Enqueue(s.(semaphores := s.semaphores[i := sem.(blocked := sem.blocked[1..])]), sem.blocked[0], Ready), x)
  {
    var rest := sem.(blocked := sem.blocked[1..]);
    var t := s.(semaphores := s.semaphores[i := rest]);
    BlockedUpdate(s.semaphores, i, rest, x);
    OccTail(sem.blocked, x);
    EnqueueTagged(t, sem.blocked[0], Ready, x);
  }

  lemma ForkTagged(s: State, h: nat, x: nat)
    requires Ranged(s) && Queued(s, x) && (x >= |s.pcbs| ==> Free(s, x))
    ensures Queued(Fork(s, h), x)
  {
    var c := |s.pcbs|;
    var child := Child(Get(s, h), s.clock);
    var t := Put(s, h, Get(s, h).(child := Some(c)));
    SameTagged(s, t, x);
    var u := t.(pcbs := t.pcbs + [child], names := t.names[child.name := c]);
    assert x != c ==> TagOf(u, x) == TagOf(t, x);
    EnqueueTagged(u, c, Ready, x);
  }

  lemma ServiceTagged(s: State, h: nat, code: int, x: nat)
    requires Ranged(s) && s.waiting == [h] && h < |s.pcbs| && Queued(s, x) && Counted(s, x)
    ensures Queued(Service(s, h, code), x)
  {
    if code == PRINT {
      SameTagged(s, Service(s, h, code), x);
    } else if code == FORK {
      ForkTagged(s, h, x);
    } else if code == SHARED_ADDRESS {
      AddressTagged(s, h, x);
    } else if code == ACQUIRE {
      AcquireTagged(s, h, x);
    } else if code == RELEASE {
      ReleaseTagged(s, h, x);
    } else if code == WAIT && HasSemaphore(s, h) {
      BlockTagged(s, h, x);
    }
  }

  lemma AddressTagged(s: State, h: nat, x: nat)
    requires Ranged(s) && s.waiting == [h] && h < |s.pcbs| && Queued(s, x) && Counted(s, x)
    ensures Queued(SharedAddress(s, h), x)
  {
    HaltTagged(s, h, x);
    hide Halt;
    hide Queued;
    if Get(s, h).shm.Some? {
      AddressQueues(s, h, x);
      SameTagged(s, SharedAddress(s, h), x);
    }
  }

  lemma AddressQueues(s: State, h: nat, x: nat)
    requires Get(s, h).shm.Some?
    ensures SameQueues(s, SharedAddress(s, h)) && TagOf(SharedAddress(s, h), x) == TagOf(s, x)
  {
  }

  lemma ParkTagged(s: State, h: nat, x: nat)
    requires Ranged(s) && h < |s.pcbs| && s.running == Some(h) && Places(s, x) <= 1 && Queued(s, x)
    ensures Queued(Park(s, h), x)
  {
    SaveQueues(s, h, x);
    hide Save;
    SameTagged(s, Save(s, h), x);
    EnqueueTagged(Save(s, h), h, Waiting, x);
    hide Enqueue;
    ClearedTagged(Enqueue(Save(s, h), h, Waiting), x);
  }

  lemma SaveQueues(s: State, h: nat, x: nat)
    requires Ranged(s)
    ensures SameQueues(s, Save(s, h)) && TagOf(Save(s, h), x) == TagOf(s, x) && Ranged(Save(s, h))
    ensures Places(Save(s, h).(running := None), x) == Places(s.(running := None), x)
  {
  }

  lemma ClearedTagged(s: State, x: nat)
    requires Queued(s, x)
    ensures Queued(s.(cpu := ClearedCpu), x)
  {
  }

  lemma ResumeTagged(p: Policy, s: State, h: nat, x: nat)
    requires Ranged(s) && (s.waiting == [h] || s.waiting == []) && h < |s.pcbs| && Queued(s, x) && Counted(s, x)
    ensures Tagged(Vacate(p, Resume(Reward(p, s, h), h)), x)
  {
    var r := Reward(p, s, h);
    SameTagged(s, r, x);
    RewardKeeps(p, s, h, x);
    assert Counted(r, x) && Ranged(r) && r.waiting == s.waiting && |r.pcbs| == |s.pcbs|;
    hide Reward;
    BackTagged(r, h, x);
    hide Resume;
    VacateTagged(p, Resume(r, h), x);
  }

  lemma BackTagged(s: State, h: nat, x: nat)
    requires Ranged(s) && (s.waiting == [h] || s.waiting == []) && h < |s.pcbs| && Queued(s, x) && Counted(s, x)
    ensures Queued(Resume(s, h), x)
  {
    if s.waiting != [] {
      OccTail(s.waiting, x);
      EnqueueTagged(PopWaiting(s), h, Ready, x);
      hide Enqueue;
    }
  }

  lemma VacateTagged(p: Policy, s: State, x: nat)
    requires Queued(s, x)
    ensures Tagged(Vacate(p, s), x)
  {
  }

  // ---------- a call, and runs ----------

  lemma InterruptedTagged(p: Policy, s: State, h: nat, code: int, x: nat)
    requires Ranged(s) && s.waiting == [] && h < |s.pcbs| && s.running == Some(h) && Queued(s, x)
    requires Places(s, x) <= if x < |s.pcbs| then 1 else 0
    ensures Tagged(Interrupted(p, s, h, code), x)
  {
    var a := Park(s, h);
    var b := Service(a, h, code);
    ParkTagged(s, h, x);
    ParkPlaces(s, h, x);
    hide Park;
    ServiceTagged(a, h, code, x);
    ServicePlaces(a, h, code, x);
    hide Service;
    ResumeTagged(p, b, h, x);
  }

  lemma TerminateTagged(p: Policy, s: State, h: nat, x: nat)
    requires Ranged(s) && h < |s.pcbs| && s.running == Some(h) && Queued(s, x) && Places(s, x) <= 1
    ensures Tagged(Terminate(p, s, h), x)
  {
    SameTagged(s, Save(s, h), x);
    EnqueueTagged(Save(s, h), h, Terminated, x);
    EnqueueRanged(Save(s, h), h, Terminated);
    DeallocateTagged(Enqueue(Save(s, h), h, Terminated), h, x);
    hide Deallocate;
    hide Enqueue;
    hide Queued;
    hide Save;
    VacateTagged(p, Deallocate(Enqueue(Save(s, h), h, Terminated), h), x);
  }

  lemma ActTagged(p: Policy, s: State, x: nat)
    requires Ranged(s) && s.waiting == [] && Tagged(s, x) && Places(s, x) <= if x < |s.pcbs| then 1 else 0
    requires s.running.Some? ==> s.running.value < |s.pcbs|
    ensures Tagged(Act(p, s), x)
  {
    if s.running.Some? {
      var h := s.running.value;
      var e, code := Execute(p, s, h), CycleOf(s, h).code;
      ExecuteTagged(p, s, h, x);
      hide Execute;
      hide CycleOf;
      if code >= 20 {
        InterruptedTagged(p, e, h, code, x);
      } else if code == HALTED {
        TerminateTagged(p, e, h, x);
      }
      hide Interrupted;
      hide Terminate;
    }
  }

  lemma ExecuteTagged(p: Policy, s: State, h: nat, x: nat)
    requires Ranged(s) && Tagged(s, x)
    ensures var t := Execute(p, s, h);
            && Tagged(t, x) && Ranged(t) && t.waiting == s.waiting && t.running == s.running
            && |t.pcbs| == |s.pcbs| && Places(t, x) == Places(s, x)
  {
    SameTagged(s, Execute(p, s, h), x);
  }

  lemma StepTagged(p: Policy, s: State, x: nat)
    requires Sound(s) && Tagged(s, x)
    ensures Tagged(Step(p, s), x)
  {
    assert Places(s, x) == if x < |s.pcbs| then 1 else 0;
    PrepareTagged(p, s, x);
    PreparePlaces(p, s, x);
    if Executor(p, s).Some? {
      Timekeeping.ExecutorExists(p, s);
    }
    ActTagged(p, Prepare(p, s), x);
  }

  lemma PrepareTagged(p: Policy, s: State, x: nat)
    requires Sound(s) && Tagged(s, x)
    ensures Tagged(Prepare(p, s), x)
  {
    assert Places(s, x) == if x < |s.pcbs| then 1 else 0;
    var a := Admit(s);
    var d := DispatchIdle(p, a);
    AdmitTagged(s, x);
    AdmitPlaces(s, x);
    DispatchTagged(p, a, x);
    DispatchPlaces(p, a, x);
    DispatchedExists(p, s);
    hide Admit;
    hide DispatchIdle;
    PreemptTagged(p, d, x);
  }

  lemma QuietTagged(s: State, e: Event, x: nat)
    requires Sound(s) && !e.Tick? && Tagged(s, x)
    ensures Tagged(Apply(s, e), x)
  {
    match e
    case Arrive(name, i) => LoadTagged(s, name, i, x);
    case NewSemaphore(value, one, two) => SemaphoreTagged(s, value, one, two, x);
    case OpenSegment(size, one, two) => OpenTagged(s, size, one, two, x);
    case Log => DrainTagged(s, x);
  }

  lemma SemaphoreTagged(s: State, value: int, one: string, two: string, x: nat)
    requires Tagged(s, x)
    ensures Tagged(InitSemaphore(s, value, one, two), x)
  {
    var t := s.(semaphores := s.semaphores + [Semaphore(value, [])]);
    InitKeeps(s, value, one, two, x);
    hide InitSemaphore;
    BlockedAppend(s.semaphores, Semaphore(value, []), x);
    SameTagged(t, InitSemaphore(s, value, one, two), x);
  }

  lemma InitKeeps(s: State, value: int, one: string, two: string, x: nat)
    ensures var t, u := s.(semaphores := s.semaphores + [Semaphore(value, [])]), InitSemaphore(s, value, one, two);
            SameQueues(t, u) && TagOf(u, x) == TagOf(s, x)
  {
  }

  lemma DrainTagged(s: State, x: nat)
    requires Tagged(s, x)
    ensures Tagged(Drain(s), x)
  {
  }

  lemma LoadTagged(s: State, name: string, i: Image, x: nat)
    requires Sound(s) && Tagged(s, x)
    ensures Tagged(LoadProgram(s, name, i), x)
  {
    if LoadCode(s, i) == 0 {
      var h := |s.pcbs|;
      var p := Loaded(name, s.loaded, i.load, i.size, i.first, s.clock);
      var t := s.(pcbs := s.pcbs + [p], loaded := s.loaded + 1, names := s.names[name := h],
                  mem := SetMarks(Written(s.mem, i), i.load, i.load + i.size, true));
      assert Places(s, x) == if x < |s.pcbs| then 1 else 0;
      assert x != h ==> TagOf(t, x) == TagOf(s, x);
      EnqueueTagged(t, h, New, x);
    }
  }

  lemma OpenTagged(s: State, size: int, one: string, two: string, x: nat)
    requires Ranged(s) && Tagged(s, x)
    ensures Tagged(OpenShared(s, size, one, two), x)
  {
    match (Lookup(s, one), Lookup(s, two))
    case (Some(a), Some(b)) =>
      var u := Unlink(Unlink(s, a), b);
      UnlinkKeeps(s, a);
      UnlinkKeeps(Unlink(s, a), b);
      hide Unlink;
      ShareKeeps(u, a, b, size);
      ShareTag(u, a, b, size, x);
      SameTagged(s, Share(u, a, b, size), x);
    case _ =>
  }

  lemma ShareTag(s: State, a: nat, b: nat, size: int, x: nat)
    ensures TagOf(Share(s, a, b, size), x) == TagOf(s, x)
  {
  }

  // Over every run, mixed policies included, the tag of every process names its queue; the
  // running process is tagged READY or RUNNING.
  lemma {:induction false} RunTagged(s: State, es: seq<Event>, x: nat)
    requires Sound(s) && Tagged(s, x)
    ensures Tagged(Run(s, es), x)
    decreases |es|
  {
    if es != [] {
      ApplySound(s, es[0]);
      if es[0].Tick? {
        StepTagged(es[0].policy, s, x);
      } else {
        QuietTagged(s, es[0], x);
      }
      RunTagged(Apply(s, es[0]), es[1..], x);
    }
  }

  // ---------- when the running process is tagged RUNNING ----------

  lemma {:induction false} AdmitOther(s: State, x: nat)
    requires Ranged(s) && Occ(s.arrived, x) == 0
    ensures TagOf(Admit(s), x) == TagOf(s, x)
    decreases |s.arrived|
  {
    if s.arrived != [] {
      var h, t := s.arrived[0], s.(arrived := s.arrived[1..]);
      OccTail(s.arrived, x);
      EnqueueRanged(t, h, Ready);
      assert TagOf(Enqueue(t, h, Ready), x) == TagOf(s, x) && Enqueue(t, h, Ready).arrived == s.arrived[1..];
      hide Enqueue;
      AdmitOther(Enqueue(t, h, Ready), x);
    }
  }

  // Dispatching to an empty CPU sets RUNNING under FCFS only.
  lemma DispatchTag(p: Policy, s: State, h: nat)
    requires DispatchIdle(p, s).running == Some(h) && h < |s.pcbs| && Queued(s, h)
    ensures TagOf(DispatchIdle(p, s), h)
         == if s.running.Some? then TagOf(s, h) else if p.Fcfs? then Running else Ready
  {
    if s.running.None? {
      var k := Top(s.ready);
      assert s.ready[k][0] == h && h in multiset(s.ready[k]);
    }
  }

  // Preempting sets RUNNING; otherwise nothing changes.
  lemma PreemptTag(p: Policy, s: State, h: nat)
    requires Ranged(s) && Preempt(p, s).running == Some(h) && h < |Preempt(p, s).pcbs|
    ensures if Preempts(p, s) then TagOf(Preempt(p, s), h) == Running else Preempt(p, s) == s
  {
    if Preempts(p, s) {
      var c := Charge(p, s, s.running.value);
      ChargeKeeps(p, s, s.running.value, h);
      hide Charge;
      EnqueueReadyFills(c, s.running.value);
      hide Enqueue;
    }
  }

  // Before its cycle the running process is tagged RUNNING exactly when it was just switched in
  // by a preemption or by FCFS, or had the tag already.
  lemma PreparedTag(p: Policy, s: State, h: nat)
    requires Sound(s) && Tagged(s, h) && Executor(p, s) == Some(h)
    ensures TagOf(Prepare(p, s), h) == Running
       <==> Preempts(p, DispatchIdle(p, Admit(s))) || (p.Fcfs? && s.running.None?)
            || (s.running == Some(h) && TagOf(s, h) == Running)
  {
    assert Places(s, h) == if h < |s.pcbs| then 1 else 0;
    Timekeeping.ExecutorExists(p, s);
    var a := Admit(s);
    var d := DispatchIdle(p, a);
    AdmitPlaces(s, h);
    AdmitTagged(s, h);
    DispatchPlaces(p, a, h);
    PreemptTag(p, d, h);
    if s.running == Some(h) {
      AdmitOther(s, h);
    }
    hide Admit;
    hide Preempts;
    if Prepare(p, s) == d {
      DispatchTag(p, a, h);
      assert a.running.Some? ==> d == a;
    }
  }

  // A call that leaves a process running returned 0, and its cycle changed no tag.
  lemma ActTag(p: Policy, s: State, h: nat)
    requires Act(p, s).running == Some(h)
    ensures s.running == Some(h) && TagOf(Act(p, s), h) == TagOf(s, h)
  {
    if s.running.Some? {
      var e := Execute(p, s, s.running.value);
      assert e.running == s.running && TagOf(e, h) == TagOf(s, h);
      hide Execute;
    }
  }

  // The exact condition, in terms of the state before the call: after it the running process
  // is tagged RUNNING if and only if the call preempted, or FCFS dispatched it, or it ran and
  // was tagged before. So round robin and MLFQ leave READY on a process they dispatch to an
  // empty CPU.
  lemma RunningTag(p: Policy, s: State, h: nat)
    requires Sound(s) && Tagged(s, h) && Step(p, s).running == Some(h)
    ensures TagOf(Step(p, s), h) == Running
       <==> Preempts(p, DispatchIdle(p, Admit(s))) || (p.Fcfs? && s.running.None?)
            || (s.running == Some(h) && TagOf(s, h) == Running)
  {
    ActTag(p, Prepare(p, s), h);
    PreparedTag(p, s, h);
    hide Prepare;
    hide Act;
  }

  ghost predicate Only(es: seq<Event>, p: Policy) {
    forall i :: 0 <= i < |es| && es[i].Tick? ==> es[i].policy == p
  }

  lemma QuietTag(s: State, e: Event, h: nat)
    requires !e.Tick? && h < |s.pcbs|
    ensures TagOf(Apply(s, e), h) == TagOf(s, h) && Apply(s, e).running == s.running
  {
    Levels.QuietReady(s, e);
    match e
    case OpenSegment(size, one, two) =>
      match (Lookup(s, one), Lookup(s, two)) {
        case (Some(a), Some(b)) =>
          UnlinkKeeps(s, a);
          UnlinkKeeps(Unlink(s, a), b);
          ShareTag(Unlink(Unlink(s, a), b), a, b, size, h);
        case _ =>
      }
    case _ =>
  }

  // In runs of FCFS alone the running process is always tagged RUNNING.
  lemma {:induction false} FcfsRunning(s: State, es: seq<Event>)
    requires Sound(s) && Only(es, Fcfs) && forall x: nat :: Tagged(s, x)
    requires s.running.Some? ==> TagOf(s, s.running.value) == Running
    ensures var t := Run(s, es);
            t.running.Some? ==> TagOf(t, t.running.value) == Running
    decreases |es|
  {
    if es != [] {
      var t := Apply(s, es[0]);
      ApplySound(s, es[0]);
      forall x: nat
        ensures Tagged(t, x)
      {
        assert Tagged(s, x);
        if es[0].Tick? {
          StepTagged(es[0].policy, s, x);
        } else {
          QuietTagged(s, es[0], x);
        }
      }
      FcfsStays(s, es[0]);
      FcfsRunning(t, es[1..]);
    }
  }

  lemma FcfsStays(s: State, e: Event)
    requires Sound(s) && (e.Tick? ==> e.policy == Fcfs) && forall x: nat :: Tagged(s, x)
    requires s.running.Some? ==> TagOf(s, s.running.value) == Running
    ensures var t := Apply(s, e);
            t.running.Some? ==> TagOf(t, t.running.value) == Running
  {
    if e.Tick? {
      var t := Step(Fcfs, s);
      if t.running.Some? {
        assert Tagged(s, t.running.value);
        RunningTag(Fcfs, s, t.running.value);
        if s.running.Some? {
          FcfsSame(s);
        }
      }
    } else if s.running.Some? {
      var h := s.running.value;
      assert Places(s, h) == if h < |s.pcbs| then 1 else 0;
      QuietTag(s, e, h);
    } else {
      Levels.QuietReady(s, e);
    }
  }

  // FCFS never takes the CPU from a process.
  lemma FcfsSame(s: State)
    requires s.running.Some? && Step(Fcfs, s).running.Some?
    ensures Step(Fcfs, s).running == s.running
  {
    Levels.AdmitGrows(s);
    ActTag(Fcfs, Prepare(Fcfs, s), Step(Fcfs, s).running.value);
    hide Act;
    hide Admit;
  }

  // From power-on.
  lemma FcfsRunningFromBoot(es: seq<Event>)
    requires Only(es, Fcfs)
    ensures var t := Run(Boot(), es);
            t.running.Some? ==> TagOf(t, t.running.value) == Running
  {
    BootSound();
    FcfsRunning(Boot(), es);
  }

  // An instruction that does nothing (STRB).
  const Idler: Image := Image(0, 5, 0, [3, 0, 0, 0, 0, 0])

  // A case: one program that starts with no interrupt, one round-robin call. It runs, tagged READY.
  lemma RunningTaggedReady()
    ensures var t := Run(Boot(), [Arrive("a", Idler), Tick(Rr(1))]);
            t.running == Some(0) && TagOf(t, 0) == Ready
  {
    var s := LoadProgram(Boot(), "a", Idler);
    var es := [Arrive("a", Idler), Tick(Rr(1))];
    assert LoadCode(Boot(), Idler) == 0;
    assert s.arrived == [0] && |s.pcbs| == 1 && s.pcbs[0].cpu == ClearedCpu && s.pcbs[0].priority == 0 && s.pcbs[0].load == 0;
    assert s.running == None && s.ready == [[], [], []] && s.waiting == [] && s.quantumClock == 0;
    assert s.mem[0].val == 3;
    hide LoadProgram;
    IdlerRuns(s);
    assert es[1..] == [Tick(Rr(1))] && es[1..][1..] == [];
    assert Run(Boot(), es) == Run(s, es[1..]) == Run(Step(Rr(1), s), es[1..][1..]);
  }

  lemma IdlerRuns(s: State)
    requires s.arrived == [0] && |s.pcbs| == 1 && s.pcbs[0].cpu == ClearedCpu && s.pcbs[0].priority == 0
    requires s.running == None && s.ready == [[], [], []] && s.waiting == [] && s.quantumClock == 0
    requires Val(s.mem, 0) == 3
    ensures Step(Rr(1), s).running == Some(0) && TagOf(Step(Rr(1), s), 0) == Ready
  {
    var a := Admit(s);
    assert Admit(Enqueue(s.(arrived := s.arrived[1..]), 0, Ready)) == Enqueue(s.(arrived := []), 0, Ready);
    assert a == Enqueue(s.(arrived := []), 0, Ready);
    assert a.ready[0] == [0] && a.pcbs[0].cpu == ClearedCpu && TagOf(a, 0) == Ready;
    var d := DispatchIdle(Rr(1), a);
    assert d.running == Some(0) && d.cpu == ClearedCpu && TagOf(d, 0) == Ready && d.ready[0] == [] && d.mem == s.mem;
    assert Prepare(Rr(1), s) == d;
    hide Prepare;
    assert CycleOf(d, 0).code == 0;
    assert TagOf(Execute(Rr(1), d, 0), 0) == Ready;
  }

  // ---------- the policies once more ----------

  // Outside MLFQ nothing changes a level or a quantum count.
  lemma StepSameLevel(p: Policy, s: State, x: nat)
    requires !p.Mlfq?
    ensures LevelOf(Step(p, s), x) == LevelOf(s, x)
  {
    AdmitLevel(s, x);
    DispatchSameLevel(p, Admit(s), x);
    PreemptSameLevel(p, DispatchIdle(p, Admit(s)), x);
    ActSameLevel(p, Prepare(p, s), x);
  }

  lemma DispatchSameLevel(p: Policy, s: State, x: nat)
    ensures LevelOf(DispatchIdle(p, s), x) == LevelOf(s, x)
  {
    SwitchInLevel(s, x);
  }

  lemma PreemptSameLevel(p: Policy, s: State, x: nat)
    requires !p.Mlfq?
    ensures LevelOf(Preempt(p, s), x) == LevelOf(s, x)
  {
    if Preempts(p, s) {
      var h := s.running.value;
      var c := Charge(p, s, h);
      assert LevelOf(c, x) == LevelOf(s, x);
      assert LevelOf(Enqueue(c, h, Ready), x) == LevelOf(c, x);
      SwitchInLevel(Enqueue(c, h, Ready), x);
    }
  }

  lemma ActSameLevel(p: Policy, s: State, x: nat)
    requires !p.Mlfq?
    ensures LevelOf(Act(p, s), x) == LevelOf(s, x)
  {
    if s.running.Some? {
      var h := s.running.value;
      var e, code := Execute(p, s, h), CycleOf(s, h).code;
      assert LevelOf(e, x) == LevelOf(s, x);
      hide Execute;
      hide CycleOf;
      if code >= 20 {
        assert LevelOf(Park(e, h), x) == LevelOf(e, x);
        ServiceLevel(Park(e, h), h, code, x);
        var b := Service(Park(e, h), h, code);
        hide Service;
        hide Park;
        assert LevelOf(Resume(b, h), x) == LevelOf(b, x);
      } else if code == HALTED {
        assert LevelOf(Enqueue(Save(e, h), h, Terminated), x) == LevelOf(e, x);
        DeallocateLevel(Enqueue(Save(e, h), h, Terminated), h, x);
      }
    }
  }

  ghost predicate NoCounts(s: State) {
    forall x: nat :: LevelOf(s, x).count == 0
  }

  lemma {:induction false} RunNoCounts(p: Policy, s: State, es: seq<Event>)
    requires !p.Mlfq? && NoCounts(s)
    ensures NoCounts(Run(s, AllUnder(es, p)))
    decreases |es|
  {
    if es != [] {
      var e := Under(es[0], p);
      assert AllUnder(es, p)[0] == e && AllUnder(es, p)[1..] == AllUnder(es[1..], p);
      forall x: nat
        ensures LevelOf(Apply(s, e), x).count == 0
      {
        assert LevelOf(s, x).count == 0;
        if e.Tick? {
          StepSameLevel(p, s, x);
        } else {
          QuietLevel(s, e, x);
        }
      }
      RunNoCounts(p, Apply(s, e), es[1..]);
    }
  }

  // Equal but for the quantum clock and the READY or RUNNING tag of the running process.
  ghost predicate Same(s: State, t: State) {
    && s.(pcbs := [], quantumClock := 0) == t.(pcbs := [], quantumClock := 0)
    && |s.pcbs| == |t.pcbs|
    && forall x: nat :: x < |s.pcbs| ==>
         s.pcbs[x] == if s.running == Some(x) then t.pcbs[x].(tag := s.pcbs[x].tag) else t.pcbs[x]
  }

  lemma SameTags(s: State, t: State, x: nat)
    requires Alike(s, t) && Sound(s) && Tagged(s, x) && Tagged(t, x) && x < |s.pcbs|
    ensures s.running != Some(x) ==> TagOf(s, x) == TagOf(t, x)
  {
    assert Places(s, x) == 1;
  }

  // The exact form of the refinement: from soundly tagged states, a round-robin run whose
  // bursts fit in the quantum and the FCFS run end in the same state, down to every field of
  // every process, but for the quantum clock and the tag of the running process.
  lemma RoundRobinIsExactlyFcfs(q: int, s: State, t: State, es: seq<Event>, b: nat)
    requires q >= 1 && Together(s, t, b) && ShortBursts(q, s, AllUnder(es, Fcfs), b)
    requires Sound(t) && NoCounts(s) && NoCounts(t) && forall x: nat :: Tagged(s, x) && Tagged(t, x)
    ensures Same(Run(s, AllUnder(es, Fcfs)), Run(t, AllUnder(es, Rr(q))))
  {
    var a, c := Run(s, AllUnder(es, Fcfs)), Run(t, AllUnder(es, Rr(q)));
    RoundRobinIsFcfs(q, s, t, es, b);
    RunNoCounts(Fcfs, s, es);
    RunNoCounts(Rr(q), t, es);
    RunSound(s, AllUnder(es, Fcfs));
    forall x: nat | x < |a.pcbs|
      ensures a.pcbs[x] == if a.running == Some(x) then c.pcbs[x].(tag := a.pcbs[x].tag) else c.pcbs[x]
    {
      assert Tagged(s, x) && Tagged(t, x);
      RunTagged(s, AllUnder(es, Fcfs), x);
      RunTagged(t, AllUnder(es, Rr(q)), x);
      SameTags(a, c, x);
      assert LevelOf(a, x).count == 0 && LevelOf(c, x).count == 0;
      SameButTag(a.pcbs[x], c.pcbs[x]);
    }
  }

  lemma SameButTag(p: Process, q: Process)
    requires Strip(p) == Strip(q) && p.quantumCount == q.quantumCount
    ensures p == q.(tag := p.tag)
  {
  }

  // From power-on, with programs of any kind: as long as the bursts fit in the quantum, round
  // robin is first come, first served.
  lemma RoundRobinFromBoot(q: int, es: seq<Event>)
    requires q >= 1 && ShortBursts(q, Boot(), AllUnder(es, Fcfs), 0)
    ensures Same(Run(Boot(), AllUnder(es, Fcfs)), Run(Boot(), AllUnder(es, Rr(q))))
  {
    BootSound();
    Fairness.BootSteady();
    RoundRobinIsExactlyFcfs(q, Boot(), Boot(), es, 0);
  }

  // From power-on, MLFQ is round robin until it first demotes somebody.
  lemma FeedbackFromBoot(q: int, f: int, es: seq<Event>)
    requires q >= 1 && f >= 1 && NoDemotion(Boot(), AllUnder(es, Mlfq(q, f)))
    ensures InStep(q, Run(Boot(), AllUnder(es, Mlfq(q, f))), Run(Boot(), AllUnder(es, Rr(q))))
  {
    BootSound();
    Fairness.BootSteady();
    FeedbackIsRoundRobin(q, f, Boot(), Boot(), es);
  }
}
