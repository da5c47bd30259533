// The three ready queues: which level a process is on, and in which order it leaves.
module Levels {
  import opened Options
  import opened Machine
  import opened Processes
  import opened System
  import opened Census

  function Prio(s: State, x: nat): int {
    Get(s, x).priority
  }

  // Every process in ready queue k has priority k.
  ghost predicate Sorted(s: State) {
    forall k: nat, i: nat :: k < 3 && i < |s.ready[k]| ==> Prio(s, s.ready[k][i]) == k
  }

  // No process of `s` has another priority in `t`.
  ghost predicate SamePriorities(s: State, t: State) {
    forall x: nat :: Prio(t, x) == Prio(s, x)
  }

  // ---------- queues never lose their order ----------

  // Every ready queue of `s` is a prefix of that of `t`.
  ghost predicate Grows(s: State, t: State) {
    forall k: nat :: k < 3 ==> s.ready[k] <= t.ready[k]
  }

  lemma EnqueueGrows(s: State, h: nat, t: Tag)
    ensures Grows(s, Enqueue(s, h, t)) && SamePriorities(s, Enqueue(s, h, t))
    ensures Sorted(s) ==> Sorted(Enqueue(s, h, t))
  {
  }

  lemma {:induction false} AdmitGrows(s: State)
    ensures Grows(s, Admit(s)) && SamePriorities(s, Admit(s))
    ensures Sorted(s) ==> Sorted(Admit(s))
    ensures Admit(s).running == s.running && Admit(s).quantumClock == s.quantumClock
    decreases |s.arrived|
  {
    if s.arrived != [] {
      var t := s.(arrived := s.arrived[1..]);
      EnqueueGrows(t, s.arrived[0], Ready);
      AdmitGrows(Enqueue(t, s.arrived[0], Ready));
    }
  }

  lemma SwitchInSorted(s: State)
    requires Sorted(s)
    ensures Sorted(SwitchIn(s)) && Sorted(TagRunning(SwitchIn(s)))
    ensures SamePriorities(s, SwitchIn(s)) && SamePriorities(s, TagRunning(SwitchIn(s)))
    ensures !NoneReady(s) ==> SwitchIn(s).running.Some? && Prio(s, SwitchIn(s).running.value) == Top(s.ready)
  {
  }

  // Changing the priority of a process that is in no ready queue keeps the order.
  lemma PutSorted(s: State, h: nat, p: Process)
    requires Sorted(s) && InReady(s.ready, h) == 0
    ensures Sorted(Put(s, h, p))
  {
    forall k: nat, i: nat | k < 3 && i < |s.ready[k]|
      ensures s.ready[k][i] != h
    {
      assert s.ready[k][i] in multiset(s.ready[k]);
    }
  }

  lemma RunningNotReady(s: State, h: nat)
    requires s.running == Some(h) && Places(s, h) == 1
    ensures InReady(s.ready, h) == 0
  {
  }

  lemma DispatchSorted(p: Policy, s: State)
    requires Sorted(s)
    ensures Sorted(DispatchIdle(p, s)) && SamePriorities(s, DispatchIdle(p, s))
  {
    SwitchInSorted(s);
  }

  lemma PreemptSorted(p: Policy, s: State)
    requires Sorted(s) && Ranged(s) && (s.running.Some? ==> Places(s, s.running.value) == 1)
    ensures Sorted(Preempt(p, s))
  {
    if Preempts(p, s) {
      var h := s.running.value;
      RunningNotReady(s, h);
      PutSorted(s, h, Get(s, h).(cpu := s.cpu));
      var a := Save(s, h);
      PutSorted(a, h, UseQuantum(Get(a, h)));
      var c := Charge(p, s, h);
      EnqueueGrows(c, h, Ready);
      SwitchInSorted(Enqueue(c, h, Ready));
    }
  }

  lemma PrepareSorted(p: Policy, s: State)
    requires Sound(s) && Sorted(s)
    ensures Sorted(Prepare(p, s))
  {
    AdmitGrows(s);
    var a := Admit(s);
    DispatchSorted(p, a);
    var d := DispatchIdle(p, a);
    AdmitPlaces(s, 0);
    DispatchPlaces(p, a, 0);
    if d.running.Some? {
      var h := d.running.value;
      AdmitPlaces(s, h);
      DispatchPlaces(p, a, h);
      assert Places(s, h) <= 1;
    }
    PreemptSorted(p, d);
  }

  // ---------- the end of a call only appends ----------

  lemma ForkGrows(s: State, h: nat)
    ensures Grows(s, Fork(s, h)) && SamePriorities(s, Fork(s, h))
    ensures Sorted(s) ==> Sorted(Fork(s, h))
    ensures h < |s.pcbs| && InReady(s.ready, h) == 0 ==> InReady(Fork(s, h).ready, h) == 0
  {
    var c := |s.pcbs|;
    var child := Child(Get(s, h), s.clock);
    var t := Put(s, h, Get(s, h).(child := Some(c)));
    var u := t.(pcbs := t.pcbs + [child], names := t.names[child.name := c]);
    EnqueueGrows(u, c, Ready);
    InReadyAppend(u.ready, 0, c, h);
  }

  lemma {:induction false} BlockedAtLeast(sems: seq<Semaphore>, i: nat, x: nat)
    requires i < |sems|
    ensures Occ(sems[i].blocked, x) <= Blocked(sems, x)
  {
    if i < |sems| - 1 {
      BlockedAtLeast(sems[..|sems| - 1], i, x);
    }
  }

  lemma ReleaseGrows(s: State, h: nat)
    ensures Grows(s, Release(s, h)) && SamePriorities(s, Release(s, h))
    ensures Sorted(s) ==> Sorted(Release(s, h))
  {
    if HasSemaphore(s, h) {
      var i := Get(s, h).semId;
      var sem := s.semaphores[i].(value := s.semaphores[i].value + 1);
      if sem.blocked != [] {
        EnqueueGrows(s.(semaphores := s.semaphores[i := sem.(blocked := sem.blocked[1..])]), sem.blocked[0], Ready);
      }
    }
  }

  lemma ReleaseNotReady(s: State, h: nat)
    requires Ranged(s) && InReady(s.ready, h) == 0 && Blocked(s.semaphores, h) == 0
    ensures InReady(Release(s, h).ready, h) == 0
  {
    if HasSemaphore(s, h) {
      var i := Get(s, h).semId;
      var sem := s.semaphores[i];
      BlockedAtLeast(s.semaphores, i, h);
      if sem.blocked != [] {
        var w := sem.blocked[0];
        assert w in multiset(sem.blocked);
        InReadyAppend(s.ready, Prio(s, w), w, h);
      }
    }
  }

  lemma HaltGrows(s: State, h: nat)
    ensures Halt(s, h).ready == s.ready && SamePriorities(s, Halt(s, h))
  {
    var t := Enqueue(PopWaiting(s), FrontWaiting(s, h), Terminated);
    UnlinkKeeps(t, h);
  }

  lemma BlockGrows(s: State, h: nat)
    requires HasSemaphore(s, h)
    ensures Block(s, h).ready == s.ready && SamePriorities(s, Block(s, h))
  {
  }

  lemma ServiceGrows(s: State, h: nat, code: int)
    ensures Grows(s, Service(s, h, code)) && SamePriorities(s, Service(s, h, code))
    ensures Sorted(s) ==> Sorted(Service(s, h, code))
  {
    if code == FORK {
      ForkGrows(s, h);
    } else if code == RELEASE {
      ReleaseGrows(s, h);
    } else if code == SHARED_ADDRESS {
      HaltGrows(s, h);
    } else if HasSemaphore(s, h) {
      BlockGrows(s, h);
    }
  }

  lemma ServiceNotReady(s: State, h: nat, code: int)
    requires Ranged(s) && InReady(s.ready, h) == 0 && Blocked(s.semaphores, h) == 0 && h < |s.pcbs|
    ensures InReady(Service(s, h, code).ready, h) == 0
  {
    if code == FORK {
      ForkGrows(s, h);
    } else if code == RELEASE {
      ReleaseNotReady(s, h);
    } else if code == SHARED_ADDRESS {
      HaltGrows(s, h);
    } else if HasSemaphore(s, h) {
      BlockGrows(s, h);
    }
  }

  lemma ParkGrows(s: State, h: nat)
    ensures Park(s, h).ready == s.ready && SamePriorities(s, Park(s, h)) && Park(s, h).semaphores == s.semaphores
    ensures Sorted(s) ==> Sorted(Park(s, h))
  {
  }

  lemma ResumeGrows(p: Policy, s: State, h: nat)
    ensures Grows(s, Vacate(p, Resume(s, h))) && SamePriorities(s, Vacate(p, Resume(s, h)))
    ensures Sorted(s) ==> Sorted(Vacate(p, Resume(s, h)))
  {
    EnqueueGrows(PopWaiting(s), h, Ready);
  }

  lemma InterruptedGrows(p: Policy, s: State, h: nat, code: int)
    ensures Grows(s, Interrupted(p, s, h, code))
  {
    ParkGrows(s, h);
    ServiceGrows(Park(s, h), h, code);
    var b := Service(Park(s, h), h, code);
    assert Reward(p, b, h).ready == b.ready;
    ResumeGrows(p, Reward(p, b, h), h);
  }

  lemma InterruptedSorted(p: Policy, s: State, h: nat, code: int)
    requires Sorted(s) && Ranged(s) && s.waiting == [] && s.running == Some(h) && Places(s, h) == 1 && h < |s.pcbs|
    ensures Sorted(Interrupted(p, s, h, code))
  {
    ParkGrows(s, h);
    ParkPlaces(s, h, h);
    var a := Park(s, h);
    ServiceGrows(a, h, code);
    ServiceNotReady(a, h, code);
    var b := Service(a, h, code);
    PutSorted(b, h, Promote(Get(b, h)));
    ResumeGrows(p, Reward(p, b, h), h);
  }

  lemma TerminateGrows(p: Policy, s: State, h: nat)
    ensures Terminate(p, s, h).ready == s.ready && SamePriorities(s, Terminate(p, s, h))
  {
    var t := Enqueue(Save(s, h), h, Terminated);
    UnlinkKeeps(t, h);
  }

  lemma ActGrows(p: Policy, s: State)
    ensures Grows(s, Act(p, s))
  {
    if s.running.Some? {
      var h := s.running.value;
      var t := Execute(p, s, h);
      assert t.ready == s.ready;
      InterruptedGrows(p, t, h, CycleOf(s, h).code);
      TerminateGrows(p, t, h);
    }
  }

  lemma ActSorted(p: Policy, s: State)
    requires Sorted(s) && Ranged(s) && s.waiting == []
    requires s.running.Some? ==> Places(s, s.running.value) == 1 && s.running.value < |s.pcbs|
    ensures Sorted(Act(p, s))
  {
    if s.running.Some? {
      var h := s.running.value;
      var t := Execute(p, s, h);
      assert SamePriorities(s, t) && SameQueues(s, t);
      var code := CycleOf(s, h).code;
      if code >= 20 {
        InterruptedSorted(p, t, h, code);
      } else if code == HALTED {
        TerminateGrows(p, t, h);
      }
    }
  }

  lemma StepSorted(p: Policy, s: State)
    requires Sound(s) && Sorted(s)
    ensures Sorted(Step(p, s))
  {
    PrepareSorted(p, s);
    var t := Prepare(p, s);
    PreparePlaces(p, s, 0);
    if t.running.Some? {
      var h := t.running.value;
      PreparePlaces(p, s, h);
      assert Places(s, h) == if h < |s.pcbs| then 1 else 0;
    }
    ActSorted(p, t);
  }

  // Only a call changes the ready queues or an existing process's priority.
  lemma QuietReady(s: State, e: Event)
    requires !e.Tick?
    ensures Apply(s, e).ready == s.ready && SamePriorities(s, Apply(s, e))
    ensures Apply(s, e).running == s.running && Apply(s, e).quantumClock == s.quantumClock
  {
    match e
    case OpenSegment(size, one, two) =>
      match (Lookup(s, one), Lookup(s, two)) {
        case (Some(a), Some(b)) =>
          UnlinkKeeps(s, a);
          UnlinkKeeps(Unlink(s, a), b);
          QuietShare(Unlink(Unlink(s, a), b), a, b, size);
        case _ =>
      }
    case _ =>
  }

  lemma QuietShare(s: State, a: nat, b: nat, size: int)
    ensures var t := Share(s, a, b, size);
            t.ready == s.ready && SamePriorities(s, t) && t.running == s.running && t.quantumClock == s.quantumClock
  {
  }

  lemma ApplySorted(s: State, e: Event)
    requires Sound(s) && Sorted(s)
    ensures Sorted(Apply(s, e))
  {
    if e.Tick? {
      StepSorted(e.policy, s);
    } else {
      QuietReady(s, e);
    }
  }

  // Level discipline: over every run, of whatever policies, queue k holds only level k.
  lemma {:induction false} RunSorted(s: State, es: seq<Event>)
    requires Sound(s) && Sorted(s)
    ensures Sorted(Run(s, es))
    decreases |es|
  {
    if es != [] {
      ApplySound(s, es[0]);
      ApplySorted(s, es[0]);
      RunSorted(Apply(s, es[0]), es[1..]);
    }
  }

  // ---------- first in, first out ----------

  // What dispatching to an idle CPU takes out of ready queue k, and what a preemption takes.
  function TakenIdle(p: Policy, s: State, k: nat): seq<nat>
    requires k < 3
  {
    var t := DispatchIdle(p, s);
    if s.running.None? && t.running.Some? && Top(s.ready) == k then [t.running.value] else []
  }

  function TakenAfterPreempt(p: Policy, s: State, k: nat): seq<nat>
    requires k < 3
  {
    if !Preempts(p, s) then []
    else
      var h := s.running.value;
      var t := Preempt(p, s);
      if t.running.Some? && Top(Enqueue(Charge(p, s, h), h, Ready).ready) == k then [t.running.value] else []
  }

  // The processes a call takes out of ready queue k, in order.
  function Taken(p: Policy, s: State, k: nat): seq<nat>
    requires k < 3
  {
    TakenIdle(p, Admit(s), k) + TakenAfterPreempt(p, DispatchIdle(p, Admit(s)), k)
  }

  // All that was taken from ready queue k in a run, in order.
  function TakenLog(s: State, es: seq<Event>, k: nat): seq<nat>
    requires k < 3
    decreases |es|
  {
    if es == [] then []
    else (if es[0].Tick? then Taken(es[0].policy, s, k) else []) + TakenLog(Apply(s, es[0]), es[1..], k)
  }

  lemma SwitchInTakes(s: State, k: nat)
    requires k < 3 && !NoneReady(s)
    ensures var t := TagRunning(SwitchIn(s));
            && t.running == SwitchIn(s).running && t.running.Some? && t.ready == SwitchIn(s).ready
            && s.ready[k] == (if Top(s.ready) == k then [t.running.value] else []) + t.ready[k]
  {
  }

  lemma DispatchTakes(p: Policy, s: State, k: nat)
    requires k < 3
    ensures s.ready[k] == TakenIdle(p, s, k) + DispatchIdle(p, s).ready[k]
  {
    if !NoneReady(s) {
      SwitchInTakes(s, k);
    }
  }

  // ---------- what enters the queues ----------

  // The members of `q` whose priority is k, in order.
  function OnLevel(s: State, q: seq<nat>, k: nat): seq<nat> {
    if q == [] then [] else (if Prio(s, q[0]) == k then [q[0]] else []) + OnLevel(s, q[1..], k)
  }

  // A preempted process enters at the level its used-up quantum leaves it.
  function EnteredByPreempt(p: Policy, s: State, k: nat): seq<nat> {
    if Preempts(p, s) && Prio(Charge(p, s, s.running.value), s.running.value) == k then [s.running.value] else []
  }

  // The process that a release wakes.
  function WokenBy(s: State, h: nat, code: int): Option<nat> {
    if code == RELEASE && HasSemaphore(s, h) && s.semaphores[Get(s, h).semId].blocked != []
    then Some(s.semaphores[Get(s, h).semId].blocked[0]) else None
  }

  // Whether the interrupted process goes back to the ready queues: its interrupt neither
  // blocks nor halts it.
  predicate Returns(s: State, h: nat, code: int) {
    && !(code == ACQUIRE && HasSemaphore(s, h) && s.semaphores[Get(s, h).semId].value == 0)
    && !(code == WAIT && HasSemaphore(s, h))
    && !(code == SHARED_ADDRESS && Get(s, h).shm.None?)
  }

  // What serving an interrupt puts into ready queue k: a forked child or a woken process.
  function EnteredByService(s: State, h: nat, code: int, k: nat): seq<nat> {
    if code == FORK then (if k == 0 then [|s.pcbs|] else [])
    else
      var w := WokenBy(s, h, code);
      if w.Some? && Prio(s, w.value) == k then [w.value] else []
  }

  // What an interrupt puts into ready queue k: that, then the interrupted process itself, one
  // level up under MLFQ.
  function EnteredByInterrupt(p: Policy, s: State, h: nat, code: int, k: nat): seq<nat> {
    var prio := if p.Mlfq? && Prio(s, h) > 0 then Prio(s, h) - 1 else Prio(s, h);
    EnteredByService(s, h, code, k) + if Returns(s, h, code) && prio == k then [h] else []
  }

  function EnteredByCycle(p: Policy, s: State, k: nat): seq<nat> {
    if s.running.None? then []
    else
      var h := s.running.value;
      var code := CycleOf(s, h).code;
      if code >= 20 then EnteredByInterrupt(p, s, h, code, k) else []
  }

  // The processes a call puts into ready queue k, in order: those admitted, the one preempted,
  // and those its cycle's interrupt forks, wakes or returns.
  function Entered(p: Policy, s: State, k: nat): seq<nat> {
    OnLevel(s, s.arrived, k) + EnteredByPreempt(p, DispatchIdle(p, Admit(s)), k) + EnteredByCycle(p, Prepare(p, s), k)
  }

  // All that was put into ready queue k in a run, in order.
  function EnteredLog(s: State, es: seq<Event>, k: nat): seq<nat>
    decreases |es|
  {
    if es == [] then []
    else (if es[0].Tick? then Entered(es[0].policy, s, k) else []) + EnteredLog(Apply(s, es[0]), es[1..], k)
  }

  lemma EnqueueEnters(s: State, h: nat, k: nat)
    requires k < 3 && 0 <= Prio(s, h) <= 2
    ensures Enqueue(s, h, Ready).ready[k] == s.ready[k] + if Prio(s, h) == k then [h] else []
  {
  }

  lemma {:induction false} OnLevelSame(s: State, t: State, q: seq<nat>, k: nat)
    requires SamePriorities(s, t)
    ensures OnLevel(s, q, k) == OnLevel(t, q, k)
  {
    if q != [] {
      assert Prio(t, q[0]) == Prio(s, q[0]);
      OnLevelSame(s, t, q[1..], k);
    }
  }

  lemma AdmitOneEnters(s: State, k: nat)
    requires k < 3 && Ranged(s) && s.arrived != []
    ensures var h, u := s.arrived[0], Enqueue(s.(arrived := s.arrived[1..]), s.arrived[0], Ready);
            && Ranged(u) && u.arrived == s.arrived[1..] && SamePriorities(s, u)
            && u.ready[k] == s.ready[k] + if Prio(s, h) == k then [h] else []
  {
    var h, t := s.arrived[0], s.(arrived := s.arrived[1..]);
    EnqueueEnters(t, h, k);
    EnqueueGrows(t, h, Ready);
    EnqueueRanged(t, h, Ready);
  }

  lemma {:induction false} AdmitEnters(s: State, k: nat)
    requires k < 3 && Ranged(s)
    ensures Admit(s).ready[k] == s.ready[k] + OnLevel(s, s.arrived, k)
    decreases |s.arrived|
  {
    hide Enqueue;
    hide Ranged;
    hide SamePriorities;
    hide Prio;
    if s.arrived != [] {
      var h, u := s.arrived[0], Enqueue(s.(arrived := s.arrived[1..]), s.arrived[0], Ready);
      AdmitOneEnters(s, k);
      OnLevelSame(s, u, s.arrived[1..], k);
      AdmitEnters(u, k);
      var e: seq<nat> := if Prio(s, h) == k then [h] else [];
      assert s.ready[k] + e + OnLevel(s, s.arrived[1..], k) == s.ready[k] + (e + OnLevel(s, s.arrived[1..], k));
    }
  }

  lemma PreemptTakes(p: Policy, s: State, k: nat)
    requires k < 3 && Ranged(s)
    ensures s.ready[k] + EnteredByPreempt(p, s, k) == TakenAfterPreempt(p, s, k) + Preempt(p, s).ready[k]
  {
    if Preempts(p, s) {
      var h := s.running.value;
      var c := Charge(p, s, h);
      ChargeKeeps(p, s, h, h);
      assert c.ready == s.ready;
      EnqueueEnters(c, h, k);
      EnqueueReadyFills(c, h);
      hide Charge;
      hide Enqueue;
      SwitchInTakes(Enqueue(c, h, Ready), k);
    }
  }

  lemma ForkEnters(s: State, h: nat, k: nat)
    requires k < 3
    ensures Fork(s, h).ready[k] == s.ready[k] + if k == 0 then [|s.pcbs|] else []
  {
    var c := |s.pcbs|;
    var child := Child(Get(s, h), s.clock);
    var t := Put(s, h, Get(s, h).(child := Some(c)));
    var u := t.(pcbs := t.pcbs + [child], names := t.names[child.name := c]);
    EnqueueEnters(u, c, k);
  }

  lemma ReleaseEnters(s: State, h: nat, k: nat)
    requires k < 3 && Ranged(s)
    ensures Release(s, h).ready[k] == s.ready[k] + EnteredByService(s, h, RELEASE, k)
  {
    if HasSemaphore(s, h) {
      var i := Get(s, h).semId;
      var sem := s.semaphores[i].(value := s.semaphores[i].value + 1);
      if sem.blocked != [] {
        EnqueueEnters(s.(semaphores := s.semaphores[i := sem.(blocked := sem.blocked[1..])]), sem.blocked[0], k);
      }
    }
  }

  // What serving an interrupt does to the queues, and whether it leaves the process waiting.
  lemma ServiceEnters(s: State, h: nat, code: int, k: nat)
    requires k < 3 && Ranged(s) && s.waiting == [h]
    ensures Service(s, h, code).ready[k] == s.ready[k] + EnteredByService(s, h, code, k)
    ensures Service(s, h, code).waiting == if Returns(s, h, code) then [h] else []
  {
    if code == FORK {
      ForkEnters(s, h, k);
      ForkPlaces(s, h, h);
      hide Fork;
    } else if code == RELEASE {
      ReleaseEnters(s, h, k);
      ReleasePlaces(s, h, h);
      hide Release;
    } else if code == SHARED_ADDRESS {
      HaltGrows(s, h);
      HaltPlaces(s, h, h);
      hide Halt;
    } else if HasSemaphore(s, h) {
      BlockGrows(s, h);
      BlockPlaces(s, h, h);
      hide Block;
    }
  }

  lemma ResumeEnters(s: State, h: nat, k: nat)
    requires k < 3 && Ranged(s)
    ensures Resume(s, h).ready[k] == s.ready[k] + if s.waiting != [] && Prio(s, h) == k then [h] else []
  {
    EnqueueEnters(PopWaiting(s), h, k);
  }

  lemma RewardPrio(p: Policy, s: State, h: nat)
    requires h < |s.pcbs|
    ensures Prio(Reward(p, s, h), h) == (if p.Mlfq? && Prio(s, h) > 0 then Prio(s, h) - 1 else Prio(s, h))
    ensures Reward(p, s, h).ready == s.ready
  {
  }

  lemma EnteredParked(s: State, h: nat, code: int, k: nat)
    ensures EnteredByService(Park(s, h), h, code, k) == EnteredByService(s, h, code, k)
    ensures Returns(Park(s, h), h, code) <==> Returns(s, h, code)
    ensures Prio(Park(s, h), h) == Prio(s, h)
  {
  }

  lemma InterruptedEnters(p: Policy, s: State, h: nat, code: int, k: nat)
    requires k < 3 && Ranged(s) && s.waiting == [] && h < |s.pcbs|
    ensures Interrupted(p, s, h, code).ready[k] == s.ready[k] + EnteredByInterrupt(p, s, h, code, k)
  {
    hide Park;
    hide Service;
    hide Reward;
    hide Resume;
    hide EnteredByService;
    hide Returns;
    hide Places;
    hide Ranged;
    var a := Park(s, h);
    var b := Service(a, h, code);
    ParkGrows(s, h);
    ParkPlaces(s, h, h);
    EnteredParked(s, h, code, k);
    ServiceEnters(a, h, code, k);
    ServiceGrows(a, h, code);
    ServicePlaces(a, h, code, h);
    assert Prio(b, h) == Prio(a, h);
    RewardPrio(p, b, h);
    RewardKeeps(p, b, h, h);
    ResumeEnters(Reward(p, b, h), h, k);
  }

  lemma EnteredExecuted(p: Policy, s: State, h: nat, code: int, k: nat)
    ensures EnteredByInterrupt(p, Execute(p, s, h), h, code, k) == EnteredByInterrupt(p, s, h, code, k)
  {
    var t := Execute(p, s, h);
    assert |t.pcbs| == |s.pcbs| && t.semaphores == s.semaphores && Get(t, h).semId == Get(s, h).semId;
    assert Get(t, h).shm == Get(s, h).shm && SamePriorities(s, t);
    hide Execute;
    var w := WokenBy(s, h, code);
    assert w.Some? ==> Prio(t, w.value) == Prio(s, w.value);
    assert Prio(t, h) == Prio(s, h);
  }

  lemma ActEnters(p: Policy, s: State, k: nat)
    requires k < 3 && Ranged(s) && s.waiting == [] && (s.running.Some? ==> s.running.value < |s.pcbs|)
    ensures Act(p, s).ready[k] == s.ready[k] + EnteredByCycle(p, s, k)
  {
    if s.running.Some? {
      var h := s.running.value;
      var t, code := Execute(p, s, h), CycleOf(s, h).code;
      ExecuteKeeps(p, s, h);
      EnteredExecuted(p, s, h, code, k);
      hide Execute;
      hide EnteredByInterrupt;
      hide CycleOf;
      if code >= 20 {
        InterruptedEnters(p, t, h, code, k);
      } else if code == HALTED {
        TerminateGrows(p, t, h);
      }
      hide Interrupted;
      hide Terminate;
    }
  }

  lemma Across(r: seq<nat>, e0: seq<nat>, a: seq<nat>, x: seq<nat>, d: seq<nat>, e1: seq<nat>,
               y: seq<nat>, t: seq<nat>, e2: seq<nat>, u: seq<nat>)
    requires a == r + e0 && a == x + d && d + e1 == y + t && u == t + e2
    ensures r + (e0 + e1 + e2) == (x + y) + u
  {
    calc {
      r + (e0 + e1 + e2);
      (r + e0) + e1 + e2;
      x + (d + e1) + e2;
      x + (y + t) + e2;
      (x + y) + (t + e2);
    }
  }

  // One call: what each queue held, then what entered it, is what was taken from it, then what
  // it holds.
  lemma StepTakes(p: Policy, s: State, k: nat)
    requires Sound(s) && k < 3
    ensures s.ready[k] + Entered(p, s, k) == Taken(p, s, k) + Step(p, s).ready[k]
  {
    hide Admit;
    hide DispatchIdle;
    hide Preempt;
    hide Act;
    hide TakenIdle;
    hide TakenAfterPreempt;
    hide OnLevel;
    hide EnteredByPreempt;
    hide EnteredByCycle;
    hide Places;
    hide Ranged;
    var a, t := Admit(s), Prepare(p, s);
    var d := DispatchIdle(p, a);
    AdmitEnters(s, k);
    AdmitPlaces(s, 0);
    DispatchPlaces(p, a, 0);
    PreparePlaces(p, s, 0);
    DispatchTakes(p, a, k);
    PreemptTakes(p, d, k);
    if t.running.Some? {
      RunningExists(p, s);
    }
    ActEnters(p, t, k);
    Across(s.ready[k], OnLevel(s, s.arrived, k), a.ready[k], TakenIdle(p, a, k), d.ready[k], EnteredByPreempt(p, d, k),
           TakenAfterPreempt(p, d, k), t.ready[k], EnteredByCycle(p, t, k), Act(p, t).ready[k]);
  }

  lemma RunningExists(p: Policy, s: State)
    requires Sound(s) && Executor(p, s).Some?
    ensures Executor(p, s).value < |Prepare(p, s).pcbs|
  {
    var h := Executor(p, s).value;
    PreparePlaces(p, s, h);
    assert Places(s, h) == if h < |s.pcbs| then 1 else 0;
  }

  // First in, first out, per level and over every run: what queue k held and all that entered
  // it, in order, is all that was taken from it, in order, followed by what it holds now.
  lemma {:induction false} RunTakes(s: State, es: seq<Event>, k: nat)
    requires Sound(s) && k < 3
    ensures s.ready[k] + EnteredLog(s, es, k) == TakenLog(s, es, k) + Run(s, es).ready[k]
    decreases |es|
  {
    if es != [] {
      var e, t := es[0], Apply(s, es[0]);
      ApplySound(s, e);
      RunTakes(t, es[1..], k);
      var now := if e.Tick? then Taken(e.policy, s, k) else [];
      var entered := if e.Tick? then Entered(e.policy, s, k) else [];
      if e.Tick? {
        StepTakes(e.policy, s, k);
      } else {
        QuietReady(s, e);
      }
      Join(s.ready[k], entered, now, t.ready[k], EnteredLog(t, es[1..], k), TakenLog(t, es[1..], k), Run(s, es).ready[k]);
    }
  }

  lemma Join(r: seq<nat>, e: seq<nat>, x: seq<nat>, t: seq<nat>, f: seq<nat>, y: seq<nat>, u: seq<nat>)
    requires r + e == x + t && t + f == y + u
    ensures r + (e + f) == (x + y) + u
  {
    calc {
      r + (e + f);
      (r + e) + f;
      x + (t + f);
      (x + y) + u;
    }
  }

  // From power-on: everything that ever entered a level is what was dispatched from it, in
  // order, followed by what is still there.
  lemma QueueIsLog(es: seq<Event>, k: nat)
    requires k < 3
    ensures EnteredLog(Boot(), es, k) == TakenLog(Boot(), es, k) + Run(Boot(), es).ready[k]
  {
    BootSound();
    RunTakes(Boot(), es, k);
    assert Boot().ready[k] + EnteredLog(Boot(), es, k) == EnteredLog(Boot(), es, k);
  }

  // ---------- who is taken ----------

  // `x` is the head of queue k and every higher level is empty.
  predicate IsHead(q: Levels, k: nat, x: nat) {
    k < 3 && q[k] != [] && q[k][0] == x && forall j :: 0 <= j < k ==> q[j] == []
  }

  // The ready queues a preemption chooses from: the preempted process is back in its own.
  function AfterExpiry(p: Policy, s: State): Levels {
    if Preempts(p, s) then Enqueue(Charge(p, s, s.running.value), s.running.value, Ready).ready else s.ready
  }

  // Every process taken was the head of the highest non-empty level when it was taken, and
  // whoever executes without having run before was taken in this call.
  lemma TakenAreHeads(p: Policy, s: State)
    requires Sound(s)
    ensures var a := Admit(s);
            var d := DispatchIdle(p, a);
            && (forall k, x :: 0 <= k < 3 && x in TakenIdle(p, a, k) ==> TakenIdle(p, a, k) == [x] && IsHead(a.ready, k, x))
            && (forall k, x :: 0 <= k < 3 && x in TakenAfterPreempt(p, d, k) ==>
                  TakenAfterPreempt(p, d, k) == [x] && IsHead(AfterExpiry(p, d), k, x))
    ensures var e := Executor(p, s);
            e.Some? && e != s.running ==> exists k: nat :: k < 3 && e.value in Taken(p, s, k)
  {
    hide Admit;
    hide DispatchIdle;
    hide Preempt;
    hide TakenIdle;
    hide TakenAfterPreempt;
    hide AfterExpiry;
    hide IsHead;
    hide Places;
    var a := Admit(s);
    var d := DispatchIdle(p, a);
    AdmitGrows(s);
    AdmitPlaces(s, 0);
    DispatchPlaces(p, a, 0);
    IdleHeads(p, a);
    PreemptHeads(p, d);
    var e := Executor(p, s);
    if e.Some? && e != s.running {
      if e == d.running {
        var k: nat :| k < 3 && e.value in TakenIdle(p, a, k);
        assert e.value in Taken(p, s, k);
      } else {
        var k: nat :| k < 3 && e.value in TakenAfterPreempt(p, d, k);
        assert e.value in Taken(p, s, k);
      }
    }
  }

  lemma SwitchInHead(s: State)
    requires !NoneReady(s)
    ensures SwitchIn(s).running.Some? && IsHead(s.ready, Top(s.ready), SwitchIn(s).running.value)
    ensures TagRunning(SwitchIn(s)).running == SwitchIn(s).running
  {
  }

  lemma IdleHeads(p: Policy, s: State)
    requires s.waiting == [] && s.arrived == []
    ensures forall k, x :: 0 <= k < 3 && x in TakenIdle(p, s, k) ==> TakenIdle(p, s, k) == [x] && IsHead(s.ready, k, x)
    ensures var d := DispatchIdle(p, s).running;
            d.Some? && d != s.running ==> exists k: nat :: k < 3 && d.value in TakenIdle(p, s, k)
  {
    if !NoneReady(s) {
      SwitchInHead(s);
    }
    var d := DispatchIdle(p, s);
    hide SwitchIn;
    if d.running.Some? && d.running != s.running {
      assert d.running.value in TakenIdle(p, s, Top(s.ready));
    }
  }

  lemma PreemptHeads(p: Policy, s: State)
    requires Ranged(s)
    ensures forall k, x :: 0 <= k < 3 && x in TakenAfterPreempt(p, s, k) ==>
              TakenAfterPreempt(p, s, k) == [x] && IsHead(AfterExpiry(p, s), k, x)
    ensures var t := Preempt(p, s).running;
            t.Some? && t != s.running ==> exists k: nat :: k < 3 && t.value in TakenAfterPreempt(p, s, k)
  {
    if Preempts(p, s) {
      var h := s.running.value;
      var c := Charge(p, s, h);
      ChargeKeeps(p, s, h, h);
      hide Charge;
      EnqueueReadyFills(c, h);
      var e := Enqueue(c, h, Ready);
      hide Enqueue;
      SwitchInHead(e);
      hide SwitchIn;
      hide TagRunning;
      assert Preempt(p, s).running.value in TakenAfterPreempt(p, s, Top(e.ready));
    }
  }
}
