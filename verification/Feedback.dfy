// The feedback of the multi-level queue: a process's level is a fold over its history.
module Feedback {
  import opened Options
  import opened Machine
  import opened MachineLaws
  import opened Processes
  import opened System
  import opened Census
  import opened Timekeeping

  // What the feedback rule hears of a process: it used up a quantum, or it was interrupted
  // by its own SWI.
  datatype Mark = Expiry | Swi

  datatype Level = Level(priority: int, count: int)

  // The fifth expiry in a row demotes, down to level 2; a SWI promotes, up to level 0; both
  // start the count again.
  function Heard(l: Level, m: Mark): Level {
    match m
    case Expiry =>
      if l.count < 4 then Level(l.priority, l.count + 1)
      else Level(if l.priority == 2 then 2 else l.priority + 1, 0)
    case Swi => Level(if l.priority == 0 then 0 else l.priority - 1, 0)
  }

  function Fold(l: Level, ms: seq<Mark>): Level
    decreases |ms|
  {
    if ms == [] then l else Fold(Heard(l, ms[0]), ms[1..])
  }

  ghost predicate InBounds(l: Level) {
    0 <= l.priority <= 2 && 0 <= l.count <= 4
  }

  function LevelOf(s: State, x: nat): Level {
    Level(Get(s, x).priority, Get(s, x).quantumCount)
  }

  predicate IsPreempted(p: Policy, s: State, x: nat) {
    var d := DispatchIdle(p, Admit(s));
    Preempts(p, d) && d.running == Some(x)
  }

  // What a call tells the rule about process `x`.
  function Marks(p: Policy, s: State, x: nat): seq<Mark> {
    (if IsPreempted(p, s, x) then [Expiry] else [])
    + (if Executor(p, s) == Some(x) && CodeOf(p, s) >= 20 then [Swi] else [])
  }

  function History(s: State, es: seq<Event>, x: nat): seq<Mark>
    decreases |es|
  {
    if es == [] then []
    else (if es[0].Tick? then Marks(es[0].policy, s, x) else []) + History(Apply(s, es[0]), es[1..], x)
  }

  lemma {:induction false} FoldAppend(l: Level, a: seq<Mark>, b: seq<Mark>)
    ensures Fold(l, a + b) == Fold(Fold(l, a), b)
    decreases |a|
  {
    if a == [] {
      assert a + b == b;
    } else {
      assert (a + b)[1..] == a[1..] + b;
      FoldAppend(Heard(l, a[0]), a[1..], b);
    }
  }

  lemma {:induction false} FoldInBounds(l: Level, ms: seq<Mark>)
    requires InBounds(l)
    ensures InBounds(Fold(l, ms))
    decreases |ms|
  {
    if ms != [] {
      FoldInBounds(Heard(l, ms[0]), ms[1..]);
    }
  }

  // n expiries without a SWI: one level down for every five, counting those before.
  lemma {:induction false} ExpiriesDemote(l: Level, ms: seq<Mark>)
    requires InBounds(l) && forall i :: 0 <= i < |ms| ==> ms[i] == Expiry
    ensures var n := l.count + |ms|;
            Fold(l, ms) == Level(if l.priority + n / 5 <= 2 then l.priority + n / 5 else 2, n % 5)
    decreases |ms|
  {
    if ms != [] {
      ExpiriesDemote(Heard(l, ms[0]), ms[1..]);
    }
  }

  // ---------- the phases of a call ----------

  lemma {:induction false} AdmitLevel(s: State, x: nat)
    ensures LevelOf(Admit(s), x) == LevelOf(s, x) && |Admit(s).pcbs| == |s.pcbs|
    decreases |s.arrived|
  {
    if s.arrived != [] {
      AdmitLevel(Enqueue(s.(arrived := s.arrived[1..]), s.arrived[0], Ready), x);
    }
  }

  lemma SwitchInLevel(s: State, x: nat)
    ensures LevelOf(SwitchIn(s), x) == LevelOf(s, x) && LevelOf(TagRunning(SwitchIn(s)), x) == LevelOf(s, x)
  {
  }

  lemma PreemptLevel(p: Policy, s: State, x: nat)
    requires p.Mlfq? && (s.running.Some? ==> s.running.value < |s.pcbs| && InBounds(LevelOf(s, s.running.value)))
    ensures LevelOf(Preempt(p, s), x)
         == if Preempts(p, s) && s.running == Some(x) then Heard(LevelOf(s, x), Expiry) else LevelOf(s, x)
  {
    if Preempts(p, s) {
      var h := s.running.value;
      var c := Charge(p, s, h);
      assert LevelOf(c, x) == if x == h then Heard(LevelOf(s, x), Expiry) else LevelOf(s, x);
      assert LevelOf(Enqueue(c, h, Ready), x) == LevelOf(c, x);
      SwitchInLevel(Enqueue(c, h, Ready), x);
    }
  }

  lemma DeallocateLevel(s: State, h: nat, x: nat)
    ensures LevelOf(Deallocate(s, h), x) == LevelOf(s, x)
  {
    UnlinkKeeps(s, h);
  }

  lemma HaltLevel(s: State, h: nat, x: nat)
    ensures LevelOf(Halt(s, h), x) == LevelOf(s, x) && |Halt(s, h).pcbs| == |s.pcbs|
  {
    var t := Enqueue(PopWaiting(s), FrontWaiting(s, h), Terminated);
    DeallocateLevel(t, h, x);
    DeallocateSize(t, h);
    hide Deallocate;
  }

  lemma ReleaseLevel(s: State, h: nat, x: nat)
    ensures LevelOf(Release(s, h), x) == LevelOf(s, x) && |Release(s, h).pcbs| == |s.pcbs|
  {
  }

  lemma AcquireLevel(s: State, h: nat, x: nat)
    ensures LevelOf(Acquire(s, h), x) == LevelOf(s, x) && |Acquire(s, h).pcbs| == |s.pcbs|
  {
  }

  // Serving an interrupt changes no level, and removes no process.
  lemma ServiceLevel(s: State, h: nat, code: int, x: nat)
    ensures LevelOf(Service(s, h, code), x) == LevelOf(s, x) && |Service(s, h, code).pcbs| >= |s.pcbs|
  {
    HaltLevel(s, h, x);
    ReleaseLevel(s, h, x);
    AcquireLevel(s, h, x);
    hide Halt;
    hide Release;
    hide Acquire;
  }

  lemma InterruptedLevel(p: Policy, s: State, h: nat, code: int, x: nat)
    requires p.Mlfq? && h < |s.pcbs| && InBounds(LevelOf(s, h)) && s.waiting == []
    ensures LevelOf(Interrupted(p, s, h, code), x) == if x == h then Heard(LevelOf(s, x), Swi) else LevelOf(s, x)
  {
    var a := Park(s, h);
    assert LevelOf(a, x) == LevelOf(s, x) && a.waiting == [h] && |a.pcbs| == |s.pcbs|;
    ServiceLevel(a, h, code, x);
    var b := Service(a, h, code);
    var c := Reward(p, b, h);
    assert LevelOf(c, x) == if x == h then Heard(LevelOf(s, x), Swi) else LevelOf(s, x);
    assert LevelOf(Resume(c, h), x) == LevelOf(c, x);
  }

  lemma DeallocateSize(s: State, h: nat)
    ensures |Deallocate(s, h).pcbs| == |s.pcbs|
  {
    UnlinkKeeps(s, h);
  }

  lemma ActLevel(p: Policy, s: State, x: nat)
    requires p.Mlfq? && s.waiting == []
    requires s.running.Some? ==> s.running.value < |s.pcbs| && InBounds(LevelOf(s, s.running.value))
    ensures LevelOf(Act(p, s), x)
         == if s.running == Some(x) && CycleOf(s, x).code >= 20 then Heard(LevelOf(s, x), Swi) else LevelOf(s, x)
  {
    if s.running.Some? {
      var h := s.running.value;
      var t := Execute(p, s, h);
      assert LevelOf(t, x) == LevelOf(s, x) && LevelOf(t, h) == LevelOf(s, h) && t.waiting == [] && |t.pcbs| == |s.pcbs|;
      var code := CycleOf(s, h).code;
      if code >= 20 {
        InterruptedLevel(p, t, h, code, x);
      } else if code == HALTED {
        DeallocateLevel(Enqueue(Save(t, h), h, Terminated), h, x);
      }
    }
  }

  ghost predicate Bounded(s: State) {
    forall x: nat :: InBounds(LevelOf(s, x))
  }

  lemma DispatchedExists(p: Policy, s: State)
    requires Sound(s)
    ensures var d := DispatchIdle(p, Admit(s));
            (d.running.Some? ==> d.running.value < |s.pcbs|) && |d.pcbs| == |s.pcbs|
  {
    AdmitPlaces(s, 0);
    DispatchPlaces(p, Admit(s), 0);
    var d := DispatchIdle(p, Admit(s));
    if d.running.Some? {
      var h := d.running.value;
      AdmitPlaces(s, h);
      DispatchPlaces(p, Admit(s), h);
      assert Places(s, h) == if h < |s.pcbs| then 1 else 0;
    }
  }

  lemma PrepareLevel(p: Policy, s: State, x: nat)
    requires p.Mlfq? && Sound(s) && Bounded(s)
    ensures LevelOf(Prepare(p, s), x)
         == if IsPreempted(p, s, x) then Heard(LevelOf(s, x), Expiry) else LevelOf(s, x)
  {
    var a := Admit(s);
    var d := DispatchIdle(p, a);
    AdmitLevel(s, x);
    SwitchInLevel(a, x);
    assert LevelOf(d, x) == LevelOf(s, x);
    DispatchedExists(p, s);
    if d.running.Some? {
      var h := d.running.value;
      AdmitLevel(s, h);
      SwitchInLevel(a, h);
      assert InBounds(LevelOf(s, h));
    }
    PreemptLevel(p, d, x);
  }

  lemma FoldMarks(l: Level, e: bool, w: bool)
    ensures Fold(l, (if e then [Expiry] else []) + (if w then [Swi] else []))
         == var m := if e then Heard(l, Expiry) else l; if w then Heard(m, Swi) else m
  {
    FoldAppend(l, if e then [Expiry] else [], if w then [Swi] else []);
    assert Fold(l, [Expiry]) == Fold(Heard(l, Expiry), []);
    var m := if e then Heard(l, Expiry) else l;
    assert Fold(m, [Swi]) == Fold(Heard(m, Swi), []);
  }

  lemma StepLevel(p: Policy, s: State, x: nat)
    requires p.Mlfq? && Sound(s) && Bounded(s)
    ensures LevelOf(Step(p, s), x) == Fold(LevelOf(s, x), Marks(p, s, x))
  {
    var t := Prepare(p, s);
    PrepareLevel(p, s, x);
    PreparePlaces(p, s, 0);
    if t.running.Some? {
      ExecutorExists(p, s);
      PrepareLevel(p, s, t.running.value);
      assert InBounds(LevelOf(s, t.running.value));
    }
    ActLevel(p, t, x);
    FoldMarks(LevelOf(s, x), IsPreempted(p, s, x), Executor(p, s) == Some(x) && CodeOf(p, s) >= 20);
  }

  lemma QuietLevel(s: State, e: Event, x: nat)
    requires !e.Tick?
    ensures LevelOf(Apply(s, e), x) == LevelOf(s, x)
  {
    match e
    case OpenSegment(size, one, two) =>
      match (Lookup(s, one), Lookup(s, two)) {
        case (Some(a), Some(b)) =>
          UnlinkKeeps(s, a);
          UnlinkKeeps(Unlink(s, a), b);
          assert LevelOf(Share(Unlink(Unlink(s, a), b), a, b, size), x) == LevelOf(s, x);
        case _ =>
      }
    case _ =>
  }

  ghost predicate AllMlfq(es: seq<Event>) {
    forall i :: 0 <= i < |es| && es[i].Tick? ==> es[i].policy.Mlfq?
  }

  // The feedback rule: over every MLFQ run the level and quantum count of every process,
  // existing or created on the way, are the fold of its history from its own start, and
  // they stay within levels 0..2 and counts 0..4.
  lemma {:induction false} RunLevel(s: State, es: seq<Event>, x: nat)
    requires Sound(s) && Bounded(s) && AllMlfq(es)
    ensures LevelOf(Run(s, es), x) == Fold(LevelOf(s, x), History(s, es, x))
    ensures InBounds(LevelOf(Run(s, es), x))
    decreases |es|
  {
    if es == [] {
      assert InBounds(LevelOf(s, x));
    } else {
      var e, t := es[0], Apply(s, es[0]);
      ApplySound(s, e);
      var now := if e.Tick? then Marks(e.policy, s, x) else [];
      forall y: nat
        ensures InBounds(LevelOf(t, y))
        ensures y == x ==> LevelOf(t, y) == Fold(LevelOf(s, x), now)
      {
        assert InBounds(LevelOf(s, y));
        if e.Tick? {
          StepLevel(e.policy, s, y);
          FoldInBounds(LevelOf(s, y), Marks(e.policy, s, y));
        } else {
          QuietLevel(s, e, y);
        }
      }
      RunLevel(t, es[1..], x);
      FoldAppend(LevelOf(s, x), now, History(t, es[1..], x));
    }
  }
}
