// The counting law of semaphores.
module Semaphores {
  import opened Options
  import opened Machine
  import opened MachineLaws
  import opened Processes
  import opened System
  import opened Census
  import opened Timekeeping

  // What happens at a semaphore: an acquire that passes, an acquire that blocks, a wait (SWI 7,
  // which always blocks), a release, and the wake-up a release may cause.
  datatype Action = Granted(h: nat) | Refused(h: nat) | Waited(h: nat) | Released(h: nat) | Woken(h: nat)

  // What the interrupt `code` of process `h` does at its semaphore.
  function ActionsOf(sem: Semaphore, h: nat, code: int): seq<Action> {
    if code == ACQUIRE then (if sem.value == 0 then [Refused(h)] else [Granted(h)])
    else if code == WAIT then [Waited(h)]
    else if code == RELEASE then [Released(h)] + (if sem.blocked == [] then [] else [Woken(sem.blocked[0])])
    else []
  }

  // What a call does at semaphore i.
  function CallActions(p: Policy, s: State, i: nat): seq<Action> {
    var e := Executor(p, s);
    if i < |s.semaphores| && e.Some? && Get(s, e.value).semId == i
    then ActionsOf(s.semaphores[i], e.value, CodeOf(p, s)) else []
  }

  function ActionLog(s: State, es: seq<Event>, i: nat): seq<Action>
    decreases |es|
  {
    if es == [] then []
    else (if es[0].Tick? then CallActions(es[0].policy, s, i) else []) + ActionLog(Apply(s, es[0]), es[1..], i)
  }

  // ---------- what a log adds up to ----------

  function Grants(log: seq<Action>): nat {
    if log == [] then 0 else Grants(log[..|log| - 1]) + if log[|log| - 1].Granted? then 1 else 0
  }

  function Releases(log: seq<Action>): nat {
    if log == [] then 0 else Releases(log[..|log| - 1]) + if log[|log| - 1].Released? then 1 else 0
  }

  // The processes that were put on the block queue, and those taken off it, in order.
  function Blocks(log: seq<Action>): seq<nat> {
    if log == [] then []
    else Blocks(log[..|log| - 1])
         + var a := log[|log| - 1]; if a.Refused? || a.Waited? then [a.h] else []
  }

  function Wakes(log: seq<Action>): seq<nat> {
    if log == [] then []
    else Wakes(log[..|log| - 1]) + var a := log[|log| - 1]; if a.Woken? then [a.h] else []
  }

  lemma {:induction false} Sums(a: seq<Action>, b: seq<Action>)
    ensures Grants(a + b) == Grants(a) + Grants(b)
    ensures Releases(a + b) == Releases(a) + Releases(b)
    ensures Blocks(a + b) == Blocks(a) + Blocks(b)
    ensures Wakes(a + b) == Wakes(a) + Wakes(b)
    decreases |b|
  {
    if b == [] {
      assert a + b == a;
    } else {
      var n := |b| - 1;
      assert (a + b)[..|a + b| - 1] == a + b[..n];
      Sums(a, b[..n]);
    }
  }

  // The law that links a semaphore before and after to the log between.
  ghost predicate Law(s: Semaphore, log: seq<Action>, t: Semaphore) {
    && t.value + Grants(log) == s.value + Releases(log)
    && s.blocked + Blocks(log) == Wakes(log) + t.blocked
    && (s.value >= 0 ==> t.value >= 0)
  }

  lemma SingleSums(a: Action)
    ensures Grants([a]) == (if a.Granted? then 1 else 0) && Releases([a]) == (if a.Released? then 1 else 0)
    ensures Blocks([a]) == (if a.Refused? || a.Waited? then [a.h] else []) && Wakes([a]) == if a.Woken? then [a.h] else []
  {
    assert [a][..0] == [];
  }

  // Semaphore `s` after interrupt `code` of process `h`.
  function Served(s: Semaphore, h: nat, code: int): Semaphore {
    if code == ACQUIRE then
      (if s.value == 0 then s.(blocked := s.blocked + [h]) else s.(value := s.value - 1))
    else if code == WAIT then s.(blocked := s.blocked + [h])
    else if code == RELEASE then
      s.(value := s.value + 1, blocked := if s.blocked == [] then [] else s.blocked[1..])
    else s
  }

  lemma ReleaseLaw(s: Semaphore, h: nat)
    ensures Law(s, ActionsOf(s, h, RELEASE), Served(s, h, RELEASE))
  {
    SingleSums(Released(h));
    if s.blocked != [] {
      SingleSums(Woken(s.blocked[0]));
      Sums([Released(h)], [Woken(s.blocked[0])]);
      assert s.blocked == [s.blocked[0]] + s.blocked[1..];
    }
  }

  lemma ServedLaw(s: Semaphore, h: nat, code: int)
    ensures Law(s, ActionsOf(s, h, code), Served(s, h, code))
  {
    if code == RELEASE {
      ReleaseLaw(s, h);
    } else {
      SingleSums(Granted(h));
      SingleSums(Refused(h));
      SingleSums(Waited(h));
    }
  }

  lemma LawComposes(r: Semaphore, a: seq<Action>, s: Semaphore, b: seq<Action>, t: Semaphore)
    requires Law(r, a, s) && Law(s, b, t)
    ensures Law(r, a + b, t)
  {
    Sums(a, b);
    calc {
      r.blocked + Blocks(a + b);
      r.blocked + (Blocks(a) + Blocks(b));
      (r.blocked + Blocks(a)) + Blocks(b);
      (Wakes(a) + s.blocked) + Blocks(b);
      Wakes(a) + (s.blocked + Blocks(b));
      Wakes(a) + (Wakes(b) + t.blocked);
      Wakes(a + b) + t.blocked;
    }
  }

  // ---------- the machine obeys the law ----------

  lemma {:induction false} AdmitSemaphores(s: State, x: nat)
    ensures Admit(s).semaphores == s.semaphores && Get(Admit(s), x).semId == Get(s, x).semId
    decreases |s.arrived|
  {
    if s.arrived != [] {
      AdmitSemaphores(Enqueue(s.(arrived := s.arrived[1..]), s.arrived[0], Ready), x);
    }
  }

  lemma PreemptSemaphores(p: Policy, s: State, x: nat)
    ensures Preempt(p, s).semaphores == s.semaphores && Get(Preempt(p, s), x).semId == Get(s, x).semId
  {
    if Preempts(p, s) {
      var h := s.running.value;
      var c := Charge(p, s, h);
      assert c.semaphores == s.semaphores && Get(c, x).semId == Get(s, x).semId;
      hide Charge;
      var q := Enqueue(c, h, Ready);
      assert q.semaphores == c.semaphores && Get(q, x).semId == Get(c, x).semId;
      hide Enqueue;
      SwitchInSemaphores(q, x);
    }
  }

  lemma PrepareSemaphores(p: Policy, s: State, x: nat)
    ensures Prepare(p, s).semaphores == s.semaphores && Get(Prepare(p, s), x).semId == Get(s, x).semId
  {
    AdmitSemaphores(s, x);
    SwitchInSemaphores(Admit(s), x);
    PreemptSemaphores(p, DispatchIdle(p, Admit(s)), x);
  }

  lemma SwitchInSemaphores(s: State, x: nat)
    ensures var t := SwitchIn(s);
            && t.semaphores == s.semaphores && Get(t, x).semId == Get(s, x).semId
            && TagRunning(t).semaphores == s.semaphores && Get(TagRunning(t), x).semId == Get(s, x).semId
  {
  }

  function ServedAt(sems: seq<Semaphore>, i: int, h: nat, code: int): seq<Semaphore> {
    if 0 <= i < |sems| then sems[i := Served(sems[i], h, code)] else sems
  }

  lemma ReleaseSemaphores(s: State, h: nat)
    ensures Release(s, h).semaphores == ServedAt(s.semaphores, Get(s, h).semId, h, RELEASE)
  {
  }

  lemma AcquireSemaphores(s: State, h: nat)
    requires s.waiting == [h]
    ensures Acquire(s, h).semaphores == ServedAt(s.semaphores, Get(s, h).semId, h, ACQUIRE)
    ensures WaitSemaphore(s, h).semaphores == ServedAt(s.semaphores, Get(s, h).semId, h, WAIT)
  {
  }

  // Serving an interrupt changes only the semaphore of the interrupted process.
  lemma ServiceSemaphores(s: State, h: nat, code: int)
    requires s.waiting == [h]
    ensures Service(s, h, code).semaphores == ServedAt(s.semaphores, Get(s, h).semId, h, code)
  {
    hide SharedAddress;
    hide Release;
    hide Acquire;
    hide WaitSemaphore;
    if code == RELEASE {
      ReleaseSemaphores(s, h);
    } else if code == ACQUIRE || code == WAIT {
      AcquireSemaphores(s, h);
    } else {
      AddressSemaphores(s, h);
      NoneServed(s.semaphores, Get(s, h).semId, h, code);
    }
  }

  // No other interrupt touches a semaphore.
  lemma NoneServed(sems: seq<Semaphore>, i: int, h: nat, code: int)
    requires code != RELEASE && code != ACQUIRE && code != WAIT
    ensures ServedAt(sems, i, h, code) == sems
  {
  }

  lemma AddressSemaphores(s: State, h: nat)
    requires s.waiting == [h]
    ensures SharedAddress(s, h).semaphores == s.semaphores
  {
    DeallocateSemaphores(Enqueue(PopWaiting(s), h, Terminated), h);
    hide Deallocate;
  }

  lemma DeallocateSemaphores(s: State, h: nat)
    ensures Deallocate(s, h).semaphores == s.semaphores
  {
    UnlinkKeeps(s, h);
  }

  lemma SettleSemaphores(p: Policy, s: State, h: nat, code: int)
    requires s.waiting == [] && (code >= 20 || code == HALTED || code == 0)
    ensures Settle(p, s, h, code).semaphores == ServedAt(s.semaphores, Get(s, h).semId, h, code)
  {
    if code >= 20 {
      var a := Park(s, h);
      assert a.waiting == [h] && a.semaphores == s.semaphores && Get(a, h).semId == Get(s, h).semId;
      ServiceSemaphores(a, h, code);
      hide Service;
      var b := Reward(p, Service(a, h, code), h);
      assert b.semaphores == Service(a, h, code).semaphores;
      assert Resume(b, h).semaphores == b.semaphores;
    } else if code == HALTED {
      DeallocateSemaphores(Enqueue(Save(s, h), h, Terminated), h);
    }
  }

  lemma ActSemaphores(p: Policy, s: State, i: nat)
    requires s.waiting == [] && i < |s.semaphores|
    ensures var t := Act(p, s);
            && |t.semaphores| == |s.semaphores|
            && t.semaphores[i]
            == if s.running.Some? && Get(s, s.running.value).semId == i
               then Served(s.semaphores[i], s.running.value, CycleOf(s, s.running.value).code) else s.semaphores[i]
  {
    if s.running.Some? {
      var h := s.running.value;
      CycleCodes(s.cpu, s.mem, Get(s, h).load);
      var u := Execute(p, s, h);
      assert u.semaphores == s.semaphores && Get(u, h).semId == Get(s, h).semId && u.waiting == [];
      SettleSemaphores(p, u, h, CycleOf(s, h).code);
    }
  }

  lemma StepSemaphores(p: Policy, s: State, i: nat)
    requires Sound(s) && i < |s.semaphores|
    ensures var t := Step(p, s);
            |t.semaphores| == |s.semaphores| && Law(s.semaphores[i], CallActions(p, s, i), t.semaphores[i])
  {
    hide Prepare;
    hide Act;
    hide Places;
    hide CycleOf;
    hide Served;
    PreparePlaces(p, s, 0);
    PrepareSemaphores(p, s, 0);
    var t := Prepare(p, s);
    ActSemaphores(p, t, i);
    ServedLaw(s.semaphores[i], 0, 0);
    if t.running.Some? {
      PrepareSemaphores(p, s, t.running.value);
      ServedLaw(s.semaphores[i], t.running.value, CodeOf(p, s));
    }
  }

  lemma QuietSemaphores(s: State, e: Event, i: nat)
    requires !e.Tick? && i < |s.semaphores|
    ensures |Apply(s, e).semaphores| >= |s.semaphores| && Apply(s, e).semaphores[i] == s.semaphores[i]
  {
    match e
    case OpenSegment(size, one, two) =>
      match (Lookup(s, one), Lookup(s, two)) {
        case (Some(a), Some(b)) =>
          UnlinkKeeps(s, a);
          UnlinkKeeps(Unlink(s, a), b);
        case _ =>
      }
    case _ =>
  }

  // The counting law over every run: value + granted acquires = initial value + releases;
  // the block queue is first in, first out (what blocked is what was woken followed by what
  // is still blocked); and a value that starts at 0 or more stays so.
  lemma {:induction false} RunLaw(s: State, es: seq<Event>, i: nat)
    requires Sound(s) && i < |s.semaphores|
    ensures |Run(s, es).semaphores| >= |s.semaphores|
    ensures Law(s.semaphores[i], ActionLog(s, es, i), Run(s, es).semaphores[i])
    decreases |es|
  {
    if es != [] {
      var e, t := es[0], Apply(s, es[0]);
      ApplySound(s, e);
      var now := if e.Tick? then CallActions(e.policy, s, i) else [];
      if e.Tick? {
        StepSemaphores(e.policy, s, i);
      } else {
        QuietSemaphores(s, e, i);
      }
      assert Law(s.semaphores[i], now, t.semaphores[i]);
      RunLaw(t, es[1..], i);
      LawComposes(s.semaphores[i], now, t.semaphores[i], ActionLog(t, es[1..], i), Run(s, es).semaphores[i]);
    }
  }

  // ---------- who is inside ----------

  // The processes inside after the log, one entry for every grant or wake-up not yet released:
  // a process may enter more than once.
  function Inside(hs: multiset<nat>, log: seq<Action>): multiset<nat> {
    if log == [] then hs
    else
      var before, a := Inside(hs, log[..|log| - 1]), log[|log| - 1];
      if a.Granted? || a.Woken? then before + multiset{a.h} else if a.Released? then before - multiset{a.h} else before
  }

  // Only SWI 5 blocks, and only processes inside release.
  predicate ProperUse(hs: multiset<nat>, log: seq<Action>) {
    log != [] ==>
      var before, a := Inside(hs, log[..|log| - 1]), log[|log| - 1];
      ProperUse(hs, log[..|log| - 1]) && !a.Waited? && (a.Released? ==> a.h in before)
  }

  lemma {:induction false} InsideSize(hs: multiset<nat>, log: seq<Action>)
    requires ProperUse(hs, log)
    ensures |Inside(hs, log)| == |hs| + Grants(log) + |Wakes(log)| - Releases(log)
    decreases |log|
  {
    if log != [] {
      InsideSize(hs, log[..|log| - 1]);
    }
  }

  // The exact count a semaphore gives: with proper use from an empty section, the number of
  // processes inside is the initial value minus the value plus the wake-ups, since a release
  // both increments the value and lets a blocked process in. So no more than the initial value
  // are inside if and only if the wake-ups do not exceed the value, and value and processes
  // inside add up to the initial value if and only if no release ever woke anybody.
  lemma InsideCount(s: State, es: seq<Event>, i: nat)
    requires Sound(s) && i < |s.semaphores| && ProperUse(multiset{}, ActionLog(s, es, i))
    ensures |Run(s, es).semaphores| >= |s.semaphores|
    ensures var log := ActionLog(s, es, i);
            var init, value, inside := s.semaphores[i].value, Run(s, es).semaphores[i].value, |Inside(multiset{}, log)|;
            && inside == init - value + |Wakes(log)|
            && (inside <= init <==> |Wakes(log)| <= value)
            && (inside + value == init <==> Wakes(log) == [])
  {
    RunLaw(s, es, i);
    InsideSize(multiset{}, ActionLog(s, es, i));
  }

  lemma LogOfOne(s: State, p: Policy, i: nat)
    ensures ActionLog(s, [Tick(p)], i) == CallActions(p, s, i) && Run(s, [Tick(p)]) == Step(p, s)
  {
    hide Step;
    hide CallActions;
    assert [Tick(p)][1..] == [];
    assert Apply(s, Tick(p)) == Step(p, s);
    assert CallActions(p, s, i) + [] == CallActions(p, s, i);
  }

  lemma {:induction false} LogAppend(s: State, es: seq<Event>, p: Policy, i: nat)
    ensures ActionLog(s, es + [Tick(p)], i) == ActionLog(s, es, i) + CallActions(p, Run(s, es), i)
    ensures Run(s, es + [Tick(p)]) == Step(p, Run(s, es))
    decreases |es|
  {
    hide Step;
    hide Apply;
    hide CallActions;
    if es == [] {
      assert [] + [Tick(p)] == [Tick(p)];
      LogOfOne(s, p, i);
    } else {
      assert (es + [Tick(p)])[0] == es[0] && (es + [Tick(p)])[1..] == es[1..] + [Tick(p)];
      LogAppend(Apply(s, es[0]), es[1..], p, i);
    }
  }

  lemma {:induction false} ProperPrefix(hs: multiset<nat>, a: seq<Action>, b: seq<Action>)
    requires ProperUse(hs, a + b)
    ensures ProperUse(hs, a)
    decreases |b|
  {
    if b == [] {
      assert a + b == a;
    } else {
      assert (a + b)[..|a + b| - 1] == a + b[..|b| - 1];
      ProperPrefix(hs, a, b[..|b| - 1]);
    }
  }

  // Whether the next call executes interrupt `code` of a process that uses semaphore i.
  predicate Executes(p: Policy, s: State, i: nat, code: int) {
    var e := Executor(p, s);
    e.Some? && Get(s, e.value).semId == i && CodeOf(p, s) == code
  }

  lemma ActionSums(sem: Semaphore, h: nat, code: int)
    ensures var now := ActionsOf(sem, h, code);
            && Grants(now) == (if code == ACQUIRE && sem.value != 0 then 1 else 0)
            && Releases(now) == (if code == RELEASE then 1 else 0)
            && |Wakes(now)| == (if code == RELEASE && sem.blocked != [] then 1 else 0)
  {
    SingleSums(Granted(h));
    SingleSums(Refused(h));
    SingleSums(Waited(h));
    SingleSums(Released(h));
    if sem.blocked != [] {
      SingleSums(Woken(sem.blocked[0]));
      Sums([Released(h)], [Woken(sem.blocked[0])]);
    }
    hide Grants;
    hide Releases;
    hide Wakes;
    hide Blocks;
    NoSums();
  }

  lemma NoSums()
    ensures Grants([]) == 0 && Releases([]) == 0 && Wakes([]) == []
  {
  }

  lemma CallGrants(p: Policy, s: State, i: nat)
    requires i < |s.semaphores|
    ensures var now, sem := CallActions(p, s, i), s.semaphores[i];
            && Grants(now) == (if Executes(p, s, i, ACQUIRE) && sem.value != 0 then 1 else 0)
            && Releases(now) == (if Executes(p, s, i, RELEASE) then 1 else 0)
            && |Wakes(now)| == (if Executes(p, s, i, RELEASE) && sem.blocked != [] then 1 else 0)
  {
    hide *;
    CallCases(p, s, i);
    NoSums();
    if Executor(p, s).Some? {
      ActionSums(s.semaphores[i], Executor(p, s).value, CodeOf(p, s));
    }
  }

  lemma CallCases(p: Policy, s: State, i: nat)
    requires i < |s.semaphores|
    ensures var e := Executor(p, s);
            if e.Some? && Get(s, e.value).semId == i
            then
              && CallActions(p, s, i) == ActionsOf(s.semaphores[i], e.value, CodeOf(p, s))
              && forall code :: Executes(p, s, i, code) <==> CodeOf(p, s) == code
            else CallActions(p, s, i) == [] && forall code :: !Executes(p, s, i, code)
  {
    hide Executor;
    hide CodeOf;
    hide ActionsOf;
  }

  // Call by call, from a state in which no more than the initial value are inside: the call
  // that lets one too many in is an acquire that finds the value not 0 and equal to the
  // wake-ups so far, and no other; and the wake-ups grow exactly when a release finds a process
  // blocked. A semaphore whose releases find nobody blocked never lets too many in.
  lemma BoundBreaks(s: State, es: seq<Event>, p: Policy, i: nat)
    requires Sound(s) && i < |s.semaphores| && ProperUse(multiset{}, ActionLog(s, es + [Tick(p)], i))
    requires |Inside(multiset{}, ActionLog(s, es, i))| <= s.semaphores[i].value
    ensures |Run(s, es).semaphores| >= |s.semaphores|
    ensures var t, log, next := Run(s, es), ActionLog(s, es, i), ActionLog(s, es + [Tick(p)], i);
            var sem := t.semaphores[i];
            && (|Inside(multiset{}, next)| > s.semaphores[i].value
                <==> Executes(p, t, i, ACQUIRE) && sem.value != 0 && sem.value == |Wakes(log)|)
            && (|Wakes(next)| > |Wakes(log)| <==> Executes(p, t, i, RELEASE) && sem.blocked != [])
  {
    RunLaw(s, es, i);
    LogAppend(s, es, p, i);
    var t := Run(s, es);
    ProperPrefix(multiset{}, ActionLog(s, es, i), CallActions(p, t, i));
    InsideCount(s, es, i);
    InsideCount(s, es + [Tick(p)], i);
    CallGrants(p, t, i);
    Sums(ActionLog(s, es, i), CallActions(p, t, i));
    RunLaw(s, es + [Tick(p)], i);
    hide Run;
    hide ActionLog;
    hide CallActions;
    hide Inside;
    hide ProperUse;
    hide Executes;
    hide Sound;
  }
}
