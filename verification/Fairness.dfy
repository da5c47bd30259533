// Bounded waiting under round robin and under the multi-level feedback queue.
module Fairness {
  import opened Options
  import opened Machine
  import opened MachineLaws
  import opened Processes
  import opened System
  import opened Census
  import opened Levels

  // A time-slicing policy with positive parameters.
  predicate Slicing(p: Policy) {
    match p
    case Fcfs => false
    case Rr(q) => q >= 1
    case Mlfq(q, f) => q >= 1 && f >= 1
  }

  // The quantum clock is zero exactly when the CPU is empty.
  ghost predicate Clocked(s: State) {
    s.quantumClock >= 0 && (s.quantumClock == 0 <==> s.running.None?)
  }

  ghost predicate Steady(s: State) {
    Sound(s) && Sorted(s) && Clocked(s)
  }

  // The quantum of the running process.
  function Slice(p: Policy, s: State): int
    requires Slicing(p)
  {
    if p.Mlfq? && s.running.Some? then QuantumAt(p, Prio(s, s.running.value)) else p.quantum
  }

  lemma SlicePositive(p: Policy, s: State)
    requires Slicing(p)
    ensures 1 <= Slice(p, s) && (p.Rr? ==> Slice(p, s) == p.quantum)
    ensures p.Mlfq? ==> Slice(p, s) <= p.quantum * p.scaler || Slice(p, s) <= p.quantum * 1000
  {
    if p.Mlfq? {
      Product(p.quantum, p.scaler);
    }
  }

  lemma Product(a: int, b: int)
    requires a >= 1 && b >= 1
    ensures a * b >= 1
  {
  }

  // ---------- arithmetic of the quantum clock ----------

  lemma DivMod(c: int, q: int)
    requires q >= 1
    ensures c == (c / q) * q + c % q && 0 <= c % q < q
  {
  }
  lemma MulBound(d: int, q: int)
    requires d >= 1 && q >= 1
    ensures d * q >= q
  {
  }
  lemma Distrib(a: int, b: int, q: int)
    ensures (a - b) * q == a * q - b * q
  {
  }
  lemma ModUnique(c: int, k: int, r: int, q: int)
    requires q >= 1 && 0 <= r < q && c == k * q + r
    ensures c % q == r
  {
    DivMod(c, q);
    var k', r' := c / q, c % q;
    Distrib(k, k', q);
    Distrib(k', k, q);
    if k > k' {
      MulBound(k - k', q);
    } else if k < k' {
      MulBound(k' - k, q);
    }
  }
  // Ticks from clock value c to the next multiple of q.
  function Remaining(c: int, q: int): int
    requires q >= 1
  {
    (q - c % q) % q
  }

  lemma RemainingRange(c: int, q: int)
    requires q >= 1
    ensures 0 <= Remaining(c, q) <= q - 1
  {
    DivMod(q - c % q, q);
  }

  lemma RemainingFalls(c: int, q: int)
    requires q >= 1 && c >= 0 && c % q != 0
    ensures Remaining(c + 1, q) == Remaining(c, q) - 1
  {
    DivMod(c, q);
    var k, r := c / q, c % q;
    ModUnique(q - r, 0, q - r, q);
    if r + 1 == q {
      Distrib(k, -1, q);
      ModUnique(c + 1, k + 1, 0, q);
      ModUnique(q, 1, 0, q);
    } else {
      ModUnique(c + 1, k, r + 1, q);
      ModUnique(q - r - 1, 0, q - r - 1, q);
    }
  }

  // Calls until the running process must give way.
  function CallsLeft(p: Policy, s: State): int
    requires Slicing(p)
  {
    SlicePositive(p, s);
    if s.running.None? then 0 else Remaining(s.quantumClock, Slice(p, s))
  }

  // The ranking function: calls until the process at index k of ready queue 0 executes.
  function Rank(p: Policy, s: State, k: nat): int
    requires Slicing(p)
  {
    CallsLeft(p, s) + k * p.quantum + 1
  }

  // ---------- one call ----------

  // What dispatching does when someone waits in ready queue 0: nothing, or the head of that
  // queue gets the CPU with a whole quantum before it.
  ghost predicate HeadTaken(p: Policy, s: State, t: State)
    requires Slicing(p)
  {
    && s.ready[0] != [] && t.running == Some(s.ready[0][0]) && s.ready[0][1..] <= t.ready[0]
    && t.quantumClock >= 0 && t.quantumClock % p.quantum == 0 && Slice(p, t) == p.quantum
  }

  ghost predicate MustSwitch(p: Policy, s: State)
    requires Slicing(p)
  {
    s.running.None? || Expired(s.quantumClock, Slice(p, s))
  }

  lemma IdleTakesHead(p: Policy, s: State)
    requires Slicing(p) && Clocked(s) && Sorted(s) && s.ready[0] != [] && s.running.None?
    ensures HeadTaken(p, s, Preempt(p, DispatchIdle(p, s)))
  {
    SwitchInSorted(s);
    var d := DispatchIdle(p, s);
    assert d.quantumClock == 0 && d.running == Some(s.ready[0][0]) && d.ready[0] == s.ready[0][1..];
    assert Prio(d, d.running.value) == 0;
    assert !Preempts(p, d);
    assert 0 % p.quantum == 0;
  }

  lemma RotateTakesHead(s: State, h: nat)
    requires Sorted(s) && s.ready[0] != [] && 0 <= Prio(s, h) <= 2
    ensures var t := TagRunning(SwitchIn(Enqueue(s, h, Ready)));
            && t.running == Some(s.ready[0][0]) && s.ready[0][1..] <= t.ready[0]
            && t.quantumClock == s.quantumClock && Prio(t, s.ready[0][0]) == 0
  {
    var q := Enqueue(s, h, Ready);
    EnqueueGrows(s, h, Ready);
    assert q.ready[0][0] == s.ready[0][0] && Top(q.ready) == 0;
    assert s.ready[0][1..] <= q.ready[0][1..];
    SwitchInSorted(q);
  }

  lemma ChargeClock(p: Policy, s: State, h: nat)
    requires Slicing(p) && Sorted(s) && InReady(s.ready, h) == 0
    ensures var c := Charge(p, s, h);
            Sorted(c) && c.ready == s.ready && c.quantumClock == if p.Mlfq? then 0 else s.quantumClock
  {
    PutSorted(s, h, Get(s, h).(cpu := s.cpu));
    PutSorted(Save(s, h), h, UseQuantum(Get(Save(s, h), h)));
  }

  lemma PreemptTakesHead(p: Policy, s: State)
    requires Slicing(p) && Clocked(s) && Sorted(s) && Ranged(s) && s.ready[0] != [] && s.running.Some?
    requires Expired(s.quantumClock, Slice(p, s)) && InReady(s.ready, s.running.value) == 0
    ensures HeadTaken(p, s, Preempt(p, s))
  {
    var h := s.running.value;
    ChargeKeeps(p, s, h, h);
    ChargeClock(p, s, h);
    RotateTakesHead(Charge(p, s, h), h);
    assert Preempts(p, s);
    hide Charge;
    assert 0 % p.quantum == 0;
  }

  lemma NoSwitch(p: Policy, s: State)
    requires Slicing(p) && !MustSwitch(p, s)
    ensures Preempt(p, DispatchIdle(p, s)) == s
  {
  }

  // After a call the process that executed still runs, one tick later, or the CPU is empty.
  lemma ActRuns(p: Policy, s: State)
    requires Slicing(p) && s.running.Some? && s.quantumClock >= 0 && s.running.value < |s.pcbs|
    ensures var t := Act(p, s);
            || (t.running.None? && t.quantumClock == 0)
            || (t.running == s.running && t.quantumClock == s.quantumClock + 1
                && Prio(t, s.running.value) == Prio(s, s.running.value))
  {
    CycleCodes(s.cpu, s.mem, Get(s, s.running.value).load);
  }

  lemma ActClocked(p: Policy, s: State)
    requires Slicing(p) && s.quantumClock >= 0 && (s.running.Some? ==> s.running.value < |s.pcbs|)
    requires s.running.None? ==> s.quantumClock == 0
    ensures Clocked(Act(p, s))
  {
    if s.running.Some? {
      ActRuns(p, s);
    }
  }

  lemma PreparedFacts(p: Policy, s: State)
    requires Steady(s)
    ensures var a := Admit(s);
            && Ranged(a) && Sorted(a) && Clocked(a) && s.ready[0] <= a.ready[0]
            && (a.running.Some? ==> InReady(a.ready, a.running.value) == 0)
            && a.running == s.running && a.quantumClock == s.quantumClock
            && (a.running.Some? ==> Prio(a, a.running.value) == Prio(s, s.running.value))
    ensures var t := Prepare(p, s);
            && (t.running.Some? ==> t.running.value < |t.pcbs|)
            && (t.running.None? ==> t.quantumClock == s.quantumClock)
            && t.quantumClock >= 0
            && (t.running.None? ==> s.running.None?)
  {
    AdmitGrows(s);
    AdmitPlaces(s, 0);
    PreparePlaces(p, s, 0);
    var a, t := Admit(s), Prepare(p, s);
    if a.running.Some? {
      var h := a.running.value;
      AdmitPlaces(s, h);
      assert Places(s, h) <= 1;
    }
    if t.running.Some? {
      var h := t.running.value;
      PreparePlaces(p, s, h);
      assert Places(s, h) == if h < |s.pcbs| then 1 else 0;
    }
    DispatchPlaces(p, a, 0);
    RunningStays(p, a);
    RunningStays2(p, DispatchIdle(p, a));
  }

  lemma RunningStays(p: Policy, s: State)
    requires s.quantumClock >= 0
    ensures DispatchIdle(p, s).quantumClock >= 0
    ensures DispatchIdle(p, s).running.None? ==> s.running.None? && DispatchIdle(p, s).quantumClock == s.quantumClock
  {
  }

  lemma RunningStays2(p: Policy, s: State)
    requires s.quantumClock >= 0 && Ranged(s)
    ensures Preempt(p, s).quantumClock >= 0
    ensures Preempt(p, s).running.None? ==> s.running.None? && Preempt(p, s) == s
  {
    if Preempts(p, s) {
      var h := s.running.value;
      var c := Charge(p, s, h);
      assert c.quantumClock >= 0;
      ChargeKeeps(p, s, h, 0);
      hide Charge;
      EnqueueReadyFills(c, h);
      var e := Enqueue(c, h, Ready);
      assert e.quantumClock >= 0;
      hide Enqueue;
      SwitchInRuns(e);
      hide SwitchIn;
      hide TagRunning;
    }
  }

  lemma SwitchInRuns(s: State)
    requires !NoneReady(s)
    ensures TagRunning(SwitchIn(s)).running.Some? && TagRunning(SwitchIn(s)).quantumClock == s.quantumClock
  {
  }

  // One call either executes the process waiting at index k of ready queue 0, or leaves it
  // there, or nearer the front, with a smaller rank.
  lemma StepRank(p: Policy, s: State, h: nat, k: nat) returns (k': nat)
    requires Slicing(p) && Steady(s) && k < |s.ready[0]| && s.ready[0][k] == h
    ensures Executor(p, s) == Some(h) ||
            (k' < |Step(p, s).ready[0]| && Step(p, s).ready[0][k'] == h && Rank(p, Step(p, s), k') < Rank(p, s, k))
  {
    k' := k;
    if MustSwitch(p, Admit(s)) {
      SwitchRank(p, s, h, k);
      k' := if k > 0 then k - 1 else k;
    } else {
      PreparedFacts(p, s);
      ActGrows(p, Prepare(p, s));
      NoSwitch(p, Admit(s));
      SamePlaceRank(p, s, Admit(s), k);
    }
  }

  // A call that switches takes the head of the queue.
  lemma SwitchRank(p: Policy, s: State, h: nat, k: nat)
    requires Slicing(p) && Steady(s) && k < |s.ready[0]| && s.ready[0][k] == h && MustSwitch(p, Admit(s))
    ensures k == 0 ==> Executor(p, s) == Some(h)
    ensures k > 0 ==>
              k - 1 < |Step(p, s).ready[0]| && Step(p, s).ready[0][k - 1] == h && Rank(p, Step(p, s), k - 1) < Rank(p, s, k)
  {
    PreparedFacts(p, s);
    var a, t := Admit(s), Prepare(p, s);
    ActGrows(p, t);
    if a.running.None? {
      IdleTakesHead(p, a);
    } else {
      PreemptTakesHead(p, a);
      assert DispatchIdle(p, a) == a;
    }
    hide Admit;
    hide Act;
    if k > 0 {
      SwitchedRank(p, s, t, k);
      assert a.ready[0][1..][k - 1] == h;
    }
  }

  lemma LeftRange(p: Policy, s: State)
    requires Slicing(p)
    ensures 0 <= CallsLeft(p, s) <= (if s.running.None? then 0 else Slice(p, s) - 1)
  {
    SlicePositive(p, s);
    RemainingRange(s.quantumClock, Slice(p, s));
  }

  lemma SwitchedRank(p: Policy, s: State, t: State, k: nat)
    requires Slicing(p) && k > 0 && t.running.Some? && t.running.value < |t.pcbs|
    requires t.quantumClock >= 0 && t.quantumClock % p.quantum == 0 && Slice(p, t) == p.quantum
    ensures Rank(p, Act(p, t), k - 1) < Rank(p, s, k)
  {
    var u := Act(p, t);
    ActRuns(p, t);
    LeftRange(p, s);
    LeftRange(p, u);
    hide Act;
    hide CallsLeft;
    Distrib(k, 1, p.quantum);
  }

  lemma LeftFalls(p: Policy, a: State, u: State)
    requires Slicing(p) && Clocked(a) && a.running.Some? && a.quantumClock % Slice(p, a) != 0
    requires u.running.None? ||
             (u.running == a.running && u.quantumClock == a.quantumClock + 1
              && Prio(u, a.running.value) == Prio(a, a.running.value))
    ensures CallsLeft(p, u) < CallsLeft(p, a)
  {
    SlicePositive(p, a);
    RemainingFalls(a.quantumClock, Slice(p, a));
    RemainingRange(a.quantumClock + 1, Slice(p, a));
    hide Remaining;
  }

  lemma SamePlaceRank(p: Policy, s: State, a: State, k: nat)
    requires Slicing(p) && Clocked(a) && a.running.Some? && a.running.value < |a.pcbs| && !Expired(a.quantumClock, Slice(p, a))
    requires a.running == s.running && a.quantumClock == s.quantumClock && Prio(a, a.running.value) == Prio(s, a.running.value)
    ensures Rank(p, Act(p, a), k) < Rank(p, s, k)
  {
    SlicePositive(p, a);
    ActRuns(p, a);
    var u := Act(p, a);
    hide Act;
    LeftFalls(p, a, u);
    assert CallsLeft(p, a) == CallsLeft(p, s);
    hide CallsLeft;
  }

  // ---------- runs ----------

  ghost predicate AllTicks(es: seq<Event>, p: Policy) {
    forall i :: 0 <= i < |es| && es[i].Tick? ==> es[i].policy == p
  }

  function CallCount(es: seq<Event>): nat {
    if es == [] then 0 else (if es[0].Tick? then 1 else 0) + CallCount(es[1..])
  }

  // Some call of the run executes `h`.
  predicate Served(s: State, es: seq<Event>, h: nat)
    decreases |es|
  {
    es != [] && ((es[0].Tick? && Executor(es[0].policy, s) == Some(h)) || Served(Apply(s, es[0]), es[1..], h))
  }

  lemma ApplySteady(s: State, e: Event)
    requires Steady(s) && (e.Tick? ==> Slicing(e.policy))
    ensures Steady(Apply(s, e))
  {
    ApplySound(s, e);
    ApplySorted(s, e);
    if e.Tick? {
      PreparedFacts(e.policy, s);
      ActClocked(e.policy, Prepare(e.policy, s));
    } else {
      QuietReady(s, e);
    }
  }

  lemma {:induction false} RankServed(p: Policy, s: State, es: seq<Event>, h: nat, k: nat)
    requires Slicing(p) && Steady(s) && AllTicks(es, p)
    requires k < |s.ready[0]| && s.ready[0][k] == h && CallCount(es) >= Rank(p, s, k)
    ensures Served(s, es, h)
    decreases |es|
  {
    SlicePositive(p, s);
    RankPositive(p, s, k);
    var e, t := es[0], Apply(s, es[0]);
    ApplySteady(s, e);
    if e.Tick? {
      var k' := StepRank(p, s, h, k);
      if Executor(p, s) != Some(h) {
        RankServed(p, t, es[1..], h, k');
      }
    } else {
      QuietReady(s, e);
      assert Rank(p, t, k) == Rank(p, s, k);
      RankServed(p, t, es[1..], h, k);
    }
  }

  lemma RankPositive(p: Policy, s: State, k: nat)
    requires Slicing(p)
    ensures 1 <= Rank(p, s, k) <= (if s.running.None? then 0 else Slice(p, s) - 1) + k * p.quantum + 1
  {
    LeftRange(p, s);
    hide CallsLeft;
    hide Slice;
    if k >= 1 {
      MulBound(k, p.quantum);
    }
  }

  // Round robin: a process at index k of ready queue 0 executes within (k+1)*quantum calls,
  // whatever interrupts, forks, wake-ups and arrivals happen meanwhile.
  lemma RoundRobinWaiting(q: int, s: State, es: seq<Event>, h: nat, k: nat)
    requires q >= 1 && Steady(s) && AllTicks(es, Rr(q))
    requires k < |s.ready[0]| && s.ready[0][k] == h && CallCount(es) >= (k + 1) * q
    ensures Served(s, es, h)
  {
    RankPositive(Rr(q), s, k);
    assert (k + 1) * q == k * q + q;
    RankServed(Rr(q), s, es, h, k);
  }

  // MLFQ: a process at index k of the top queue executes within
  // max(quantum*scaler, quantum*1000) + k*quantum calls.
  lemma FeedbackWaiting(q: int, f: int, s: State, es: seq<Event>, h: nat, k: nat)
    requires q >= 1 && f >= 1 && Steady(s) && AllTicks(es, Mlfq(q, f))
    requires k < |s.ready[0]| && s.ready[0][k] == h
    requires CallCount(es) >= (if f >= 1000 then q * f else q * 1000) + k * q
    ensures Served(s, es, h)
  {
    var p := Mlfq(q, f);
    SlicePositive(p, s);
    RankPositive(p, s, k);
    if f >= 1000 {
      ProductMono(q, 1000, f);
    } else {
      ProductMono(q, f, 1000);
    }
    RankServed(p, s, es, h, k);
  }

  lemma ProductMono(q: int, a: int, b: int)
    requires q >= 1 && a <= b
    ensures q * a <= q * b
  {
  }

  lemma BootSteady()
    ensures Steady(Boot())
  {
    BootSound();
  }
}
