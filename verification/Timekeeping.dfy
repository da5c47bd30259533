// Time accounting: waiting, response and turnaround times, and where the clock goes.
module Timekeeping {
  import opened Options
  import opened Machine
  import opened MachineLaws
  import opened Processes
  import opened System
  import opened Census

  // The fields of a process that record time.
  datatype Ledger = Ledger(arrival: int, termination: int, slices: seq<int>, wait: int, response: int, turnAround: int)

  function LedgerOf(p: Process): Ledger {
    Ledger(p.arrival, p.termination, p.slices, p.wait, p.response, p.turnAround)
  }

  // Slices strictly increase from the arrival to the clock, and every unit of time between
  // arrival and the last slice is either a slice or counted as waiting.
  ghost predicate Accounted(p: Process, clock: int) {
    && (forall i, j :: 0 <= i < j < |p.slices| ==> p.slices[i] < p.slices[j])
    && (forall i :: 0 <= i < |p.slices| ==> p.arrival < p.slices[i] <= clock)
    && 0 <= p.arrival <= clock
    && p.wait >= 0
    && p.wait + |p.slices| == LastSlice(p) - p.arrival
  }

  // A process that is done: its times are those of its slices.
  ghost predicate Closed(p: Process) {
    && p.slices != []
    && p.termination == LastSlice(p)
    && p.turnAround == p.termination - p.arrival
    && p.response == p.slices[0] - p.arrival
  }

  predicate Done(s: State, h: nat) {
    h in s.terminated || h in s.logged
  }

  ghost predicate Booked(s: State) {
    && s.clock >= 0
    && (forall h: nat :: h < |s.pcbs| ==> Accounted(s.pcbs[h], s.clock))
    && (forall h: nat :: h < |s.pcbs| && Done(s, h) ==> Closed(s.pcbs[h]))
  }

  // At termination: turnaround = waiting + executed instructions, and 1 <= response <= turnaround.
  lemma ClosedTimes(p: Process, clock: int)
    requires Accounted(p, clock) && Closed(p)
    ensures p.turnAround == p.wait + |p.slices| && 1 <= p.response <= p.turnAround
  {
    var n := |p.slices| - 1;
    assert n > 0 ==> p.slices[0] < p.slices[n];
  }

  lemma CaptureAccounted(p: Process, clock: int, now: int)
    requires Accounted(p, clock) && clock < now
    ensures Accounted(Capture(p, now), now)
    ensures LastSlice(Capture(p, now)) == now
  {
  }

  // ---------- what a step does to the ledgers ----------

  function LedgerAt(s: State, x: nat): Ledger {
    LedgerOf(Get(s, x))
  }

  // From `s` to `t` the clock, the finished queues, the number of processes and the ledger
  // of `x` stay the same.
  ghost predicate KeepsLedger(s: State, t: State, x: nat) {
    && LedgerAt(t, x) == LedgerAt(s, x) && |t.pcbs| == |s.pcbs| && t.clock == s.clock
    && t.terminated == s.terminated && t.logged == s.logged
  }

  lemma EnqueueLedger(s: State, h: nat, t: Tag, x: nat)
    requires t != Terminated
    ensures KeepsLedger(s, Enqueue(s, h, t), x)
  {
  }

  lemma {:induction false} AdmitLedger(s: State, x: nat)
    ensures KeepsLedger(s, Admit(s), x)
    decreases |s.arrived|
  {
    if s.arrived != [] {
      EnqueueLedger(s.(arrived := s.arrived[1..]), s.arrived[0], Ready, x);
      AdmitLedger(Enqueue(s.(arrived := s.arrived[1..]), s.arrived[0], Ready), x);
    }
  }

  lemma SwitchInLedger(s: State, x: nat)
    ensures KeepsLedger(s, SwitchIn(s), x) && KeepsLedger(s, TagRunning(SwitchIn(s)), x)
  {
  }

  lemma PrepareLedger(p: Policy, s: State, x: nat)
    ensures KeepsLedger(s, Prepare(p, s), x)
  {
    AdmitLedger(s, x);
    SwitchInLedger(Admit(s), x);
    var d := DispatchIdle(p, Admit(s));
    if Preempts(p, d) {
      var h := d.running.value;
      EnqueueLedger(Charge(p, d, h), h, Ready, x);
      SwitchInLedger(Enqueue(Charge(p, d, h), h, Ready), x);
    }
  }

  // Whether a cycle returning `code` ends process `h`: a halt, a fault, or a request for
  // shared memory it does not have.
  predicate Ends(s: State, h: nat, code: int) {
    code == HALTED || (code == SHARED_ADDRESS && Get(s, h).shm.None?)
  }

  // From `s` to `t` only the ledger of `h` may change: it is closed when `done`.
  ghost predicate ClosesLedger(s: State, t: State, h: nat, done: bool, x: nat) {
    && t.clock == s.clock && |s.pcbs| <= |t.pcbs|
    && (x < |s.pcbs| ==>
          LedgerAt(t, x) == if done && x == h then LedgerOf(Finish(s.pcbs[h], s.clock)) else LedgerAt(s, x))
    && (|s.pcbs| <= x < |t.pcbs| ==> LedgerAt(t, x) == LedgerOf(NoProcess.(arrival := s.clock)))
    && t.logged == s.logged
    && t.terminated == if done then s.terminated + [h] else s.terminated
  }

  lemma FinishLedger(s: State, h: nat, x: nat)
    requires h < |s.pcbs|
    ensures ClosesLedger(s, Deallocate(Enqueue(s, h, Terminated), h), h, true, x)
  {
    var t := Enqueue(s, h, Terminated);
    UnlinkKeeps(t, h);
    assert Unlink(t, h).clock == t.clock;
  }

  lemma BlockLedger(s: State, h: nat, x: nat)
    requires HasSemaphore(s, h)
    ensures KeepsLedger(s, Block(s, h), x)
  {
  }

  lemma ReleaseLedger(s: State, h: nat, x: nat)
    ensures KeepsLedger(s, Release(s, h), x)
  {
  }

  lemma ForkLedger(s: State, h: nat, x: nat)
    ensures ClosesLedger(s, Fork(s, h), h, false, x)
  {
    var c := |s.pcbs|;
    var child := Child(Get(s, h), s.clock);
    var t := Put(s, h, Get(s, h).(child := Some(c)));
    EnqueueLedger(t.(pcbs := t.pcbs + [child], names := t.names[child.name := c]), c, Ready, x);
  }

  lemma ServiceLedger(s: State, h: nat, code: int, x: nat)
    requires s.waiting == [h] && h < |s.pcbs| && code != HALTED
    ensures ClosesLedger(s, Service(s, h, code), h, Ends(s, h, code), x)
  {
    if code == FORK {
      ForkLedger(s, h, x);
    } else if code == SHARED_ADDRESS {
      FinishLedger(PopWaiting(s), h, x);
    } else if HasSemaphore(s, h) {
      BlockLedger(s, h, x);
      ReleaseLedger(s, h, x);
    }
  }

  lemma ParkLedger(s: State, h: nat, x: nat)
    ensures KeepsLedger(s, Park(s, h), x) && Get(Park(s, h), x).shm == Get(s, x).shm
    ensures Park(s, h).waiting == s.waiting + [h]
  {
  }

  lemma ResumeLedger(p: Policy, s: State, h: nat, x: nat)
    ensures KeepsLedger(s, Vacate(p, Resume(Reward(p, s, h), h)), x)
  {
    var c := Reward(p, s, h);
    assert KeepsLedger(s, c, x);
    EnqueueLedger(PopWaiting(c), h, Ready, x);
  }

  lemma InterruptedLedger(p: Policy, s: State, h: nat, code: int, x: nat)
    requires s.waiting == [] && h < |s.pcbs| && code != HALTED
    ensures ClosesLedger(s, Interrupted(p, s, h, code), h, Ends(s, h, code), x)
  {
    hide Park;
    hide Service;
    hide Reward;
    hide Resume;
    var a := Park(s, h);
    ParkLedger(s, h, x);
    ParkLedger(s, h, h);
    ServiceLedger(a, h, code, x);
    ResumeLedger(p, Service(a, h, code), h, x);
  }

  lemma SettleLedger(p: Policy, s: State, h: nat, code: int, x: nat)
    requires s.waiting == [] && h < |s.pcbs|
    requires code >= 20 || code == HALTED || code == 0
    ensures ClosesLedger(s, Settle(p, s, h, code), h, Ends(s, h, code), x)
  {
    if code >= 20 {
      InterruptedLedger(p, s, h, code, x);
    } else if code == HALTED {
      FinishLedger(Save(s, h), h, x);
    }
  }

  // The time a call takes: two ticks for a recognised interrupt, one for anything else.
  function TicksOf(p: Policy, s: State): int {
    var t := Prepare(p, s);
    if t.running.Some? then CycleOf(t, t.running.value).ticks else 1
  }

  // Whether the call ends its executor.
  predicate StepEnds(p: Policy, s: State) {
    var t := Prepare(p, s);
    t.running.Some? && Ends(t, t.running.value, CodeOf(p, s))
  }

  lemma ExecutorExists(p: Policy, s: State)
    requires Sound(s) && Executor(p, s).Some?
    ensures var h := Executor(p, s).value;
            h < |s.pcbs| && |Prepare(p, s).pcbs| == |s.pcbs| && !Done(s, h) && Prepare(p, s).waiting == []
  {
    var h := Executor(p, s).value;
    PreparePlaces(p, s, h);
    assert Places(s, h) == if h < |s.pcbs| then 1 else 0;
    PrepareLedger(p, s, h);
  }

  lemma ExecuteLedger(p: Policy, s: State, h: nat, x: nat)
    requires h < |s.pcbs|
    ensures var t := Execute(p, s, h);
            && t.clock == s.clock + CycleOf(s, h).ticks && t.waiting == s.waiting
            && |t.pcbs| == |s.pcbs| && t.terminated == s.terminated && t.logged == s.logged
            && Get(t, x).shm == Get(s, x).shm
            && LedgerAt(t, x) == (if x == h then LedgerOf(Capture(s.pcbs[h], t.clock)) else LedgerAt(s, x))
  {
  }

  lemma ActLedger(p: Policy, s: State, x: nat)
    requires s.waiting == [] && s.running.Some? && s.running.value < |s.pcbs|
    ensures var t, h := Act(p, s), s.running.value;
            var o := CycleOf(s, h);
            && t.clock == s.clock + o.ticks && |s.pcbs| <= |t.pcbs| && t.logged == s.logged
            && t.terminated == (if Ends(s, h, o.code) then s.terminated + [h] else s.terminated)
            && (x < |s.pcbs| ==>
                  LedgerAt(t, x) == if x != h then LedgerAt(s, x)
                                    else var q := Capture(s.pcbs[x], t.clock);
                                         LedgerOf(if Ends(s, h, o.code) then Finish(q, t.clock) else q))
            && (|s.pcbs| <= x < |t.pcbs| ==> LedgerAt(t, x) == LedgerOf(NoProcess.(arrival := t.clock)))
  {
    var h := s.running.value;
    CycleCodes(s.cpu, s.mem, Get(s, h).load);
    ExecuteLedger(p, s, h, x);
    ExecuteLedger(p, s, h, h);
    SettleLedger(p, Execute(p, s, h), h, CycleOf(s, h).code, x);
  }

  lemma IdleLedger(p: Policy, s: State, x: nat)
    ensures s.running.None? ==>
              && LedgerAt(Act(p, s), x) == LedgerAt(s, x) && Act(p, s).clock == s.clock + 1
              && |Act(p, s).pcbs| == |s.pcbs| && Act(p, s).logged == s.logged && Act(p, s).terminated == s.terminated
  {
  }

  // One call: the executor gets one slice, at the new clock, and is closed if it ends; a
  // child starts at the new clock; every other ledger stays.
  lemma StepLedger(p: Policy, s: State, x: nat)
    requires Sound(s)
    ensures var t, e := Step(p, s), Executor(p, s);
            && t.clock == s.clock + TicksOf(p, s) && |s.pcbs| <= |t.pcbs|
            && t.logged == s.logged
            && t.terminated == (if StepEnds(p, s) then s.terminated + [e.value] else s.terminated)
            && (x < |s.pcbs| ==>
                  LedgerAt(t, x) == if e != Some(x) then LedgerAt(s, x)
                                    else var q := Capture(s.pcbs[x], t.clock);
                                         LedgerOf(if StepEnds(p, s) then Finish(q, t.clock) else q))
            && (|s.pcbs| <= x < |t.pcbs| ==> LedgerAt(t, x) == LedgerOf(NoProcess.(arrival := t.clock)))
  {
    PrepareLedger(p, s, x);
    var t := Prepare(p, s);
    IdleLedger(p, t, x);
    hide Prepare;
    hide Act;
    if t.running.Some? {
      ExecutorExists(p, s);
      ActLedger(p, t, x);
    }
  }

  // ---------- the accounting identity over every run ----------

  // A ledger determines whether the process is accounted and closed.
  lemma LedgerDecides(p: Process, q: Process, clock: int, now: int)
    requires LedgerOf(p) == LedgerOf(q) && Accounted(q, clock) && clock <= now
    ensures Accounted(p, now) && (Closed(q) ==> Closed(p))
  {
  }

  lemma CaptureFinish(p: Process, clock: int, now: int)
    requires Accounted(p, clock) && clock < now
    ensures Accounted(Finish(Capture(p, now), now), now) && Closed(Finish(Capture(p, now), now))
  {
    CaptureAccounted(p, clock, now);
  }

  lemma TicksPositive(p: Policy, s: State)
    ensures TicksOf(p, s) == 1 || TicksOf(p, s) == 2
  {
    var t := Prepare(p, s);
    hide Prepare;
    if t.running.Some? {
      CycleCodes(t.cpu, t.mem, Get(t, t.running.value).load);
    }
  }

  lemma StepEndsExecutor(p: Policy, s: State)
    ensures StepEnds(p, s) ==> Executor(p, s).Some?
  {
  }

  lemma UnknownNotDone(s: State, x: nat)
    requires Sound(s) && x >= |s.pcbs|
    ensures !Done(s, x)
  {
    assert Places(s, x) == 0;
  }

  lemma StepBooked(p: Policy, s: State, x: nat)
    requires Sound(s) && Booked(s) && x < |Step(p, s).pcbs|
    ensures var t := Step(p, s);
            Accounted(t.pcbs[x], t.clock) && (Done(t, x) ==> Closed(t.pcbs[x]))
  {
    StepLedger(p, s, x);
    TicksPositive(p, s);
    StepEndsExecutor(p, s);
    var t, e := Step(p, s), Executor(p, s);
    if e.Some? {
      ExecutorExists(p, s);
    }
    hide Step;
    hide Executor;
    hide StepEnds;
    hide TicksOf;
    if x >= |s.pcbs| {
      UnknownNotDone(s, x);
    } else if e == Some(x) {
      CaptureAccounted(s.pcbs[x], s.clock, t.clock);
      CaptureFinish(s.pcbs[x], s.clock, t.clock);
      var q := Capture(s.pcbs[x], t.clock);
      LedgerDecides(t.pcbs[x], if StepEnds(p, s) then Finish(q, t.clock) else q, t.clock, t.clock);
    } else {
      LedgerDecides(t.pcbs[x], s.pcbs[x], s.clock, t.clock);
    }
  }

  lemma LoadBooked(s: State, name: string, i: Image, x: nat)
    requires Sound(s) && Booked(s) && x < |LoadProgram(s, name, i).pcbs|
    ensures var t := LoadProgram(s, name, i);
            Accounted(t.pcbs[x], t.clock) && (Done(t, x) ==> Closed(t.pcbs[x]))
  {
    if x >= |s.pcbs| {
      UnknownNotDone(s, x);
    } else {
      LedgerDecides(LoadProgram(s, name, i).pcbs[x], s.pcbs[x], s.clock, s.clock);
    }
  }

  lemma OtherLedgers(s: State, e: Event, x: nat)
    requires e.NewSemaphore? || e.OpenSegment? || e.Log?
    ensures var t := Apply(s, e);
            LedgerAt(t, x) == LedgerAt(s, x) && t.clock == s.clock && |t.pcbs| == |s.pcbs|
            && (Done(t, x) <==> Done(s, x))
  {
    match e
    case OpenSegment(size, one, two) => OpenLedgers(s, size, one, two, x);
    case _ =>
  }

  lemma OpenLedgers(s: State, size: int, one: string, two: string, x: nat)
    ensures var t := OpenShared(s, size, one, two);
            LedgerAt(t, x) == LedgerAt(s, x) && t.clock == s.clock && |t.pcbs| == |s.pcbs|
            && (Done(t, x) <==> Done(s, x))
  {
    match (Lookup(s, one), Lookup(s, two))
    case (Some(a), Some(b)) =>
      UnlinkKeeps(s, a);
      UnlinkKeeps(Unlink(s, a), b);
      UnlinkLedger(s, a, x);
      UnlinkLedger(Unlink(s, a), b, x);
      ShareLedger(Unlink(Unlink(s, a), b), a, b, size, x);
      hide Unlink;
      hide Share;
    case _ =>
  }

  lemma UnlinkLedger(s: State, h: nat, x: nat)
    ensures KeepsLedger(s, Unlink(s, h), x)
  {
  }

  lemma ShareLedger(s: State, a: nat, b: nat, size: int, x: nat)
    ensures KeepsLedger(s, Share(s, a, b, size), x)
  {
  }

  lemma ClockGrows(s: State, e: Event)
    requires Sound(s)
    ensures s.clock <= Apply(s, e).clock
  {
    if e.Tick? {
      StepLedger(e.policy, s, 0);
      TicksPositive(e.policy, s);
    } else if !e.Arrive? {
      OtherLedgers(s, e, 0);
    }
  }

  lemma ApplyBooked(s: State, e: Event)
    requires Sound(s) && Booked(s)
    ensures Booked(Apply(s, e))
  {
    var t := Apply(s, e);
    ClockGrows(s, e);
    forall x: nat | x < |t.pcbs|
      ensures Accounted(t.pcbs[x], t.clock) && (Done(t, x) ==> Closed(t.pcbs[x]))
    {
      match e
      case Tick(p) => StepBooked(p, s, x);
      case Arrive(name, image) => LoadBooked(s, name, image, x);
      case _ =>
        OtherLedgers(s, e, x);
        LedgerDecides(t.pcbs[x], s.pcbs[x], s.clock, t.clock);
    }
  }

  // Over every run every process stays accounted for, and every finished one is closed.
  lemma {:induction false} RunBooked(s: State, es: seq<Event>)
    requires Sound(s) && Booked(s)
    ensures Sound(Run(s, es)) && Booked(Run(s, es))
    decreases |es|
  {
    if es != [] {
      ApplySound(s, es[0]);
      ApplyBooked(s, es[0]);
      RunBooked(Apply(s, es[0]), es[1..]);
    }
  }

  // The accounting identity: at any point of any run from boot, every finished process has
  // turnaround = waiting time + instructions executed, and 1 <= response <= turnaround.
  lemma FinishedTimes(es: seq<Event>, h: nat)
    requires var t := Run(Boot(), es); h < |t.pcbs| && Done(t, h)
    ensures var p := Run(Boot(), es).pcbs[h];
            p.turnAround == p.wait + |p.slices| && 1 <= p.response <= p.turnAround
  {
    BootSound();
    RunBooked(Boot(), es);
    var t := Run(Boot(), es);
    ClosedTimes(t.pcbs[h], t.clock);
  }

  // The process that an event ends, if any.
  function EndedBy(s: State, e: Event): seq<nat> {
    if e.Tick? && StepEnds(e.policy, s) && Executor(e.policy, s).Some? then [Executor(e.policy, s).value] else []
  }

  // The processes that the calls of a run end, in order.
  function EndLog(s: State, es: seq<Event>): seq<nat>
    decreases |es|
  {
    if es == [] then [] else EndedBy(s, es[0]) + EndLog(Apply(s, es[0]), es[1..])
  }

  lemma ApplyEnds(s: State, e: Event)
    requires Sound(s)
    ensures var t := Apply(s, e);
            t.logged + t.terminated == s.logged + s.terminated + EndedBy(s, e)
  {
    match e
    case Tick(p) =>
      StepLedger(p, s, 0);
      StepEndsExecutor(p, s);
    case OpenSegment(size, one, two) => OpenQueues(s, size, one, two);
    case _ =>
  }

  lemma OpenQueues(s: State, size: int, one: string, two: string)
    ensures OpenShared(s, size, one, two).logged == s.logged && OpenShared(s, size, one, two).terminated == s.terminated
  {
    match (Lookup(s, one), Lookup(s, two))
    case (Some(a), Some(b)) =>
      UnlinkKeeps(s, a);
      UnlinkKeeps(Unlink(s, a), b);
      hide Unlink;
    case _ =>
  }

  // Processes are logged in the order in which they ended: over every run, what had been logged
  // or had terminated, then what the run ended, is what is logged and what has terminated now.
  lemma {:induction false} RunEnds(s: State, es: seq<Event>)
    requires Sound(s)
    ensures var t := Run(s, es);
            t.logged + t.terminated == s.logged + s.terminated + EndLog(s, es)
    decreases |es|
  {
    hide Apply;
    hide EndedBy;
    hide Sound;
    if es != [] {
      var t := Apply(s, es[0]);
      ApplySound(s, es[0]);
      ApplyEnds(s, es[0]);
      RunEnds(t, es[1..]);
      var a, b, c := s.logged + s.terminated, EndedBy(s, es[0]), EndLog(t, es[1..]);
      assert (a + b) + c == a + (b + c);
    }
  }

  // ---------- conservation of time ----------

  // Instructions executed by all processes together.
  function TotalSlices(ps: seq<Process>): nat {
    if ps == [] then 0 else |ps[|ps| - 1].slices| + TotalSlices(ps[..|ps| - 1])
  }

  lemma {:induction false} TotalGrows(ps: seq<Process>, qs: seq<Process>, h: nat)
    requires |ps| <= |qs|
    requires forall x: nat :: x < |qs| ==>
               |qs[x].slices| == (if x < |ps| then |ps[x].slices| else 0) + (if x == h then 1 else 0)
    ensures TotalSlices(qs) == TotalSlices(ps) + if h < |qs| then 1 else 0
    decreases |qs|
  {
    if qs != [] {
      var n := |qs| - 1;
      if |ps| == |qs| {
        TotalGrows(ps[..n], qs[..n], h);
      } else {
        TotalGrows(ps, qs[..n], h);
      }
    }
  }

  predicate IsIdle(p: Policy, s: State) {
    Executor(p, s).None?
  }

  // Whether the call executes a recognised software interrupt.
  predicate IsInterrupt(p: Policy, s: State) {
    var t := Prepare(p, s);
    t.running.Some? && var i := Decode(t.mem, t.cpu.pc); i.Interrupt? && Recognised(i.n)
  }

  lemma TicksCounted(p: Policy, s: State)
    ensures TicksOf(p, s) == 1 + if IsInterrupt(p, s) then 1 else 0
  {
    var t := Prepare(p, s);
    hide Prepare;
    if t.running.Some? {
      CycleCodes(t.cpu, t.mem, Get(t, t.running.value).load);
    }
  }

  function Count(b: bool): nat {
    if b then 1 else 0
  }

  function IdleTicks(s: State, es: seq<Event>): nat
    decreases |es|
  {
    if es == [] then 0
    else Count(es[0].Tick? && IsIdle(es[0].policy, s)) + IdleTicks(Apply(s, es[0]), es[1..])
  }

  function Interrupts(s: State, es: seq<Event>): nat
    decreases |es|
  {
    if es == [] then 0
    else Count(es[0].Tick? && IsInterrupt(es[0].policy, s)) + Interrupts(Apply(s, es[0]), es[1..])
  }

  lemma StepSlices(p: Policy, s: State)
    requires Sound(s)
    ensures TotalSlices(Step(p, s).pcbs) == TotalSlices(s.pcbs) + Count(!IsIdle(p, s))
  {
    var t, e := Step(p, s), Executor(p, s);
    StepLedger(p, s, 0);
    if e.Some? {
      ExecutorExists(p, s);
    }
    var h: nat := if e.Some? then e.value else |t.pcbs|;
    forall x: nat | x < |t.pcbs|
      ensures |t.pcbs[x].slices| == (if x < |s.pcbs| then |s.pcbs[x].slices| else 0) + (if x == h then 1 else 0)
    {
      StepLedger(p, s, x);
      hide Step;
      hide Executor;
      hide StepEnds;
      assert LedgerAt(t, x).slices == t.pcbs[x].slices;
    }
    TotalGrows(s.pcbs, t.pcbs, h);
  }

  lemma QuietSlices(s: State, e: Event)
    requires Sound(s) && !e.Tick?
    ensures TotalSlices(Apply(s, e).pcbs) == TotalSlices(s.pcbs) && Apply(s, e).clock == s.clock
  {
    var t := Apply(s, e);
    forall x: nat | x < |t.pcbs|
      ensures |t.pcbs[x].slices| == (if x < |s.pcbs| then |s.pcbs[x].slices| else 0)
    {
      if !e.Arrive? {
        OtherLedgers(s, e, x);
      }
      assert LedgerAt(t, x).slices == t.pcbs[x].slices;
    }
    ApplySound(s, e);
    TotalGrows(s.pcbs, t.pcbs, |t.pcbs|);
    if !e.Arrive? {
      OtherLedgers(s, e, 0);
    }
  }

  // Over every run the clock advances by the instructions executed by all processes, plus
  // one for every recognised interrupt, plus one for every idle call.
  lemma {:induction false} TimeConserved(s: State, es: seq<Event>)
    requires Sound(s)
    ensures Run(s, es).clock - s.clock
         == TotalSlices(Run(s, es).pcbs) - TotalSlices(s.pcbs) + Interrupts(s, es) + IdleTicks(s, es)
    decreases |es|
  {
    if es != [] {
      var e, t := es[0], Apply(s, es[0]);
      ApplySound(s, e);
      if e.Tick? {
        StepSlices(e.policy, s);
        StepLedger(e.policy, s, 0);
        TicksCounted(e.policy, s);
        IdleTakesOne(e.policy, s);
      } else {
        QuietSlices(s, e);
      }
      TimeConserved(t, es[1..]);
    }
  }

  lemma IdleTakesOne(p: Policy, s: State)
    ensures IsIdle(p, s) ==> !IsInterrupt(p, s)
  {
  }

  // No unit of time belongs to two processes.
  ghost predicate Exclusive(ps: seq<Process>) {
    forall x: nat, y: nat, i, j ::
      x < y < |ps| && 0 <= i < |ps[x].slices| && 0 <= j < |ps[y].slices| ==> ps[x].slices[i] != ps[y].slices[j]
  }

  // The slices of every process grow at most by the new clock value, and only for one process.
  ghost predicate Appends(ps: seq<Process>, qs: seq<Process>, h: nat, now: int) {
    && |ps| <= |qs|
    && forall x: nat :: x < |qs| ==>
         qs[x].slices == (if x < |ps| then ps[x].slices else []) + (if x == h then [now] else [])
  }

  lemma AppendsExclusive(ps: seq<Process>, qs: seq<Process>, h: nat, clock: int, now: int)
    requires Exclusive(ps) && Appends(ps, qs, h, now) && clock < now
    requires forall x: nat :: x < |ps| ==> Accounted(ps[x], clock)
    ensures Exclusive(qs)
  {
    forall x: nat, i | x < |qs| && 0 <= i < |qs[x].slices|
      ensures qs[x].slices[i] <= now
      ensures qs[x].slices[i] == now ==> x == h
      ensures qs[x].slices[i] < now ==> x < |ps| && i < |ps[x].slices| && ps[x].slices[i] == qs[x].slices[i]
    {
      if x < |ps| && i < |ps[x].slices| {
        assert Accounted(ps[x], clock);
      }
    }
  }

  // The process whose slices an event extends, if any, and the new clock value.
  lemma ApplyAppends(s: State, e: Event) returns (h: nat, now: int)
    requires Sound(s)
    ensures Appends(s.pcbs, Apply(s, e).pcbs, h, now) && s.clock < now
  {
    var t := Apply(s, e);
    ApplySound(s, e);
    h, now := |t.pcbs|, s.clock + 1;
    if e.Tick? {
      var x := Executor(e.policy, s);
      if x.Some? {
        ExecutorExists(e.policy, s);
        h := x.value;
      }
      TicksPositive(e.policy, s);
      StepLedger(e.policy, s, 0);
      now := t.clock;
    }
    forall x: nat | x < |t.pcbs|
      ensures t.pcbs[x].slices == (if x < |s.pcbs| then s.pcbs[x].slices else []) + (if x == h then [now] else [])
    {
      if e.Tick? {
        StepLedger(e.policy, s, x);
        hide Step;
        hide Executor;
        hide StepEnds;
        assert LedgerAt(t, x).slices == t.pcbs[x].slices;
      } else if !e.Arrive? {
        OtherLedgers(s, e, x);
        assert LedgerAt(t, x).slices == t.pcbs[x].slices;
      }
    }
  }

  lemma ApplyExclusive(s: State, e: Event)
    requires Sound(s) && Booked(s) && Exclusive(s.pcbs)
    ensures Exclusive(Apply(s, e).pcbs)
  {
    var h, now := ApplyAppends(s, e);
    hide Apply;
    AppendsExclusive(s.pcbs, Apply(s, e).pcbs, h, s.clock, now);
  }

  // In every run from boot no unit of time is a slice of two processes.
  lemma {:induction false} RunExclusive(s: State, es: seq<Event>)
    requires Sound(s) && Booked(s) && Exclusive(s.pcbs)
    ensures Exclusive(Run(s, es).pcbs)
    decreases |es|
  {
    if es != [] {
      ApplySound(s, es[0]);
      ApplyBooked(s, es[0]);
      ApplyExclusive(s, es[0]);
      RunExclusive(Apply(s, es[0]), es[1..]);
    }
  }
}
