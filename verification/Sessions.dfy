// The two loops that drive the scheduler, kernelRun and kernelExecuteProgram, as rounds: load
// every program whose time has come, then make one call of the scheduler (src/kernel/kernel.cpp).
// Proved here: when the loops end, that they end, when they idle and how late programs arrive.
module Sessions {
  import opened Options
  import opened Machine
  import opened Processes
  import opened System
  import opened Census
  import opened Timekeeping

  // A program listed for the time `time` after the start.
  datatype Listed = Listed(time: int, name: string)

  // One attempted load: the loader's code, the handle the block got, the time.
  datatype Attempt = Attempt(listed: Listed, code: int, handle: nat, clock: int)

  // The files that can be opened, by name.
  type Disk = map<string, Image>

  // `todo` lists what is still to load, earliest first. kernelRun is the case of an empty list.
  datatype Session = Session(todo: seq<Listed>, state: State, loads: seq<Attempt>)

  // 200: file not found.
  function FileCode(s: State, disk: Disk, name: string): int {
    if name in disk then LoadCode(s, disk[name]) else 200
  }

  function LoadFile(s: State, disk: Disk, name: string): State {
    if name in disk then LoadProgram(s, name, disk[name]) else s
  }

  function LoadNext(disk: Disk, z: Session): Session
    requires z.todo != []
  {
    var l := z.todo[0];
    Session(z.todo[1..], LoadFile(z.state, disk, l.name),
            z.loads + [Attempt(l, FileCode(z.state, disk, l.name), |z.state.pcbs|, z.state.clock)])
  }

  // Loads every program whose arrival time has been reached.
  function LoadDue(disk: Disk, start: int, z: Session): Session
    decreases |z.todo|
  {
    if z.todo == [] || z.todo[0].time + start > z.state.clock then z else LoadDue(disk, start, LoadNext(disk, z))
  }

  function Round(p: Policy, disk: Disk, start: int, z: Session): Session {
    var d := LoadDue(disk, start, z);
    d.(state := Step(p, d.state))
  }

  function Rounds(p: Policy, disk: Disk, start: int, z: Session, n: nat): Session
    decreases n
  {
    if n == 0 then z else Rounds(p, disk, start, Round(p, disk, start, z), n - 1)
  }

  predicate Over(z: Session) {
    z.todo == [] && AllEmpty(z.state)
  }

  lemma {:induction false} RoundsNext(p: Policy, disk: Disk, start: int, z: Session, n: nat)
    ensures Rounds(p, disk, start, z, n + 1) == Round(p, disk, start, Rounds(p, disk, start, z, n))
    ensures Rounds(p, disk, start, z, 0) == z
    decreases n
  {
    if n > 0 {
      RoundsNext(p, disk, start, Round(p, disk, start, z), n - 1);
    }
  }

  // ---------- rounds are runs ----------

  lemma {:induction false} RunAppend(s: State, es: seq<Event>, fs: seq<Event>)
    ensures Run(s, es + fs) == Run(Run(s, es), fs)
    decreases |es|
  {
    if es == [] {
      assert es + fs == fs;
    } else {
      assert (es + fs)[0] == es[0] && (es + fs)[1..] == es[1..] + fs;
      RunAppend(Apply(s, es[0]), es[1..], fs);
    }
  }

  // The loads of a round, as events.
  function DueEvents(disk: Disk, start: int, z: Session): seq<Event>
    decreases |z.todo|
  {
    if z.todo == [] || z.todo[0].time + start > z.state.clock then []
    else
      (if z.todo[0].name in disk then [Arrive(z.todo[0].name, disk[z.todo[0].name])] else [])
      + DueEvents(disk, start, LoadNext(disk, z))
  }

  function EventsOf(p: Policy, disk: Disk, start: int, z: Session, n: nat): seq<Event>
    decreases n
  {
    if n == 0 then []
    else DueEvents(disk, start, z) + [Tick(p)] + EventsOf(p, disk, start, Round(p, disk, start, z), n - 1)
  }

  lemma {:induction false} DueRun(disk: Disk, start: int, z: Session)
    ensures LoadDue(disk, start, z).state == Run(z.state, DueEvents(disk, start, z))
    decreases |z.todo|
  {
    if z.todo != [] && z.todo[0].time + start <= z.state.clock {
      var name := z.todo[0].name;
      var es := if name in disk then [Arrive(name, disk[name])] else [];
      RunAppend(z.state, es, DueEvents(disk, start, LoadNext(disk, z)));
      if name in disk {
        assert es[1..] == [];
        assert Run(z.state, es) == Apply(z.state, es[0]);
      }
      DueRun(disk, start, LoadNext(disk, z));
    }
  }

  // Every number of rounds is a run, so what is proved of all runs holds of sessions.
  lemma {:induction false} RoundsRun(p: Policy, disk: Disk, start: int, z: Session, n: nat)
    ensures Rounds(p, disk, start, z, n).state == Run(z.state, EventsOf(p, disk, start, z, n))
    decreases n
  {
    if n > 0 {
      var d, r := LoadDue(disk, start, z), Round(p, disk, start, z);
      var due, rest := DueEvents(disk, start, z), EventsOf(p, disk, start, r, n - 1);
      DueRun(disk, start, z);
      RunAppend(z.state, due + [Tick(p)], rest);
      RunAppend(z.state, due, [Tick(p)]);
      assert [Tick(p)][1..] == [];
      assert Run(d.state, [Tick(p)]) == Apply(d.state, Tick(p));
      RoundsRun(p, disk, start, r, n - 1);
    }
  }

  // ---------- what loading makes ----------

  // The whole block of a program that has just been loaded: numbered by the loads before it, PC
  // at its first instruction, arrival now, new, with cleared registers, priority 0, no semaphore
  // and no segment. It is the last of the new queue, and its name leads to it.
  lemma LoadedBlock(s: State, name: string, i: Image)
    requires LoadCode(s, i) == 0
    ensures var t, x := LoadProgram(s, name, i), |s.pcbs|;
            && |t.pcbs| == x + 1 && t.pcbs[..x] == s.pcbs && t.loaded == s.loaded + 1
            && t.pcbs[x] == Process(
                 name, s.loaded, i.load, i.size, i.first, s.clock, 0, [], 0, 0, 0, 0, 0, -1, New, None, None,
                 Cpu([0, 0, 0, 0, 0, 0], i.first + i.load, 0))
            && t.arrived == s.arrived + [x] && t.names == s.names[name := x] && t.clock == s.clock
  {
  }

  // How many programs the events load.
  function Accepted(s: State, es: seq<Event>): nat
    decreases |es|
  {
    if es == [] then 0
    else (if es[0].Arrive? && LoadCode(s, es[0].image) == 0 then 1 else 0) + Accepted(Apply(s, es[0]), es[1..])
  }

  lemma {:induction false} AdmitLoaded(s: State)
    ensures Admit(s).loaded == s.loaded
    decreases |s.arrived|
  {
    if s.arrived != [] {
      AdmitLoaded(Enqueue(s.(arrived := s.arrived[1..]), s.arrived[0], Ready));
    }
  }

  lemma PrepareLoaded(p: Policy, s: State)
    ensures Prepare(p, s).loaded == s.loaded
  {
    AdmitLoaded(s);
    hide Admit;
    PreemptLoaded(p, DispatchIdle(p, Admit(s)));
    hide Preempt;
  }

  lemma PreemptLoaded(p: Policy, s: State)
    ensures Preempt(p, s).loaded == s.loaded
  {
  }

  lemma ActLoaded(p: Policy, s: State)
    ensures Act(p, s).loaded == s.loaded
  {
    if s.running.Some? {
      var h := s.running.value;
      ExecuteLoaded(p, s, h);
      hide Execute;
      SettleLoaded(p, Execute(p, s, h), h, CycleOf(s, h).code);
      hide Settle;
    }
  }

  lemma SettleLoaded(p: Policy, s: State, h: nat, code: int)
    ensures Settle(p, s, h, code).loaded == s.loaded
  {
    InterruptedLoaded(p, s, h, code);
    TerminateLoaded(p, s, h);
    hide Interrupted;
    hide Terminate;
  }

  lemma InterruptedLoaded(p: Policy, s: State, h: nat, code: int)
    ensures Interrupted(p, s, h, code).loaded == s.loaded
  {
    var a := Park(s, h);
    assert a.loaded == s.loaded;
    hide Park;
    ServiceLoaded(a, h, code);
    hide Service;
  }

  lemma TerminateLoaded(p: Policy, s: State, h: nat)
    ensures Terminate(p, s, h).loaded == s.loaded
  {
  }

  lemma ExecuteLoaded(p: Policy, s: State, h: nat)
    ensures Execute(p, s, h).loaded == s.loaded
  {
  }

  lemma ServiceLoaded(s: State, h: nat, code: int)
    ensures Service(s, h, code).loaded == s.loaded
  {
    AcquireLoaded(s, h);
    ReleaseLoaded(s, h);
    hide Acquire;
    hide Release;
    if code == SHARED_ADDRESS {
      HaltLoaded(s, h);
      hide Halt;
    }
  }

  lemma HaltLoaded(s: State, h: nat)
    ensures Halt(s, h).loaded == s.loaded
  {
  }

  lemma AcquireLoaded(s: State, h: nat)
    ensures Acquire(s, h).loaded == s.loaded
  {
  }

  lemma ReleaseLoaded(s: State, h: nat)
    ensures Release(s, h).loaded == s.loaded
  {
  }

  lemma OpenLoaded(s: State, size: int, one: string, two: string)
    ensures OpenShared(s, size, one, two).loaded == s.loaded
  {
  }

  lemma StepLoaded(p: Policy, s: State)
    ensures Step(p, s).loaded == s.loaded
  {
    PrepareLoaded(p, s);
    hide Prepare;
    ActLoaded(p, Prepare(p, s));
    hide Act;
  }

  lemma ApplyLoaded(s: State, e: Event)
    ensures Apply(s, e).loaded == s.loaded + if e.Arrive? && LoadCode(s, e.image) == 0 then 1 else 0
  {
    match e
    case Tick(p) => StepLoaded(p, s);
    case OpenSegment(size, one, two) => OpenLoaded(s, size, one, two);
    case _ =>
  }

  // Over every run the counter that numbers the programs has grown by the loads accepted: the
  // n-th program loaded since power-on, counted from 0, has number n.
  lemma {:induction false} RunNumbers(s: State, es: seq<Event>)
    ensures Run(s, es).loaded == s.loaded + Accepted(s, es)
    decreases |es|
  {
    if es != [] {
      ApplyLoaded(s, es[0]);
      hide Apply;
      RunNumbers(Apply(s, es[0]), es[1..]);
    }
  }

  // ---------- work conservation ----------

  lemma {:induction false} AdmitFills(s: State)
    requires Ranged(s) && (s.arrived != [] || !NoneReady(s))
    ensures !NoneReady(Admit(s))
    decreases |s.arrived|
  {
    if s.arrived != [] {
      var h, t := s.arrived[0], s.(arrived := s.arrived[1..]);
      EnqueueReadyFills(t, h);
      EnqueueRanged(t, h, Ready);
      AdmitFills(Enqueue(t, h, Ready));
    }
  }

  lemma DispatchFills(p: Policy, s: State)
    ensures !NoneReady(s) || s.running.Some? ==> DispatchIdle(p, s).running.Some?
    ensures AllEmpty(s) ==> DispatchIdle(p, s).running.None?
  {
  }

  // A call idles exactly when nothing is new, ready or running.
  lemma WorkConserving(p: Policy, s: State)
    requires Sound(s)
    ensures IsIdle(p, s) <==> AllEmpty(s)
  {
    AdmitPlaces(s, 0);
    DispatchFills(p, Admit(s));
    if AllEmpty(s) {
      assert Admit(s) == s;
    } else if s.running.None? {
      AdmitFills(s);
    }
    PreemptRuns(p, DispatchIdle(p, Admit(s)));
  }

  lemma PreemptRuns(p: Policy, s: State)
    requires Ranged(s)
    ensures s.running.Some? <==> Preempt(p, s).running.Some?
  {
  }

  // Nothing is queued or running, and every program still listed is due and cannot be loaded.
  predicate Hopeless(disk: Disk, start: int, z: Session) {
    && AllEmpty(z.state)
    && forall i :: 0 <= i < |z.todo| ==>
         z.todo[i].time + start <= z.state.clock && FileCode(z.state, disk, z.todo[i].name) != 0
  }

  lemma {:induction false} LoadDueHopeless(disk: Disk, start: int, z: Session)
    ensures Over(LoadDue(disk, start, z)) <==> Hopeless(disk, start, z)
    ensures Hopeless(disk, start, z) ==> LoadDue(disk, start, z).state == z.state
    decreases |z.todo|
  {
    if z.todo != [] && z.todo[0].time + start <= z.state.clock {
      var t := LoadNext(disk, z);
      if FileCode(z.state, disk, z.todo[0].name) != 0 {
        assert t.state == z.state;
        hide LoadFile;
        hide FileCode;
        assert forall i :: 0 <= i < |t.todo| ==> t.todo[i] == z.todo[i + 1];
        assert forall i :: 0 < i < |z.todo| ==> z.todo[i] == t.todo[i - 1];
      } else {
        assert !AllEmpty(t.state);
      }
      LoadDueHopeless(disk, start, t);
    }
  }

  // Exactly when kernelExecuteProgram makes a last, idle call: a round that is made although
  // nothing can be loaded or run, because programs are still listed. Any other last round
  // executes an instruction.
  lemma LastIdle(p: Policy, disk: Disk, start: int, z: Session)
    requires Sound(z.state) && !Over(z)
    ensures Over(Round(p, disk, start, z)) && IsIdle(p, LoadDue(disk, start, z).state) <==> Hopeless(disk, start, z)
  {
    LoadDueHopeless(disk, start, z);
    LoadDueSound(disk, start, z);
    var d := LoadDue(disk, start, z);
    hide LoadDue;
    WorkConserving(p, d.state);
    if AllEmpty(d.state) {
      EmptyStays(p, d.state);
    }
  }

  lemma EmptyStays(p: Policy, s: State)
    requires AllEmpty(s)
    ensures Step(p, s) == s.(clock := s.clock + 1)
  {
    assert Admit(s) == s;
  }

  lemma {:induction false} LoadDueSound(disk: Disk, start: int, z: Session)
    requires Sound(z.state)
    ensures Sound(LoadDue(disk, start, z).state)
    decreases |z.todo|
  {
    if z.todo != [] && z.todo[0].time + start <= z.state.clock {
      LoadFileKeeps(disk, z.state, z.todo[0].name);
      LoadDueSound(disk, start, LoadNext(disk, z));
    }
  }

  // A case: one listed program, whose file does not exist.
  lemma IdleCall(p: Policy)
    ensures var z := Session([Listed(0, "missing")], Boot(), []);
            && !Over(z) && Over(Round(p, map[], 0, z)) && IsIdle(p, LoadDue(map[], 0, z).state)
            && Round(p, map[], 0, z).state.clock == 1
  {
    var z := Session([Listed(0, "missing")], Boot(), []);
    BootSound();
    LastIdle(p, map[], 0, z);
    LoadDueHopeless(map[], 0, z);
    EmptyStays(p, Boot());
  }

  // ---------- the sessions end ----------

  ghost predicate Bounded(s: State, most: nat, b: nat) {
    |s.pcbs| <= most && forall h: nat :: h < |s.pcbs| ==> |s.pcbs[h].slices| <= b
  }

  // In no round are there more than `most` processes, or one with more than `b` instructions.
  ghost predicate Finite(p: Policy, disk: Disk, start: int, z: Session, most: nat, b: nat) {
    forall n: nat :: Bounded(Rounds(p, disk, start, z, n).state, most, b)
  }

  lemma {:induction false} TotalBounded(ps: seq<Process>, b: nat)
    requires forall h :: 0 <= h < |ps| ==> |ps[h].slices| <= b
    ensures TotalSlices(ps) <= |ps| * b
    decreases |ps|
  {
    if ps != [] {
      TotalBounded(ps[..|ps| - 1], b);
      Product(|ps| - 1, b);
    }
  }

  lemma Product(n: nat, b: nat)
    ensures (n + 1) * b == n * b + b
  {
  }

  lemma ProductMonotone(n: nat, m: nat, b: nat)
    requires n <= m
    ensures n * b <= m * b
  {
  }

  ghost predicate InOrder(todo: seq<Listed>) {
    forall i, j :: 0 <= i < j < |todo| ==> todo[i].time <= todo[j].time
  }

  // How long the session could wait for its last program.
  function Ahead(start: int, z: Session): nat {
    if z.todo == [] then 0
    else if z.todo[|z.todo| - 1].time + start > z.state.clock then z.todo[|z.todo| - 1].time + start - z.state.clock
    else 0
  }

  // Instructions still allowed, plus the wait for the last program, plus the programs listed
  // (when the last of them cannot be loaded, the round still makes a call, which idles).
  function Budget(start: int, z: Session, most: nat, b: nat): int {
    most * b - TotalSlices(z.state.pcbs) + Ahead(start, z) + |z.todo|
  }

  lemma LoadFileKeeps(disk: Disk, s: State, name: string)
    requires Sound(s)
    ensures var t := LoadFile(s, disk, name);
            && Sound(t) && t.clock == s.clock && TotalSlices(t.pcbs) == TotalSlices(s.pcbs)
            && |s.pcbs| <= |t.pcbs| && t.pcbs[..|s.pcbs|] == s.pcbs
            && |t.pcbs| == |s.pcbs| + (if FileCode(s, disk, name) == 0 then 1 else 0)
            && (FileCode(s, disk, name) == 0 ==>
                  t.pcbs[|s.pcbs|].arrival == s.clock && t.pcbs[|s.pcbs|].name == name)
  {
    if name in disk {
      ApplySound(s, Arrive(name, disk[name]));
      QuietSlices(s, Arrive(name, disk[name]));
    } else {
      assert s.pcbs[..|s.pcbs|] == s.pcbs;
    }
  }

  lemma {:induction false} LoadDueKeeps(disk: Disk, start: int, z: Session)
    requires Sound(z.state) && InOrder(z.todo)
    ensures var d := LoadDue(disk, start, z);
            && Sound(d.state) && InOrder(d.todo) && d.state.clock == z.state.clock
            && TotalSlices(d.state.pcbs) == TotalSlices(z.state.pcbs)
            && Ahead(start, d) == Ahead(start, z) && |d.todo| <= |z.todo| && (|d.todo| == |z.todo| ==> d == z)
            && (d.todo == [] || d.todo[0].time + start > d.state.clock)
    decreases |z.todo|
  {
    if z.todo != [] && z.todo[0].time + start <= z.state.clock {
      LoadFileKeeps(disk, z.state, z.todo[0].name);
      LoadDueKeeps(disk, start, LoadNext(disk, z));
    }
  }

  // A round that is not the last makes progress: an instruction, or an idle tick towards
  // the next program.
  lemma RoundShrinks(p: Policy, disk: Disk, start: int, z: Session, most: nat, b: nat)
    requires Sound(z.state) && InOrder(z.todo) && !Over(z)
    ensures var r := Round(p, disk, start, z);
            Sound(r.state) && InOrder(r.todo) && Budget(start, r, most, b) < Budget(start, z, most, b)
  {
    hide LoadDue;
    hide Step;
    hide Sound;
    hide AllEmpty;
    hide TotalSlices;
    var d := LoadDue(disk, start, z);
    LoadDueKeeps(disk, start, z);
    LoadDueGrows(disk, start, z);
    CallAdvances(p, d.state);
  }

  // A call executes an instruction or idles, and takes time.
  lemma CallAdvances(p: Policy, s: State)
    requires Sound(s)
    ensures Sound(Step(p, s)) && Step(p, s).clock > s.clock
    ensures TotalSlices(Step(p, s).pcbs) == TotalSlices(s.pcbs) + if AllEmpty(s) then 0 else 1
  {
    ApplySound(s, Tick(p));
    StepSlices(p, s);
    WorkConserving(p, s);
    StepLedger(p, s, 0);
    TicksPositive(p, s);
  }

  // What is queued or running stays so while programs are loaded.
  lemma {:induction false} LoadDueGrows(disk: Disk, start: int, z: Session)
    ensures !AllEmpty(z.state) ==> !AllEmpty(LoadDue(disk, start, z).state)
    decreases |z.todo|
  {
    if z.todo != [] && z.todo[0].time + start <= z.state.clock {
      LoadDueGrows(disk, start, LoadNext(disk, z));
    }
  }

  lemma BudgetNatural(start: int, z: Session, most: nat, b: nat)
    requires Bounded(z.state, most, b)
    ensures Budget(start, z, most, b) >= 0
  {
    TotalBounded(z.state.pcbs, b);
    ProductMonotone(|z.state.pcbs|, most, b);
  }

  lemma FiniteNext(p: Policy, disk: Disk, start: int, z: Session, most: nat, b: nat)
    requires Finite(p, disk, start, z, most, b)
    ensures Bounded(z.state, most, b) && Finite(p, disk, start, Round(p, disk, start, z), most, b)
  {
    assert Rounds(p, disk, start, z, 0) == z;
    forall n: nat
      ensures Bounded(Rounds(p, disk, start, Round(p, disk, start, z), n).state, most, b)
    {
      assert Rounds(p, disk, start, z, n + 1) == Rounds(p, disk, start, Round(p, disk, start, z), n);
    }
  }

  // With boundedly many processes of boundedly many instructions each, the loop ends, after
  // at most as many rounds as its budget.
  lemma {:induction false} SessionEnds(p: Policy, disk: Disk, start: int, z: Session, most: nat, b: nat) returns (n: nat)
    requires Sound(z.state) && InOrder(z.todo) && Finite(p, disk, start, z, most, b)
    ensures n <= Budget(start, z, most, b) && Over(Rounds(p, disk, start, z, n))
    ensures forall k: nat :: k < n ==> !Over(Rounds(p, disk, start, z, k))
    decreases Budget(start, z, most, b)
  {
    FiniteNext(p, disk, start, z, most, b);
    BudgetNatural(start, z, most, b);
    if Over(z) {
      n := 0;
    } else {
      var r := Round(p, disk, start, z);
      RoundShrinks(p, disk, start, z, most, b);
      FiniteNext(p, disk, start, r, most, b);
      BudgetNatural(start, r, most, b);
      var m := SessionEnds(p, disk, start, r, most, b);
      n := m + 1;
      forall k: nat | k < n
        ensures !Over(Rounds(p, disk, start, z, k))
      {
        if k > 0 {
          assert Rounds(p, disk, start, z, k) == Rounds(p, disk, start, r, k - 1);
        }
      }
    }
  }

  // No cycle of the round forks.
  predicate NoFork(p: Policy, disk: Disk, start: int, z: Session) {
    CodeOf(p, LoadDue(disk, start, z).state) != FORK
  }

  lemma {:induction false} LoadDueCount(disk: Disk, start: int, z: Session)
    requires Sound(z.state)
    ensures var d := LoadDue(disk, start, z);
            Sound(d.state) && |d.state.pcbs| + |d.todo| <= |z.state.pcbs| + |z.todo|
    decreases |z.todo|
  {
    if z.todo != [] && z.todo[0].time + start <= z.state.clock {
      LoadFileKeeps(disk, z.state, z.todo[0].name);
      LoadDueCount(disk, start, LoadNext(disk, z));
    }
  }

  // Without forks there are never more processes than loaded and listed programs.
  lemma {:induction false} NoForkCount(p: Policy, disk: Disk, start: int, z: Session, n: nat)
    requires Sound(z.state) && forall k: nat :: k < n ==> NoFork(p, disk, start, Rounds(p, disk, start, z, k))
    ensures var r := Rounds(p, disk, start, z, n);
            Sound(r.state) && |r.state.pcbs| + |r.todo| <= |z.state.pcbs| + |z.todo|
    decreases n
  {
    hide *;
    if n == 0 {
      RoundsNext(p, disk, start, z, 0);
    } else {
      NoForkCount(p, disk, start, z, n - 1);
      RoundsNext(p, disk, start, z, n - 1);
      RoundCount(p, disk, start, Rounds(p, disk, start, z, n - 1));
    }
  }

  lemma RoundCount(p: Policy, disk: Disk, start: int, z: Session)
    requires Sound(z.state) && NoFork(p, disk, start, z)
    ensures var r := Round(p, disk, start, z);
            Sound(r.state) && |r.state.pcbs| + |r.todo| <= |z.state.pcbs| + |z.todo|
  {
    var d := LoadDue(disk, start, z);
    LoadDueCount(disk, start, z);
    ApplySound(d.state, Tick(p));
    StepPlaces(p, d.state, 0);
    hide LoadDue;
    hide Step;
    hide CodeOf;
  }

  // Without forks, and with at most b instructions of each process, both loops end: after at
  // most as many rounds as instructions allowed to the processes there are and to those listed,
  // plus the wait for the last listed program, plus the programs listed.
  lemma NoForkEnds(p: Policy, disk: Disk, start: int, z: Session, b: nat) returns (n: nat)
    requires Sound(z.state) && InOrder(z.todo)
    requires forall k: nat :: NoFork(p, disk, start, Rounds(p, disk, start, z, k))
    requires forall k: nat, h: nat :: h < |Rounds(p, disk, start, z, k).state.pcbs| ==>
               |Rounds(p, disk, start, z, k).state.pcbs[h].slices| <= b
    ensures n <= Budget(start, z, |z.state.pcbs| + |z.todo|, b) && Over(Rounds(p, disk, start, z, n))
    ensures forall k: nat :: k < n ==> !Over(Rounds(p, disk, start, z, k))
  {
    var most := |z.state.pcbs| + |z.todo|;
    forall k: nat
      ensures Bounded(Rounds(p, disk, start, z, k).state, most, b)
    {
      NoForkCount(p, disk, start, z, k);
    }
    n := SessionEnds(p, disk, start, z, most, b);
  }

  function Calls(p: Policy, n: nat): seq<Event> {
    seq(n, _ => Tick(p))
  }

  // kernelRun never idles: until it ends, every call executes an instruction.
  lemma {:induction false} RunNeverIdles(p: Policy, s: State, n: nat)
    requires Sound(s) && forall k: nat :: k < n ==> !AllEmpty(Run(s, Calls(p, k)))
    ensures IdleTicks(s, Calls(p, n)) == 0
    decreases n
  {
    if n > 0 {
      var es, rest := Calls(p, n), Calls(p, n - 1);
      assert es[0] == Tick(p) && es[1..] == rest;
      assert Run(s, Calls(p, 0)) == s;
      WorkConserving(p, s);
      ApplySound(s, Tick(p));
      forall k: nat | k < n - 1
        ensures !AllEmpty(Run(Apply(s, Tick(p)), Calls(p, k)))
      {
        var more := Calls(p, k + 1);
        assert more[1..] == Calls(p, k);
        hide AllEmpty;
        assert Run(s, more) == Run(Apply(s, Tick(p)), Calls(p, k));
      }
      hide Apply;
      hide IsIdle;
      RunNeverIdles(p, Apply(s, Tick(p)), n - 1);
    }
  }

  // The rounds of kernelRun are calls of the scheduler and nothing else.
  lemma {:induction false} RunRounds(p: Policy, s: State, n: nat)
    ensures Rounds(p, map[], 0, Session([], s, []), n) == Session([], Run(s, Calls(p, n)), [])
    decreases n
  {
    var es := Calls(p, n);
    if n > 0 {
      assert es[1..] == Calls(p, n - 1);
      RunRounds(p, Step(p, s), n - 1);
    }
  }

  // At the end every process is terminated, already logged or in one block queue.
  lemma AtTheEnd(s: State, x: nat)
    requires Sound(s) && AllEmpty(s) && x < |s.pcbs|
    ensures Occ(s.terminated, x) + Occ(s.logged, x) + Blocked(s.semaphores, x) == 1
  {
    assert Places(s, x) == 1;
  }

  // ---------- arrival times ----------

  // The arrival of every process stays what it was.
  lemma ArrivalKept(s: State, e: Event, h: nat)
    requires Sound(s) && h < |s.pcbs|
    ensures h < |Apply(s, e).pcbs| && Apply(s, e).pcbs[h].arrival == s.pcbs[h].arrival
  {
    ApplySound(s, e);
    if e.Tick? {
      StepLedger(e.policy, s, h);
      assert LedgerAt(Apply(s, e), h).arrival == LedgerAt(s, h).arrival;
    } else if !e.Arrive? {
      OtherLedgers(s, e, h);
      assert LedgerAt(Apply(s, e), h).arrival == LedgerAt(s, h).arrival;
    }
  }

  // Nothing on the list is overdue by more than the tick an interrupt adds.
  ghost predicate Punctual(start: int, z: Session) {
    forall i :: 0 <= i < |z.todo| ==> z.todo[i].time + start >= z.state.clock - 1
  }

  ghost predicate LoadOk(start: int, s: State, l: Attempt) {
    && start + l.listed.time <= l.clock <= start + l.listed.time + 1
    && (l.code == 0 ==> l.handle < |s.pcbs| && s.pcbs[l.handle].arrival == l.clock)
  }

  // Every load so far came at its time or one tick later, and the block still says so.
  ghost predicate LoadsOk(start: int, z: Session) {
    forall i :: 0 <= i < |z.loads| ==> LoadOk(start, z.state, z.loads[i])
  }

  ghost predicate OnTime(start: int, z: Session) {
    Sound(z.state) && InOrder(z.todo) && Punctual(start, z) && LoadsOk(start, z)
  }

  lemma LoadNextOnTime(disk: Disk, start: int, z: Session)
    requires OnTime(start, z) && z.todo != [] && z.todo[0].time + start <= z.state.clock
    ensures OnTime(start, LoadNext(disk, z))
  {
    LoadFileKeeps(disk, z.state, z.todo[0].name);
    hide Sound;
    hide LoadFile;
    hide FileCode;
    var t := LoadNext(disk, z);
    forall i | 0 <= i < |t.loads|
      ensures LoadOk(start, t.state, t.loads[i])
    {
      if i < |z.loads| {
        assert LoadOk(start, z.state, z.loads[i]);
        if z.loads[i].code == 0 {
          assert t.state.pcbs[..|z.state.pcbs|][z.loads[i].handle] == z.state.pcbs[z.loads[i].handle];
        }
      }
    }
  }

  lemma {:induction false} LoadDueOnTime(disk: Disk, start: int, z: Session)
    requires OnTime(start, z)
    ensures var d := LoadDue(disk, start, z);
            OnTime(start, d) && (d.todo == [] || d.todo[0].time + start > d.state.clock)
    decreases |z.todo|
  {
    if z.todo != [] && z.todo[0].time + start <= z.state.clock {
      LoadNextOnTime(disk, start, z);
      LoadDueOnTime(disk, start, LoadNext(disk, z));
    }
  }

  lemma RoundOnTime(p: Policy, disk: Disk, start: int, z: Session)
    requires OnTime(start, z)
    ensures OnTime(start, Round(p, disk, start, z))
  {
    var d, r := LoadDue(disk, start, z), Round(p, disk, start, z);
    LoadDueOnTime(disk, start, z);
    ApplySound(d.state, Tick(p));
    StepLedger(p, d.state, 0);
    TicksPositive(p, d.state);
    forall i | 0 <= i < |r.loads|
      ensures LoadOk(start, r.state, r.loads[i])
    {
      assert LoadOk(start, d.state, d.loads[i]);
      if d.loads[i].code == 0 {
        ArrivalKept(d.state, Tick(p), d.loads[i].handle);
      }
    }
  }

  // What has been loaded, followed by what is still listed.
  function Listing(z: Session): seq<Listed> {
    seq(|z.loads|, i requires 0 <= i < |z.loads| => z.loads[i].listed) + z.todo
  }

  lemma {:induction false} LoadDueListing(disk: Disk, start: int, z: Session)
    ensures Listing(LoadDue(disk, start, z)) == Listing(z)
    decreases |z.todo|
  {
    if z.todo != [] && z.todo[0].time + start <= z.state.clock {
      assert Listing(LoadNext(disk, z)) == Listing(z);
      LoadDueListing(disk, start, LoadNext(disk, z));
    }
  }

  // However long a session has run, it has attempted a prefix of its list in order, each
  // program at its listed time or one tick later, and the arrival time of every process
  // loaded is that time, now and for good.
  lemma {:induction false} ArrivalLateness(p: Policy, disk: Disk, z: Session, n: nat)
    requires Sound(z.state) && InOrder(z.todo) && z.loads == []
    requires forall i :: 0 <= i < |z.todo| ==> z.todo[i].time >= 0
    ensures var start := z.state.clock;
            var r := Rounds(p, disk, start, z, n);
            OnTime(start, r) && Listing(r) == z.todo
    decreases n
  {
    hide *;
    var start := z.state.clock;
    if n == 0 {
      StartOnTime(z);
      RoundsNext(p, disk, start, z, 0);
    } else {
      ArrivalLateness(p, disk, z, n - 1);
      RoundsNext(p, disk, start, z, n - 1);
      RoundOnTime(p, disk, start, Rounds(p, disk, start, z, n - 1));
      RoundListing(p, disk, start, Rounds(p, disk, start, z, n - 1));
    }
  }

  lemma StartOnTime(z: Session)
    requires Sound(z.state) && InOrder(z.todo) && z.loads == []
    requires forall i :: 0 <= i < |z.todo| ==> z.todo[i].time >= 0
    ensures OnTime(z.state.clock, z) && Listing(z) == z.todo
  {
    assert Listing(z) == z.todo;
  }

  lemma RoundListing(p: Policy, disk: Disk, start: int, z: Session)
    ensures Listing(Round(p, disk, start, z)) == Listing(z)
  {
    LoadDueListing(disk, start, z);
    hide LoadDue;
    hide Step;
    assert Listing(Round(p, disk, start, z)) == Listing(LoadDue(disk, start, z));
  }
}
