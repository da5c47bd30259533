// Logs of terminated processes and the drawing of their chart, as objects
// (src/kernel/processlog.h, src/kernel/processlog.cpp, src/kernel/errorhandler.cpp).
module Logging {
  import opened Options
  import opened Processes
  import opened System
  import opened Hardware
  import opened Scheduling
  import opened Charts
  import Timekeeping

  // The blocks of a process map, in its order.
  function Values(m: Multimap<Pcb>): seq<Pcb> {
    seq(|m|, i requires 0 <= i < |m| => m[i].value)
  }

  ghost function Handles(q: seq<Pcb>): seq<nat> {
    seq(|q|, i requires 0 <= i < |q| => q[i].id)
  }

  // The blocks as they are now.
  ghost function Blocks(q: seq<Pcb>): seq<Process>
    reads q
  {
    if q == [] then [] else Blocks(q[..|q| - 1]) + [q[|q| - 1].Image()]
  }

  lemma {:induction false} BlocksAt(q: seq<Pcb>, i: nat)
    requires i < |q|
    ensures |Blocks(q)| == |q| && Blocks(q)[i] == q[i].Image()
  {
    if i < |q| - 1 {
      BlocksAt(q[..|q| - 1], i);
    } else if i > 0 {
      BlocksAt(q[..|q| - 1], i - 1);
    }
  }

  lemma HandlesInsert(m: Multimap<Pcb>, k: int, p: Pcb)
    ensures multiset(Handles(Values(Insert(m, k, p)))) == multiset(Handles(Values(m))) + multiset{p.id}
  {
    var u := UpperBound(m, k);
    assert Handles(Values(m)) == Handles(Values(m[..u])) + Handles(Values(m[u..]));
    assert Handles(Values(Insert(m, k, p))) == Handles(Values(m[..u])) + [p.id] + Handles(Values(m[u..]));
  }

  lemma InsertAllPrefix(m: Multimap<int>, slices: seq<int>, i: nat, pid: int)
    requires i < |slices|
    ensures InsertAll(m, slices[i..], pid) == InsertAll(Insert(m, slices[i], pid), slices[i + 1..], pid)
  {
    assert slices[i..][1..] == slices[i + 1..];
  }

  class ProcessLog {
    var pLogId: int
    var algoUsed: int
    var quantum: int
    var ratio: int
    var processMap: Multimap<Pcb>
    var ganntChart: Multimap<int>

    constructor ()
      ensures processMap == [] && ganntChart == []
    {
      pLogId, algoUsed, quantum, ratio := 0, 0, 0, 0;
      processMap, ganntChart := [], [];
    }

    method LogProcess(terminatedProcess: Pcb, idCount: int)
      modifies this`processMap, this`ganntChart, this`pLogId
      ensures processMap == Insert(old(processMap), terminatedProcess.pId, terminatedProcess)
      ensures ganntChart == InsertAll(old(ganntChart), terminatedProcess.cpuTimeSlices, terminatedProcess.pId)
      ensures pLogId == idCount
    {
      processMap := Insert(processMap, terminatedProcess.pId, terminatedProcess);
      pLogId := idCount;
      ghost var was := ganntChart;
      var slices := terminatedProcess.cpuTimeSlices;
      assert slices[0..] == slices;
      for i := 0 to |slices|
        modifies this`ganntChart
        invariant InsertAll(ganntChart, slices[i..], terminatedProcess.pId) == InsertAll(was, slices, terminatedProcess.pId)
      {
        InsertAllPrefix(ganntChart, slices, i, terminatedProcess.pId);
        ganntChart := Insert(ganntChart, slices[i], terminatedProcess.pId);
      }
      assert slices[|slices|..] == [];
    }
  }

  // The log of the first `i` processes of the terminated queue of `s`; `t` are all blocks.
  ghost predicate LogIs(log: ProcessLog, t: seq<Pcb>, s: State, i: nat)
    reads log
  {
    && i <= |s.terminated| && log.ganntChart == ChartOf(Finished(s)[..i])
    && multiset(Handles(Values(log.processMap))) == multiset(s.terminated[..i])
    && forall e :: e in log.processMap ==> KnownIn(t, e.value)
  }

  // The first `i` processes of the terminated queue have moved to a log.
  function Moved(s: State, i: nat): State {
    if i <= |s.terminated| then s.(terminated := s.terminated[i..], logged := s.logged + s.terminated[..i]) else s
  }

  lemma MovedEnds(s: State)
    ensures Moved(s, 0) == s && Moved(s, |s.terminated|) == Drain(s)
  {
    assert s.terminated[0..] == s.terminated && s.logged + [] == s.logged;
  }

  lemma LogGrows(m: Multimap<Pcb>, chart: Multimap<int>, t: seq<Pcb>, s: State, i: nat, p: Pcb)
    requires i < |s.terminated| && chart == ChartOf(Finished(s)[..i]) && KnownIn(t, p) && p.id == s.terminated[i]
    requires multiset(Handles(Values(m))) == multiset(s.terminated[..i]) && forall e :: e in m ==> KnownIn(t, e.value)
    ensures multiset(Handles(Values(Insert(m, p.pId, p)))) == multiset(s.terminated[..i + 1])
    ensures forall e :: e in Insert(m, p.pId, p) ==> KnownIn(t, e.value)
    ensures var q := Get(s, s.terminated[i]);
            InsertAll(chart, q.slices, q.pid) == ChartOf(Finished(s)[..i + 1])
  {
    var ps := Finished(s);
    HandlesInsert(m, p.pId, p);
    assert ps[..i + 1][..i] == ps[..i];
    assert s.terminated[..i + 1] == s.terminated[..i] + [s.terminated[i]];
  }

  class ErrorHandler {
    var errorList: seq<int>
    var cpuLogs: seq<ProcessLog>
    var cpuLogCount: int

    constructor ()
      ensures errorList == [] && cpuLogs == [] && cpuLogCount == 0
    {
      errorList, cpuLogs, cpuLogCount := [], [], 0;
    }

    // logProcess on the front of the terminated queue, which is then popped.
    method LogNext(scheduler: Scheduler, log: ProcessLog, ghost s: State, ghost i: nat)
      requires scheduler.Valid() && i < |s.terminated| && scheduler.view == Moved(s, i)
      requires LogIs(log, scheduler.machine.ram.table, s, i)
      modifies scheduler, log
      ensures scheduler.Valid() && scheduler.view == Moved(s, i + 1)
      ensures LogIs(log, scheduler.machine.ram.table, s, i + 1)
      ensures |scheduler.terminatedQueue| == |old(scheduler.terminatedQueue)| - 1
      ensures scheduler.semaphoreTable == old(scheduler.semaphoreTable)
    {
      hide Scheduler.Valid;
      var process := scheduler.TerminatedFront();
      LogGrows(log.processMap, log.ganntChart, scheduler.machine.ram.table, s, i, process);
      log.LogProcess(process, cpuLogCount);
      scheduler.PopTerminated();
    }

    // The loop that drains the terminated queue into `log`.
    method FillLog(scheduler: Scheduler, log: ProcessLog)
      requires scheduler.Valid() && log.processMap == [] && log.ganntChart == []
      modifies scheduler, log
      ensures scheduler.Valid() && scheduler.view == Drain(old(scheduler.view))
      ensures scheduler.semaphoreTable == old(scheduler.semaphoreTable)
      ensures var s := old(scheduler.view); LogIs(log, scheduler.machine.ram.table, s, |s.terminated|)
    {
      ghost var s, i := scheduler.view, 0;
      scheduler.TerminatedLength();
      MovedEnds(s);
      hide Moved;
      hide Scheduler.Valid;
      while scheduler.terminatedQueue != []
        invariant 0 <= i && i + |scheduler.terminatedQueue| == |s.terminated|
        invariant scheduler.Valid() && scheduler.view == Moved(s, i)
        invariant scheduler.semaphoreTable == old(scheduler.semaphoreTable)
        invariant LogIs(log, scheduler.machine.ram.table, s, i)
        decreases |s.terminated| - i
      {
        LogNext(scheduler, log, s, i);
        i := i + 1;
      }
    }

    // Drains the terminated queue into a new log.
    method LogTerminatedProcesses(scheduler: Scheduler, algo: int, quantum: int, ratio: int)
      requires scheduler.Valid()
      modifies this`cpuLogs, this`cpuLogCount, scheduler
      ensures scheduler.Valid() && scheduler.view == Drain(old(scheduler.view))
      ensures scheduler.semaphoreTable == old(scheduler.semaphoreTable)
      ensures cpuLogCount == old(cpuLogCount) + 1
      ensures |cpuLogs| == |old(cpuLogs)| + 1 && cpuLogs[..|old(cpuLogs)|] == old(cpuLogs)
      ensures var log, s := cpuLogs[|old(cpuLogs)|], old(scheduler.view);
              fresh(log) && LogIs(log, scheduler.machine.ram.table, s, |s.terminated|)
    {
      hide Scheduler.Valid;
      hide Drain;
      var newProcessLog := new ProcessLog();
      FillLog(scheduler, newProcessLog);
      cpuLogs := cpuLogs + [newProcessLog];
      newProcessLog.algoUsed := algo;
      newProcessLog.quantum := quantum;
      newProcessLog.ratio := ratio;
      cpuLogCount := cpuLogCount + 1;
    }

    // The span of a log: from the earliest arrival to the latest slice.
    method Span(processLog: ProcessLog, ghost ps: seq<Process>) returns (globalStart: int, globalEnd: int)
      requires ps == Blocks(Values(processLog.processMap))
      ensures globalStart == Earliest(ps) && globalEnd == Latest(ps)
    {
      globalStart, globalEnd := INT_MAX, 0;
      var q := Values(processLog.processMap);
      BlocksLength(q);
      for i := 0 to |q|
        invariant globalStart == Earliest(ps[..i]) && globalEnd == Latest(ps[..i])
      {
        BlocksAt(q, i);
        assert ps[..i + 1][..i] == ps[..i];
        var p := q[i];
        if p.cpuTimeSlices != [] {
          globalStart := if p.pArrivalTime < globalStart then p.pArrivalTime else globalStart;
          var last := p.cpuTimeSlices[|p.cpuTimeSlices| - 1];
          globalEnd := if last > globalEnd then last else globalEnd;
        }
      }
      assert ps[..|q|] == ps;
    }

    // The cursor walk of the chart: for every unit of time from start to end, the process drawn
    // there, or None for a blank. The cursor is never read past the last entry, and every entry
    // is drawn exactly once, at its own time.
    method PrintLogGannt(chart: Multimap<int>, globalStart: int, globalEnd: int) returns (drawn: seq<Option<int>>)
      requires Drawable(chart, globalStart, globalEnd)
      ensures |drawn| == globalEnd - globalStart + 1
      ensures forall k :: 0 <= k < |chart| ==>
                && 0 <= chart[k].key - globalStart < |drawn|
                && drawn[chart[k].key - globalStart] == Some(chart[k].value)
      ensures forall i :: 0 <= i < |drawn| && drawn[i].Some? ==> HasKey(chart, globalStart + i)
    {
      drawn := [];
      var it := 0;
      assert chart[0].key <= chart[|chart| - 1].key;
      for i := globalStart to globalEnd + 1
        invariant |drawn| == i - globalStart && 0 <= it <= |chart|
        invariant forall k :: 0 <= k < it ==>
                    && globalStart <= chart[k].key < i
                    && drawn[chart[k].key - globalStart] == Some(chart[k].value)
        invariant forall k :: it <= k < |chart| ==> chart[k].key >= i
        invariant forall j :: 0 <= j < |drawn| && drawn[j].Some? ==> HasKey(chart, globalStart + j)
      {
        if chart[it].key == i {
          drawn := drawn + [Some(chart[it].value)];
          it := it + 1;
        } else {
          drawn := drawn + [None];
        }
      }
    }

    // The part of coreDump that draws the log.
    method CoreDump(processLog: ProcessLog, ghost ps: seq<Process>) returns (globalStart: int, drawn: seq<Option<int>>)
      requires ps == Blocks(Values(processLog.processMap))
      requires Drawable(processLog.ganntChart, Earliest(ps), Latest(ps))
      ensures globalStart == Earliest(ps) && |drawn| == Latest(ps) - Earliest(ps) + 1
      ensures forall k :: 0 <= k < |processLog.ganntChart| ==>
                var e := processLog.ganntChart[k];
                0 <= e.key - globalStart < |drawn| && drawn[e.key - globalStart] == Some(e.value)
      ensures forall i :: 0 <= i < |drawn| && drawn[i].Some? ==> HasKey(processLog.ganntChart, globalStart + i)
    {
      hide *;
      var globalEnd: int;
      globalStart, globalEnd := Span(processLog, ps);
      drawn := PrintLogGannt(processLog.ganntChart, globalStart, globalEnd);
    }
  }

  lemma BlocksLength(q: seq<Pcb>)
    ensures |Blocks(q)| == |q|
  {
    if q != [] {
      BlocksAt(q, |q| - 1);
    }
  }

  // After logging, the logged blocks are the processes that had terminated, in another order.
  lemma BlocksFinished(scheduler: Scheduler, m: Multimap<Pcb>, s: State)
    requires scheduler.Valid() && s.pcbs == scheduler.view.pcbs
    requires multiset(Handles(Values(m))) == multiset(s.terminated)
    requires forall e :: e in m ==> KnownIn(scheduler.machine.ram.table, e.value)
    ensures multiset(Blocks(Values(m))) == multiset(Finished(s))
  {
    var q := Values(m);
    BlocksLength(q);
    forall i | 0 <= i < |q|
      ensures Blocks(q)[i] == Get(s, Handles(q)[i])
    {
      BlocksAt(q, i);
      assert m[i] in m;
      scheduler.ImageOf(q[i]);
    }
    hide Blocks;
    hide Scheduler.Valid;
    assert Blocks(q) == Gotten(s, Handles(q));
    assert Finished(s) == Gotten(s, s.terminated);
    GottenMultiset(s, Handles(q), s.terminated);
  }

  function Gotten(s: State, hs: seq<nat>): seq<Process> {
    seq(|hs|, i requires 0 <= i < |hs| => Get(s, hs[i]))
  }

  lemma GottenWithout(s: State, hs: seq<nat>, i: nat)
    requires i < |hs|
    ensures var rest := hs[..i] + hs[i + 1..];
            && multiset(Gotten(s, hs)) == multiset(Gotten(s, rest)) + multiset{Get(s, hs[i])}
            && multiset(rest) == multiset(hs) - multiset{hs[i]} && |rest| == |hs| - 1
  {
    var a, b := hs[..i], hs[i + 1..];
    assert hs == a + [hs[i]] + b;
    assert Gotten(s, hs) == Gotten(s, a) + [Get(s, hs[i])] + Gotten(s, b);
    assert Gotten(s, a + b) == Gotten(s, a) + Gotten(s, b);
  }

  lemma {:induction false} GottenMultiset(s: State, a: seq<nat>, b: seq<nat>)
    requires multiset(a) == multiset(b)
    ensures multiset(Gotten(s, a)) == multiset(Gotten(s, b))
    decreases |a|
  {
    if a == [] {
      assert |multiset(b)| == 0;
    } else {
      assert a[0] in multiset(b);
      var i :| 0 <= i < |b| && b[i] == a[0];
      GottenWithout(s, a, 0);
      GottenWithout(s, b, i);
      hide Gotten;
      GottenMultiset(s, a[..0] + a[1..], b[..i] + b[i + 1..]);
    }
  }

  // Whatever the run was, the log its terminated processes went to can be drawn.
  lemma LogDrawn(scheduler: Scheduler, log: ProcessLog, es: seq<Event>)
    requires var s := Run(Boot(), es);
             && scheduler.Valid() && scheduler.view == Drain(s) && s.terminated != []
             && LogIs(log, scheduler.machine.ram.table, s, |s.terminated|)
    ensures var ps := Blocks(Values(log.processMap));
            && Drawable(log.ganntChart, Earliest(ps), Latest(ps))
            && |log.ganntChart| == Timekeeping.TotalSlices(ps)
  {
    var s := Run(Boot(), es);
    hide Run;
    hide Boot;
    assert s.terminated[..|s.terminated|] == s.terminated && Finished(s)[..|s.terminated|] == Finished(s);
    BlocksFinished(scheduler, log.processMap, s);
    hide Scheduler.Valid;
    LogDrawable(es, Blocks(Values(log.processMap)));
    TotalPermuted(Finished(s), Blocks(Values(log.processMap)));
  }

  lemma {:induction false} TotalPermuted(a: seq<Process>, b: seq<Process>)
    requires multiset(a) == multiset(b)
    ensures Timekeeping.TotalSlices(a) == Timekeeping.TotalSlices(b)
    decreases |a|
  {
    if a == [] {
      assert |multiset(b)| == 0;
    } else {
      var n := |a| - 1;
      assert a[n] in multiset(b);
      var i :| 0 <= i < |b| && b[i] == a[n];
      Without(a, n);
      Without(b, i);
      assert a[..n] + a[n + 1..] == a[..n];
      TotalWithout(b, i);
      TotalPermuted(a[..n], b[..i] + b[i + 1..]);
    }
  }

  lemma {:induction false} TotalAppend(a: seq<Process>, b: seq<Process>)
    ensures Timekeeping.TotalSlices(a + b) == Timekeeping.TotalSlices(a) + Timekeeping.TotalSlices(b)
    decreases |b|
  {
    if b == [] {
      assert a + b == a;
    } else {
      var n := |b| - 1;
      assert (a + b)[..|a + b| - 1] == a + b[..n];
      TotalAppend(a, b[..n]);
    }
  }

  lemma TotalWithout(b: seq<Process>, i: nat)
    requires i < |b|
    ensures Timekeeping.TotalSlices(b) == Timekeeping.TotalSlices(b[..i] + b[i + 1..]) + |b[i].slices|
  {
    assert b == b[..i] + [b[i]] + b[i + 1..];
    TotalAppend(b[..i] + [b[i]], b[i + 1..]);
    TotalAppend(b[..i], [b[i]]);
    TotalAppend(b[..i], b[i + 1..]);
    assert [b[i]][..0] == [];
    assert Timekeeping.TotalSlices([b[i]]) == |b[i].slices|;
  }

  lemma Without<T>(q: seq<T>, i: nat)
    requires i < |q|
    ensures multiset(q[..i] + q[i + 1..]) == multiset(q) - multiset{q[i]}
  {
    assert q == q[..i] + [q[i]] + q[i + 1..];
  }
}
