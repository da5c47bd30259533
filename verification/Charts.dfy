// The chart of a log of terminated processes: who ran when, and the span it is drawn over
// (src/kernel/processlog.cpp, src/kernel/errorhandler.cpp).
module Charts {
  import opened Options
  import opened Machine
  import opened Processes
  import opened System
  import opened Census
  import opened Timekeeping

  // A std::multimap with integer keys: entries by ascending key, equal keys by insertion.
  datatype Entry<V> = Entry(key: int, value: V)
  type Multimap<V> = seq<Entry<V>>

  const INT_MAX: int := 0x7FFF_FFFF

  // Index of the first entry with a larger key.
  function UpperBound<V>(m: Multimap<V>, k: int): (u: nat)
    ensures u <= |m|
  {
    if m == [] || m[0].key > k then 0 else 1 + UpperBound(m[1..], k)
  }

  function Insert<V>(m: Multimap<V>, k: int, v: V): Multimap<V> {
    var u := UpperBound(m, k);
    m[..u] + [Entry(k, v)] + m[u..]
  }

  // One entry per slice.
  function InsertAll(m: Multimap<int>, slices: seq<int>, pid: int): Multimap<int>
    decreases |slices|
  {
    if slices == [] then m else InsertAll(Insert(m, slices[0], pid), slices[1..], pid)
  }

  // The chart of the processes `ps`, logged in order.
  function ChartOf(ps: seq<Process>): Multimap<int>
    decreases |ps|
  {
    if ps == [] then []
    else InsertAll(ChartOf(ps[..|ps| - 1]), ps[|ps| - 1].slices, ps[|ps| - 1].pid)
  }

  // ---------- what a chart contains ----------

  ghost predicate Sorted<V>(m: Multimap<V>) {
    forall i, j :: 0 <= i < j < |m| ==> m[i].key <= m[j].key
  }

  ghost predicate Strict<V>(m: Multimap<V>) {
    forall i, j :: 0 <= i < j < |m| ==> m[i].key < m[j].key
  }

  ghost predicate HasKey<V>(m: Multimap<V>, k: int) {
    exists i :: 0 <= i < |m| && m[i].key == k
  }

  lemma {:induction false} UpperBoundSplits<V>(m: Multimap<V>, k: int)
    requires Sorted(m)
    ensures var u := UpperBound(m, k);
            && (forall i :: 0 <= i < u ==> m[i].key <= k) && forall i :: u <= i < |m| ==> m[i].key > k
  {
    if m != [] && m[0].key <= k {
      UpperBoundSplits(m[1..], k);
      var u := UpperBound(m, k);
      forall i | 0 <= i < |m|
        ensures if i < u then m[i].key <= k else m[i].key > k
      {
        if i > 0 {
          assert m[i] == m[1..][i - 1];
        }
      }
    }
  }

  lemma InsertSorted<V>(m: Multimap<V>, k: int, v: V)
    requires Sorted(m)
    ensures var t := Insert(m, k, v);
            Sorted(t) && |t| == |m| + 1 && multiset(t) == multiset(m) + multiset{Entry(k, v)}
  {
    var u, t := UpperBound(m, k), Insert(m, k, v);
    assert m == m[..u] + m[u..];
    forall i, j | 0 <= i < j < |t|
      ensures t[i].key <= t[j].key
    {
      SortedPair(m, k, v, i, j);
    }
    hide UpperBound;
  }

  lemma SortedPair<V>(m: Multimap<V>, k: int, v: V, i: nat, j: nat)
    requires Sorted(m) && i < j <= |m|
    ensures |Insert(m, k, v)| == |m| + 1 && Insert(m, k, v)[i].key <= Insert(m, k, v)[j].key
  {
    UpperBoundSplits(m, k);
    var u, t := UpperBound(m, k), Insert(m, k, v);
    assert i != u ==> t[i] == m[if i < u then i else i - 1];
    assert j != u ==> t[j] == m[if j < u then j else j - 1];
  }

  lemma InsertStrict<V>(m: Multimap<V>, k: int, v: V)
    requires Strict(m) && !HasKey(m, k)
    ensures Strict(Insert(m, k, v)) && |Insert(m, k, v)| == |m| + 1
  {
    forall i, j | 0 <= i < j < |Insert(m, k, v)|
      ensures Insert(m, k, v)[i].key < Insert(m, k, v)[j].key
    {
      InsertPair(m, k, v, i, j);
    }
  }

  // Where the entries go.
  lemma InsertAt<V>(m: Multimap<V>, k: int, v: V, i: nat)
    requires Strict(m) && !HasKey(m, k) && i <= |m|
    ensures var u, t := UpperBound(m, k), Insert(m, k, v);
            && |t| == |m| + 1
            && (i < u ==> t[i] == m[i] && m[i].key < k)
            && (i == u ==> t[i].key == k)
            && (i > u ==> t[i] == m[i - 1] && m[i - 1].key > k)
  {
    UpperBoundSplits(m, k);
    assert i < |m| ==> HasKey(m, m[i].key);
  }

  lemma InsertPair<V>(m: Multimap<V>, k: int, v: V, i: nat, j: nat)
    requires Strict(m) && !HasKey(m, k) && i < j <= |m|
    ensures |Insert(m, k, v)| == |m| + 1 && Insert(m, k, v)[i].key < Insert(m, k, v)[j].key
  {
    InsertAt(m, k, v, i);
    InsertAt(m, k, v, j);
    hide Insert;
    hide HasKey;
    var u := UpperBound(m, k);
    if j < u {
      assert m[i].key < m[j].key;
    } else if i > u {
      assert m[i - 1].key < m[j - 1].key;
    }
  }

  lemma InsertMembers<V>(m: Multimap<V>, k: int, v: V, e: Entry<V>)
    ensures e in Insert(m, k, v) <==> e in m || e == Entry(k, v)
  {
    var u := UpperBound(m, k);
    assert m == m[..u] + m[u..];
  }

  lemma InsertKeys<V>(m: Multimap<V>, k: int, v: V, x: int)
    ensures HasKey(Insert(m, k, v), x) <==> HasKey(m, x) || x == k
  {
    var u, t := UpperBound(m, k), Insert(m, k, v);
    assert t[u].key == k;
    assert forall i :: 0 <= i < u ==> t[i] == m[i];
    assert forall i :: u <= i < |m| ==> t[i + 1] == m[i];
    if HasKey(m, x) {
      var i :| 0 <= i < |m| && m[i].key == x;
      assert t[if i < u then i else i + 1].key == x;
    }
    if HasKey(t, x) && x != k {
      var i :| 0 <= i < |t| && t[i].key == x;
      assert m[if i < u then i else i - 1].key == x;
    }
  }

  ghost predicate Increasing(slices: seq<int>) {
    forall i, j :: 0 <= i < j < |slices| ==> slices[i] < slices[j]
  }

  lemma {:induction false} InsertAllStrict(m: Multimap<int>, slices: seq<int>, pid: int)
    requires Strict(m) && Increasing(slices) && forall i :: 0 <= i < |slices| ==> !HasKey(m, slices[i])
    ensures Strict(InsertAll(m, slices, pid)) && |InsertAll(m, slices, pid)| == |m| + |slices|
    decreases |slices|
  {
    if slices != [] {
      var t := Insert(m, slices[0], pid);
      InsertStrict(m, slices[0], pid);
      forall i | 0 <= i < |slices[1..]|
        ensures !HasKey(t, slices[1..][i])
      {
        InsertKeys(m, slices[0], pid, slices[i + 1]);
      }
      hide Insert;
      hide Strict;
      InsertAllStrict(t, slices[1..], pid);
    }
  }

  lemma {:induction false} InsertAllMembers(m: Multimap<int>, slices: seq<int>, pid: int, e: Entry<int>)
    ensures e in InsertAll(m, slices, pid) <==> e in m || (e.key in slices && e.value == pid)
    decreases |slices|
  {
    if slices != [] {
      InsertMembers(m, slices[0], pid, e);
      InsertAllMembers(Insert(m, slices[0], pid), slices[1..], pid, e);
      assert slices == [slices[0]] + slices[1..];
    }
  }

  lemma {:induction false} InsertAllKeys(m: Multimap<int>, slices: seq<int>, pid: int, x: int)
    ensures HasKey(InsertAll(m, slices, pid), x) <==> HasKey(m, x) || x in slices
    decreases |slices|
  {
    if slices != [] {
      InsertKeys(m, slices[0], pid, x);
      InsertAllKeys(Insert(m, slices[0], pid), slices[1..], pid, x);
      assert slices == [slices[0]] + slices[1..];
    }
  }

  // Logged processes: disjoint, increasing slices.
  ghost predicate Chartable(ps: seq<Process>) {
    && (forall x :: 0 <= x < |ps| ==> Increasing(ps[x].slices))
    && forall x, y, k :: 0 <= x < y < |ps| && k in ps[x].slices ==> k !in ps[y].slices
  }

  ghost predicate Ran(p: Process, e: Entry<int>) {
    e.key in p.slices && e.value == p.pid
  }

  // Some process of `ps` executed the instruction that the entry shows.
  ghost predicate Shows(ps: seq<Process>, e: Entry<int>) {
    exists x :: 0 <= x < |ps| && Ran(ps[x], e)
  }

  ghost predicate Busy(ps: seq<Process>, k: int) {
    exists x :: 0 <= x < |ps| && k in ps[x].slices
  }

  lemma ShowsLast(ps: seq<Process>, e: Entry<int>)
    requires ps != []
    ensures Shows(ps, e) <==> Shows(ps[..|ps| - 1], e) || Ran(ps[|ps| - 1], e)
  {
    var n := |ps| - 1;
    if Shows(ps[..n], e) {
      var x :| 0 <= x < n && Ran(ps[..n][x], e);
      assert Ran(ps[x], e);
    }
    if Shows(ps, e) && !Ran(ps[n], e) {
      var x :| 0 <= x < |ps| && Ran(ps[x], e);
      assert Ran(ps[..n][x], e);
    }
  }

  lemma BusyLast(ps: seq<Process>, k: int)
    requires ps != []
    ensures Busy(ps, k) <==> Busy(ps[..|ps| - 1], k) || k in ps[|ps| - 1].slices
  {
    var n := |ps| - 1;
    if Busy(ps[..n], k) {
      var x :| 0 <= x < n && k in ps[..n][x].slices;
      assert k in ps[x].slices;
    }
    if Busy(ps, k) && k !in ps[n].slices {
      var x :| 0 <= x < |ps| && k in ps[x].slices;
      assert k in ps[..n][x].slices;
    }
  }

  lemma LastApart(ps: seq<Process>, k: int)
    requires Chartable(ps) && ps != [] && k in ps[|ps| - 1].slices
    ensures !Busy(ps[..|ps| - 1], k)
  {
  }

  // A chart has no duplicate time, as many entries as instructions, and says of every
  // instruction which process executed it.
  lemma {:induction false} ChartStrict(ps: seq<Process>)
    requires Chartable(ps)
    ensures var t := ChartOf(ps);
            && Strict(t) && |t| == TotalSlices(ps)
            && (forall e :: e in t <==> Shows(ps, e))
            && (forall k :: HasKey(t, k) <==> Busy(ps, k))
    decreases |ps|
  {
    if ps != [] {
      var n := |ps| - 1;
      var before, last := ChartOf(ps[..n]), ps[n];
      ChartStrict(ps[..n]);
      forall i | 0 <= i < |last.slices|
        ensures !HasKey(before, last.slices[i])
      {
        LastApart(ps, last.slices[i]);
      }
      InsertAllStrict(before, last.slices, last.pid);
      var t := ChartOf(ps);
      assert t == InsertAll(before, last.slices, last.pid);
      hide *;
      forall e
        ensures e in t <==> Shows(ps, e)
      {
        ShowsLast(ps, e);
        RanIs(last, e);
        InsertAllMembers(before, last.slices, last.pid, e);
      }
      forall k
        ensures HasKey(t, k) <==> Busy(ps, k)
      {
        BusyLast(ps, k);
        InsertAllKeys(before, last.slices, last.pid, k);
      }
    }
  }

  lemma RanIs(p: Process, e: Entry<int>)
    ensures Ran(p, e) <==> e.key in p.slices && e.value == p.pid
  {
  }

  // ---------- the span ----------

  // The earliest arrival of a process that ran.
  function Earliest(ps: seq<Process>): int {
    if ps == [] then INT_MAX
    else
      var rest, p := Earliest(ps[..|ps| - 1]), ps[|ps| - 1];
      if p.slices != [] && p.arrival < rest then p.arrival else rest
  }

  function Latest(ps: seq<Process>): int {
    if ps == [] then 0
    else
      var rest, p := Latest(ps[..|ps| - 1]), ps[|ps| - 1];
      if p.slices != [] && p.slices[|p.slices| - 1] > rest then p.slices[|p.slices| - 1] else rest
  }

  lemma {:induction false} SpanBounds(ps: seq<Process>)
    ensures forall x :: 0 <= x < |ps| && ps[x].slices != [] ==>
              Earliest(ps) <= ps[x].arrival && LastSlice(ps[x]) <= Latest(ps)
    ensures Latest(ps) == 0 || exists x :: 0 <= x < |ps| && ps[x].slices != [] && LastSlice(ps[x]) == Latest(ps)
    ensures Earliest(ps) == INT_MAX || exists x :: 0 <= x < |ps| && ps[x].slices != [] && ps[x].arrival == Earliest(ps)
  {
    if ps != [] {
      var n := |ps| - 1;
      SpanBounds(ps[..n]);
      assert forall x :: 0 <= x < n ==> ps[..n][x] == ps[x];
    }
  }

  // What the cursor walk needs of a chart and a span.
  ghost predicate Drawable(chart: Multimap<int>, start: int, end: int) {
    && chart != [] && Strict(chart)
    && start <= chart[0].key && chart[|chart| - 1].key == end
  }

  // The processes of a log, in the order in which they terminated.
  function Finished(s: State): seq<Process> {
    seq(|s.terminated|, i requires 0 <= i < |s.terminated| => Get(s, s.terminated[i]))
  }

  lemma TerminatedChartable(s: State)
    requires Sound(s) && Booked(s) && Exclusive(s.pcbs)
    ensures Chartable(Finished(s))
    ensures forall i :: 0 <= i < |s.terminated| ==> s.terminated[i] < |s.pcbs|
  {
    forall i | 0 <= i < |s.terminated|
      ensures s.terminated[i] < |s.pcbs|
    {
      assert Places(s, s.terminated[i]) == if s.terminated[i] < |s.pcbs| then 1 else 0;
    }
    forall x, y | 0 <= x < y < |s.terminated|
      ensures s.terminated[x] != s.terminated[y]
    {
      assert Places(s, s.terminated[x]) <= 1;
      if s.terminated[x] == s.terminated[y] {
        TwiceIn(s.terminated, x, y);
      }
    }
    var ps := Finished(s);
    forall x, y, k | 0 <= x < y < |ps| && k in ps[x].slices
      ensures k !in ps[y].slices
    {
      SlicesApart(s, s.terminated[x], s.terminated[y], k);
    }
  }

  lemma TwiceIn(q: seq<nat>, x: nat, y: nat)
    requires x < y < |q| && q[x] == q[y]
    ensures Occ(q, q[x]) >= 2
  {
    assert q == q[..y] + [q[y]] + q[y + 1..];
    assert q[..y][x] == q[x];
  }

  lemma SlicesApart(s: State, a: nat, b: nat, k: int)
    requires Exclusive(s.pcbs) && a < |s.pcbs| && b < |s.pcbs| && a != b && k in s.pcbs[a].slices
    ensures k !in s.pcbs[b].slices
  {
  }

  // The log of the processes that have terminated by the end of any run can be drawn, over the
  // span computed from any reordering `ps` of them, and has one entry per instruction.
  lemma LogDrawable(es: seq<Event>, ps: seq<Process>)
    requires Run(Boot(), es).terminated != [] && multiset(ps) == multiset(Finished(Run(Boot(), es)))
    ensures var log := Finished(Run(Boot(), es));
            Drawable(ChartOf(log), Earliest(ps), Latest(ps)) && |ChartOf(log)| == TotalSlices(log)
  {
    var s := Run(Boot(), es);
    RunExclusive(Boot(), es);
    BootSound();
    RunBooked(Boot(), es);
    TerminatedChartable(s);
    var log := Finished(s);
    ChartStrict(log);
    forall x | 0 <= x < |log|
      ensures log[x].slices != [] && log[x] in ps && Accounted(log[x], s.clock)
    {
      assert Done(s, s.terminated[x]) && Closed(s.pcbs[s.terminated[x]]);
      assert log[x] in multiset(log);
    }
    forall x | 0 <= x < |ps|
      ensures ps[x] in log
    {
      assert ps[x] in multiset(ps);
    }
    DrawnOver(log, ps, s.clock);
  }

  lemma DrawnOver(log: seq<Process>, ps: seq<Process>, clock: int)
    requires Chartable(log) && log != [] && forall x :: 0 <= x < |ps| ==> ps[x] in log
    requires forall x :: 0 <= x < |log| ==> log[x].slices != [] && log[x] in ps && Accounted(log[x], clock)
    ensures Drawable(ChartOf(log), Earliest(ps), Latest(ps))
  {
    hide *;
    ChartStrict(log);
    LatestIsKey(log, ps, clock);
    forall k | HasKey(ChartOf(log), k)
      ensures Earliest(ps) <= k <= Latest(ps)
    {
      BusyInSpan(log, ps, clock, k);
    }
    DrawableSpan(ChartOf(log), Earliest(ps), Latest(ps));
  }

  lemma DrawableSpan(chart: Multimap<int>, start: int, end: int)
    requires Strict(chart) && HasKey(chart, end) && forall k :: HasKey(chart, k) ==> start <= k <= end
    ensures Drawable(chart, start, end)
  {
    LastKey(chart, end);
    assert HasKey(chart, chart[0].key);
  }

  lemma BusyInSpan(log: seq<Process>, ps: seq<Process>, clock: int, k: int)
    requires forall x :: 0 <= x < |log| ==> log[x].slices != [] && log[x] in ps && Accounted(log[x], clock)
    requires Busy(log, k)
    ensures Earliest(ps) <= k <= Latest(ps)
  {
    var x :| 0 <= x < |log| && k in log[x].slices;
    KeyInSpan(log[x], clock, k);
    var y :| 0 <= y < |ps| && ps[y] == log[x];
    SpanBounds(ps);
  }

  lemma KeyInSpan(p: Process, clock: int, k: int)
    requires Accounted(p, clock) && k in p.slices
    ensures p.arrival < k <= LastSlice(p) && k > 0
  {
    var i :| 0 <= i < |p.slices| && p.slices[i] == k;
    assert i < |p.slices| - 1 ==> p.slices[i] < p.slices[|p.slices| - 1];
  }

  lemma LatestIsKey(log: seq<Process>, ps: seq<Process>, clock: int)
    requires Chartable(log) && log != [] && forall x :: 0 <= x < |ps| ==> ps[x] in log
    requires forall x :: 0 <= x < |log| ==> log[x].slices != [] && log[x] in ps && Accounted(log[x], clock)
    ensures HasKey(ChartOf(log), Latest(ps))
  {
    ChartStrict(log);
    SpanBounds(ps);
    var y :| 0 <= y < |ps| && ps[y] == log[0];
    KeyInSpan(log[0], clock, log[0].slices[0]);
    assert Latest(ps) > 0;
    var x :| 0 <= x < |ps| && ps[x].slices != [] && LastSlice(ps[x]) == Latest(ps);
    var z :| 0 <= z < |log| && log[z] == ps[x];
    assert Latest(ps) in log[z].slices;
  }

  lemma LastKey(chart: Multimap<int>, k: int)
    requires Strict(chart) && HasKey(chart, k) && forall x :: HasKey(chart, x) ==> x <= k
    ensures chart != [] && chart[|chart| - 1].key == k
  {
    var i :| 0 <= i < |chart| && chart[i].key == k;
    assert HasKey(chart, chart[|chart| - 1].key);
  }

  // ---------- logged processes are closed books ----------

  // A process that has terminated keeps all its times, whatever happens next.
  lemma DoneKept(s: State, e: Event, h: nat)
    requires Sound(s) && Done(s, h)
    ensures Sound(Apply(s, e)) && Done(Apply(s, e), h) && LedgerAt(Apply(s, e), h) == LedgerAt(s, h)
  {
    ApplySound(s, e);
    if h >= |s.pcbs| {
      UnknownNotDone(s, h);
    }
    match e
    case Tick(p) =>
      StepLedger(p, s, h);
      if Executor(p, s).Some? {
        ExecutorExists(p, s);
      }
    case Arrive(name, image) =>
    case NewSemaphore(value, one, two) => OtherLedgers(s, e, h);
    case OpenSegment(size, one, two) => OtherLedgers(s, e, h);
    case Log => OtherLedgers(s, e, h);
  }

  lemma {:induction false} DoneForGood(s: State, es: seq<Event>, h: nat)
    requires Sound(s) && Done(s, h)
    ensures Done(Run(s, es), h) && LedgerAt(Run(s, es), h) == LedgerAt(s, h)
    decreases |es|
  {
    if es != [] {
      DoneKept(s, es[0], h);
      DoneForGood(Apply(s, es[0]), es[1..], h);
    }
  }
}
