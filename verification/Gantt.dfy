/** The Gantt chart an observer builds from the notices alone, and why it is exact. */
module Gantt {
  import opened Types
  import opened Programs
  import opened Logs
  import opened Machine
  import opened Consistency
  import opened Lives
  import opened Projection
  import opened Outcomes
  import opened Timing

  // endTick is -1 while the segment is open.
  datatype Segment = Segment(startTick: int, endTick: int, state: ProcessState)

  datatype Row = Row(pid: Pid, segments: seq<Segment>)

  datatype Chart = Chart(rows: seq<Row>, clock: int)

  const EMPTY_CHART := Chart([], 0)

  // The first row of process p; |rows| if there is none.
  function FindRow(rows: seq<Row>, p: Pid): (i: nat)
    ensures i <= |rows|
    ensures i < |rows| ==> rows[i].pid == p
    ensures forall j | 0 <= j < i :: rows[j].pid != p
  {
    if rows == [] || rows[0].pid == p then 0 else 1 + FindRow(rows[1..], p)
  }

  function CloseLast(segments: seq<Segment>, tick: int): seq<Segment> {
    if segments == [] then [] else segments[|segments| - 1 := segments[|segments| - 1].(endTick := tick)]
  }

  // One notice: GanttModel::onProcessCreated, onStateTransitioned, onTickCompleted.
  function Observe(c: Chart, e: Notice): Chart {
    match e
    case Created(p) => c.(rows := c.rows + [Row(p, [Segment(c.clock, -1, New)])])
    case Transitioned(p, _, to) =>
      var i := FindRow(c.rows, p);
      if i == |c.rows| then c
      else
        var segments := CloseLast(c.rows[i].segments, c.clock) + [Segment(c.clock, -1, to)];
        c.(rows := c.rows[i := Row(p, segments)])
    case TickDone(tick) => c.(clock := tick)
    case _ => c
  }

  function ChartOf(log: seq<Notice>): Chart {
    if log == [] then EMPTY_CHART else Observe(ChartOf(log[..|log| - 1]), log[|log| - 1])
  }

  // The time a report attributes to a state: an open segment counts up to the clock.
  function Reported(segments: seq<Segment>, clock: int, s: ProcessState): int {
    if segments == [] then 0
    else
      var last := segments[|segments| - 1];
      Reported(segments[..|segments| - 1], clock, s)
      + if last.state == s then (if last.endTick == -1 then clock else last.endTick) - last.startTick else 0
  }

  // A history drawn as segments: each ends where the next begins, the last is open.
  function Drawn(h: seq<Stamp>): (s: seq<Segment>)
    ensures |s| == |h|
  {
    seq(|h|, i requires 0 <= i < |h| => Segment(h[i].tick, if i + 1 < |h| then h[i + 1].tick else -1, h[i].state))
  }

  // The row of p in a chart shows exactly the history of p.
  ghost predicate Shows(c: Chart, p: Pid, h: seq<Stamp>) {
    var i := FindRow(c.rows, p);
    if h == [] then i == |c.rows| else i < |c.rows| && c.rows[i].segments == Drawn(h)
  }

  // Each history begins with its only NEW, and no notice reports a change back to NEW.
  ghost predicate WellBegun(log: seq<Notice>) {
    && (forall e | e in log && e.Transitioned? :: e.to != New)
    && (forall p :: var h := History(log, p); h == [] || (h[0].state == New && Count(h, New) == 1))
  }

  lemma RowUnaffected(rows: seq<Row>, i: nat, r: Row, p: Pid)
    requires i < |rows| && rows[i].pid == r.pid
    ensures FindRow(rows[i := r], p) == FindRow(rows, p)
  {
    var a, b := FindRow(rows[i := r], p), FindRow(rows, p);
    assert forall j | 0 <= j < |rows| :: rows[i := r][j].pid == rows[j].pid;
    assert a < |rows| ==> rows[a].pid == p;
    assert b < |rows| ==> rows[i := r][b].pid == p;
  }

  lemma {:induction false} RowAppended(rows: seq<Row>, r: Row, p: Pid)
    ensures FindRow(rows + [r], p) == if FindRow(rows, p) == |rows| && r.pid != p then |rows| + 1 else FindRow(rows, p)
  {
    var a, b := FindRow(rows + [r], p), FindRow(rows, p);
    assert forall j | 0 <= j < |rows| :: (rows + [r])[j] == rows[j];
    assert a < |rows| ==> rows[a].pid == p;
    assert b < |rows| || r.pid == p ==> (rows + [r])[b].pid == p;
  }

  lemma DrawnGrows(h: seq<Stamp>, x: Stamp)
    ensures Drawn(h + [x]) == CloseLast(Drawn(h), x.tick) + [Segment(x.tick, -1, x.state)]
  {
  }

  lemma {:induction false} CountPrefix(h: seq<Stamp>, n: nat, s: ProcessState)
    requires n <= |h|
    ensures Count(h[..n], s) <= Count(h, s)
    decreases |h|
  {
    if n < |h| {
      CountPrefix(h[..|h| - 1], n, s);
      assert h[..|h| - 1][..n] == h[..n];
    } else {
      assert h[..n] == h;
    }
  }

  lemma {:induction false} CountsFirst(h: seq<Stamp>)
    requires h != []
    ensures Count(h, h[0].state) >= 1
    decreases |h|
  {
    if |h| > 1 {
      CountsFirst(h[..|h| - 1]);
    }
  }

  // A log that begins well begins well at every earlier point.
  lemma BeganWell(log: seq<Notice>, e: Notice)
    requires WellBegun(log + [e])
    ensures WellBegun(log)
    ensures e.Created? ==> History(log, e.pid) == []
    ensures e.Transitioned? ==> History(log, e.pid) != []
  {
    LogGrows(log, e);
    assert forall x | x in log :: x in log + [e];
    assert (log + [e])[|log|] == e;
    forall p
      ensures var h := History(log, p); h == [] || (h[0].state == New && Count(h, New) == 1)
      ensures e.Created? && e.pid == p ==> History(log, p) == []
    {
      var h, h' := History(log, p), History(log + [e], p);
      if h != [] {
        CountsFirst(h);
        assert h'[..|h|] == h;
        CountPrefix(h', |h|, New);
        if e.Created? && e.pid == p {
          HistoryGrows(h, Stamp(Clock(log), New));
        }
      }
    }
  }

  lemma Observed(c: Chart, log: seq<Notice>, e: Notice, p: Pid)
    requires c.clock == Clock(log) && forall q :: Shows(c, q, History(log, q))
    requires e.Created? ==> History(log, e.pid) == []
    requires e.Transitioned? ==> History(log, e.pid) != []
    ensures Observe(c, e).clock == Clock(log + [e])
    ensures Shows(Observe(c, e), p, History(log + [e], p))
  {
    LogGrows(log, e);
    assert Shows(c, p, History(log, p));
    match e {
      case Created(q) => ObservedCreation(c, q, p, History(log, p));
      case Transitioned(q, from, to) =>
        assert Shows(c, q, History(log, q));
        ObservedTransition(c, q, from, to, p, History(log, p));
      case _ =>
    }
  }

  lemma ObservedCreation(c: Chart, q: Pid, p: Pid, h: seq<Stamp>)
    requires Shows(c, p, h) && (p == q ==> h == [])
    ensures Shows(Observe(c, Created(q)), p, h + if p == q then [Stamp(c.clock, New)] else [])
  {
    RowAppended(c.rows, Row(q, [Segment(c.clock, -1, New)]), p);
    assert Drawn([Stamp(c.clock, New)]) == [Segment(c.clock, -1, New)];
    assert h + [] == h && [] + [Stamp(c.clock, New)] == [Stamp(c.clock, New)];
  }

  lemma ObservedTransition(c: Chart, q: Pid, from: ProcessState, to: ProcessState, p: Pid, h: seq<Stamp>)
    requires Shows(c, p, h) && (p == q ==> h != []) && FindRow(c.rows, q) < |c.rows|
    ensures Shows(Observe(c, Transitioned(q, from, to)), p, h + if p == q then [Stamp(c.clock, to)] else [])
  {
    var i := FindRow(c.rows, q);
    RowUnaffected(c.rows, i, Row(q, CloseLast(c.rows[i].segments, c.clock) + [Segment(c.clock, -1, to)]), p);
    DrawnGrows(h, Stamp(c.clock, to));
    assert h + [] == h;
  }

  /** The chart an observer draws shows the history of every process, from the notices alone. */
  lemma {:induction false} ChartShowsHistories(log: seq<Notice>)
    requires WellBegun(log)
    ensures ChartOf(log).clock == Clock(log)
    ensures forall p :: Shows(ChartOf(log), p, History(log, p))
    decreases |log|
  {
    if log != [] {
      var before, e := log[..|log| - 1], log[|log| - 1];
      assert before + [e] == log;
      BeganWell(before, e);
      ChartShowsHistories(before);
      forall p
        ensures Shows(ChartOf(log), p, History(log, p))
        ensures ChartOf(log).clock == Clock(log)
      {
        Observed(ChartOf(before), before, e, p);
      }
    }
  }

  // ---------- the chart of a reachable kernel ----------

  // Each segment ends where the next begins, with a legal transition; only the last is open.
  ghost predicate Contiguous(segments: seq<Segment>) {
    && segments != [] && segments[0].state == New
    && (forall i | 0 <= i < |segments| - 1 ::
          && 0 <= segments[i].startTick <= segments[i].endTick == segments[i + 1].startTick
          && Follows(segments[i].state, segments[i + 1].state))
    && segments[|segments| - 1].endTick == -1
  }

  lemma DrawnContiguous(v: Life, clock: int)
    requires Chronicled(v, clock)
    ensures Contiguous(Drawn(v.hist))
  {
  }

  lemma {:induction false} ReportedClosed(h: seq<Stamp>, tick: int, clock: int, s: ProcessState)
    requires h != [] && tick >= 0 && forall i | 0 <= i < |h| :: h[i].tick >= 0
    ensures Reported(CloseLast(Drawn(h), tick), clock, s) ==
            TimeIn(h, s) + if h[|h| - 1].state == s then tick - h[|h| - 1].tick else 0
    decreases |h|
  {
    var n := |h| - 1;
    var x := h[n];
    var closed := CloseLast(Drawn(h), tick);
    if n == 0 {
      assert closed[..0] == [];
    } else {
      var b := h[..n];
      ReportedClosed(b, x.tick, clock, s);
      DrawnGrows(b, x);
      assert b + [x] == h;
      assert closed[..n] == CloseLast(Drawn(b), x.tick);
    }
  }

  lemma ReportedOpen(h: seq<Stamp>, clock: int, s: ProcessState)
    requires h != [] && clock >= 0 && forall i | 0 <= i < |h| :: h[i].tick >= 0
    ensures Reported(Drawn(h), clock, s) ==
            TimeIn(h, s) + if h[|h| - 1].state == s then clock - h[|h| - 1].tick else 0
  {
    ReportedClosed(h, clock, clock, s);
    var n := |h| - 1;
    assert Drawn(h)[..n] == CloseLast(Drawn(h), clock)[..n];
  }

  lemma LogWellBegun(k: System)
    requires Inv(k) && Lively(k)
    ensures WellBegun(k.log)
  {
    forall p
      ensures var h := History(k.log, p); h == [] || (h[0].state == New && Count(h, New) == 1)
    {
      if p in k.procs {
        assert Sound(k.meta[p], Slice(k), k.now, LifeOf(k, p));
      }
    }
    assert forall e | e in k.log :: Ordinary(e);
  }

  // What the chart says about one process.
  ghost predicate Charted(k: System, p: Pid, segments: seq<Segment>)
    requires p in k.procs
  {
    && segments == Drawn(History(k.log, p))
    && Contiguous(segments) && segments[|segments| - 1].state == k.procs[p].state
    && Reported(segments, k.now, Running) == k.procs[p].used + Bit(k.procs[p].state == Running)
  }

  lemma LifeReported(g: Program, slice: int, now: int, v: Life)
    requires slice >= 1 && now >= 0 && Sound(g, slice, now, v) && Timed(g, now, v)
    ensures Contiguous(Drawn(v.hist))
    ensures Reported(Drawn(v.hist), now, Running) == v.used + Bit(StateOf(v) == Running)
    ensures StateOf(v) == Terminated ==> Reported(Drawn(v.hist), now, Blocked) == IoTime(g.profile, Finish(g))
  {
    DrawnContiguous(v, now);
    ReportedOpen(v.hist, now, Running);
    ReportedOpen(v.hist, now, Blocked);
  }

  lemma ChartedInState(k: System, p: Pid)
    requires Inv(k) && Lively(k) && Punctual(k) && p in k.procs
    ensures p in k.meta
    ensures var c := ChartOf(k.log);
      var i := FindRow(c.rows, p);
      && c.clock == k.now
      && i < |c.rows| && Charted(k, p, c.rows[i].segments)
      && (k.procs[p].state == Terminated ==>
            Reported(c.rows[i].segments, k.now, Blocked) == IoTime(k.meta[p].profile, Finish(k.meta[p])))
  {
    LogWellBegun(k);
    ChartShowsHistories(k.log);
    LifeState(k, k.blocked, p);
    LifeReported(k.meta[p], Slice(k), k.now, LifeOf(k, p));
    assert Shows(ChartOf(k.log), p, History(k.log, p));
  }

  /** The chart is exact: contiguous from the creation on, legal, with only the last segment open. The
      RUNNING time it reports is the CPU time, plus one while the process is running because dispatches
      are stamped one tick before the first CPU tick; the BLOCKED time of a terminated process is the
      pauses of its fired syscalls. */
  lemma GanttIsExact(k: System, p: Pid)
    requires ReachableByUnitTicks(k) && p in k.procs
    ensures p in k.meta
    ensures var c := ChartOf(k.log);
      var i := FindRow(c.rows, p);
      && c.clock == k.now
      && i < |c.rows| && Charted(k, p, c.rows[i].segments)
      && (k.procs[p].state == Terminated ==>
            Reported(c.rows[i].segments, k.now, Blocked) == IoTime(k.meta[p].profile, Finish(k.meta[p])))
  {
    ReachablePunctual(k);
    ReachableSound(k);
    ChartedInState(k, p);
  }
}
