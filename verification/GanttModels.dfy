/** The observer that draws the Gantt chart: it updates its rows in place, notice by notice. */
module GanttModels {
  import opened Types
  import opened Gantt

  // Index i is that of the first row of process p.
  ghost predicate FirstOf(rows: seq<Row>, p: Pid, i: nat) {
    i < |rows| && rows[i].pid == p && forall j | 0 <= j < i :: rows[j].pid != p
  }

  lemma OnlyOneFirst(rows: seq<Row>, p: Pid)
    ensures forall i: nat | FirstOf(rows, p, i) :: i == FindRow(rows, p)
  {
    var found := FindRow(rows, p);
    assert found < |rows| ==> rows[found].pid == p;
  }

  // The last segment has been closed, and an open one of state s added.
  ghost predicate Continues(before: seq<Segment>, after: seq<Segment>, tick: int, s: ProcessState) {
    && |after| == |before| + 1 && after[|before|] == Segment(tick, -1, s)
    && (forall j | 0 <= j < |before| - 1 :: after[j] == before[j])
    && (before != [] ==>
          var last := |before| - 1;
          after[last] == Segment(before[last].startTick, tick, before[last].state))
  }

  class GanttModel {
    var processes: seq<Row>
    var currentTick: int

    function Abs(): Chart
      reads this
    {
      Chart(processes, currentTick)
    }

    constructor ()
      ensures Abs() == EMPTY_CHART && processes == [] && currentTick == 0
    {
      processes, currentTick := [], 0;
    }

    method Clear()
      modifies this
      ensures Abs() == EMPTY_CHART && processes == [] && currentTick == 0
    {
      processes, currentTick := [], 0;
    }

    method FindProcess(pid: Pid) returns (i: nat)
      ensures i == FindRow(processes, pid)
    {
      i := 0;
      while i < |processes|
        invariant 0 <= i <= |processes|
        invariant forall j | 0 <= j < i :: processes[j].pid != pid
      {
        if processes[i].pid == pid {
          break;
        }
        i := i + 1;
      }
      ghost var found := FindRow(processes, pid);
      assert found < |processes| ==> processes[found].pid == pid;
    }

    method OnProcessCreated(pid: Pid)
      modifies this
      ensures Abs() == Observe(old(Abs()), Created(pid)) && currentTick == old(currentTick)
      ensures processes == old(processes) + [Row(pid, [Segment(currentTick, -1, New)])]
    {
      processes := processes + [Row(pid, [Segment(currentTick, -1, New)])];
    }

    method OnStateTransitioned(pid: Pid, from: ProcessState, to: ProcessState)
      modifies this
      ensures Abs() == Observe(old(Abs()), Transitioned(pid, from, to)) && currentTick == old(currentTick)
      ensures (forall j | 0 <= j < |old(processes)| :: old(processes)[j].pid != pid) ==> processes == old(processes)
      ensures forall i: nat | FirstOf(old(processes), pid, i) ::
        && |processes| == |old(processes)|
        && (forall j | 0 <= j < |processes| && j != i :: processes[j] == old(processes)[j])
        && processes[i].pid == pid && Continues(old(processes)[i].segments, processes[i].segments, currentTick, to)
    {
      var i := FindProcess(pid);
      OnlyOneFirst(processes, pid);
      if i == |processes| {
        return;
      }
      var segments := processes[i].segments;
      if segments != [] {
        var last := |segments| - 1;
        segments := segments[last := segments[last].(endTick := currentTick)];
      }
      segments := segments + [Segment(currentTick, -1, to)];
      processes := processes[i := Row(pid, segments)];
    }

    method OnTickCompleted(tick: int)
      modifies this
      ensures Abs() == Observe(old(Abs()), TickDone(tick)) && currentTick == tick && processes == old(processes)
    {
      currentTick := tick;
    }

    // The notices the bridge passes on; the others do not reach the chart.
    method Receive(e: Notice)
      modifies this
      ensures Abs() == Observe(old(Abs()), e)
      ensures !e.Created? && !e.Transitioned? && !e.TickDone? ==> Abs() == old(Abs())
    {
      match e {
        case Created(pid) => OnProcessCreated(pid);
        case Transitioned(pid, from, to) => OnStateTransitioned(pid, from, to);
        case TickDone(tick) => OnTickCompleted(tick);
        case _ =>
      }
    }

    // The sum in the line of the report about a terminated process.
    method RunningTime(pid: Pid) returns (total: int)
      ensures var i := FindRow(processes, pid);
        total == if i == |processes| then 0 else Reported(processes[i].segments, currentTick, Running)
    {
      total := 0;
      var row := FindProcess(pid);
      if row < |processes| {
        var segments := processes[row].segments;
        for i := 0 to |segments|
          invariant total == Reported(segments[..i], currentTick, Running)
        {
          assert segments[..i + 1][..i] == segments[..i];
          if segments[i].state == Running {
            var end := if segments[i].endTick == -1 then currentTick else segments[i].endTick;
            total := total + end - segments[i].startTick;
          }
        }
        assert segments[..|segments|] == segments;
      }
    }
  }

  /** A model that has received every notice of a log, in order, shows the chart of the log. */
  method Replay(log: seq<Notice>) returns (model: GanttModel)
    ensures fresh(model) && model.Abs() == ChartOf(log)
  {
    model := new GanttModel();
    for i := 0 to |log|
      invariant fresh(model) && model.Abs() == ChartOf(log[..i])
    {
      model.Receive(log[i]);
      assert log[..i + 1][..i] == log[..i];
    }
    assert log[..|log|] == log;
  }
}
