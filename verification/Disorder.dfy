/** What becomes of the order of arrival when setPriority is called on processes that are already READY: the queue
    is out of order, and a process may wait without bound for another one of the same priority, or be overtaken by a
    newcomer of the same priority. */
module Disorder {
  import opened Types
  import opened Machine
  import opened Consistency
  import opened Turns
  import opened Projection
  import opened Runs
  import opened Fifo
  import opened Timing
  import opened Termination
  import opened Workloads
  import opened Priorities
  import opened Overtaking
  import opened Levels
  import opened Monopoly
  import opened Simulation

  // ---------- ticks in a kernel where nobody is blocked ----------

  lemma NothingToWake(k: System, now: int, pending: seq<Entry>, completed: seq<Entry>)
    requires k.blocked == [] && IsPartition(k.blocked, now, pending, completed)
    ensures pending == [] && completed == [] && Roused(k, now, pending, completed) == k.(now := now)
  {
    assert |pending| + |completed| == |multiset(pending) + multiset(completed)| == |multiset(k.blocked)| == 0;
  }

  // The tick of an idle CPU dispatches the selected process.
  lemma IdleTickDispatches(k: System, now: int)
    requires Inv(k) && k.cpu.Idle? && k.blocked == [] && k.ready != [] && now > k.now
    ensures Legal(k, Elapse(now, [], []))
    ensures var k' := Tick(k, now, [], []);
      var p := k.ready[Selected(k)];
      && p in k.procs && p in k.meta
      && k'.procs == k.procs[p := k.procs[p].(state := Running)] && k'.ready == Without(k.ready, Selected(k))
      && k'.cpu == Executing(p, k.meta[p].profile, Quantum(k))
      && k'.blocked == [] && k'.meta == k.meta && k'.policy == k.policy && k'.quantum == k.quantum
  {
    var w := Roused(k, now, [], []);
    NothingToWake(k, now, [], []);
    RousedStep(k, now, [], []);
    TickStep(k, now, [], []);
    SettledEffect(w);
    IdleRetires(w);
    SelectedAgain(k, w);
  }

  lemma IdleRetires(w: System)
    requires w.cpu.Idle?
    ensures Retire(w) == w
  {
  }

  lemma SelectedAgain(k: System, w: System)
    requires k.ready != [] && w == k.(now := w.now)
    ensures Selected(w) == Selected(k)
  {
  }

  // ---------- waiting behind an equal ----------

  // The process on the CPU is put back and taken again, as if nothing had happened to the queue.
  lemma TiedSame(w: System, p: Pid)
    requires Consistent(w, w.blocked) && w.policy == Priority && w.cpu.Executing? && w.cpu.pid == p
    requires p in w.procs && p in w.meta && NobodyReadyAbove(w, p)
    requires w.ready != [] && PriorityOf(w.procs, w.ready[0]) < PriorityOf(w.procs, p)
    requires w.procs[p].used + 1 !in w.meta[p].profile && w.procs[p].used + 1 < w.meta[p].estimate
    ensures Settled(w).ready == w.ready && Settled(w).blocked == w.blocked
  {
    var v := Retire(w);
    RetireStep(w);
    TiedRetired(w, v, p);
    SettledEffect(w);
    PutBackAndTaken(w, v, p);
  }

  lemma PutBackAndTaken(w: System, v: System, p: Pid)
    requires w.policy == Priority && w.cpu.Executing? && w.cpu.pid == p && p in w.procs && p in w.meta
    requires w.ready != [] && PriorityOf(w.procs, w.ready[0]) < PriorityOf(w.procs, p)
    requires w.procs[p].used + 1 !in w.meta[p].profile && w.procs[p].used + 1 < w.meta[p].estimate
    requires RetiredAs(w, v, p, Retired(w))
    ensures v.blocked == w.blocked
    ensures v.cpu.Idle? ==> v.ready != [] && Without(v.ready, 0) == w.ready
    ensures v.cpu.Executing? ==> v.ready == w.ready
  {
  }

  // A process of highest priority p, with nobody blocked and a front of lower priority.
  ghost predicate Stuck(k: System, p: Pid) {
    && k.policy == Priority && OnCpu(k, p) && AtMost(k, k.procs[p].priority) && k.blocked == []
    && k.ready != [] && PriorityOf(k.procs, k.ready[0]) < PriorityOf(k.procs, p)
  }

  lemma StuckReady(k: System, now: int, pending: seq<Entry>, completed: seq<Entry>, p: Pid)
    requires Inv(k) && Legal(k, Elapse(now, pending, completed)) && Stuck(k, p) && p in k.meta
    requires k.procs[p].used + 1 !in k.meta[p].profile && k.procs[p].used + 1 < k.meta[p].estimate
    ensures var k' := Tick(k, now, pending, completed);
      k'.ready == k.ready && k'.blocked == [] && k'.meta == k.meta && k'.policy == k.policy
  {
    NothingToWake(k, now, pending, completed);
    RousedUnder(k, now, pending, completed, p);
    RunningIsLoaded(k, p);
    TiedSame(Roused(k, now, pending, completed), p);
    TickStep(k, now, pending, completed);
  }

  lemma StuckRuns(k: System, now: int, pending: seq<Entry>, completed: seq<Entry>, p: Pid)
    requires Inv(k) && Legal(k, Elapse(now, pending, completed)) && Stuck(k, p) && p in k.meta
    requires k.procs[p].used + 1 !in k.meta[p].profile && k.procs[p].used + 1 < k.meta[p].estimate
    ensures var k' := Tick(k, now, pending, completed);
      OnCpu(k', p) && k'.procs[p].used == k.procs[p].used + 1
  {
    NothingToWake(k, now, pending, completed);
    KeepsCpuIff(k, now, pending, completed, p);
  }

  lemma StuckTick(k: System, now: int, pending: seq<Entry>, completed: seq<Entry>, p: Pid)
    requires Inv(k) && Legal(k, Elapse(now, pending, completed)) && Stuck(k, p) && p in k.meta
    requires k.procs[p].used + 1 !in k.meta[p].profile && k.procs[p].used + 1 < k.meta[p].estimate
    ensures var k' := Tick(k, now, pending, completed);
      && Stuck(k', p) && k'.procs[p].used == k.procs[p].used + 1 && k'.meta == k.meta
  {
    StuckReady(k, now, pending, completed, p);
    StuckRuns(k, now, pending, completed, p);
    TickKeepsPriorities(k, now, pending, completed);
    TickKeepsAtMost(k, now, pending, completed, k.procs[p].priority);
    StillStuck(k, Tick(k, now, pending, completed), p);
  }

  // The terminated stay terminated, and nobody changes priority.
  lemma TickKeepsAtMost(k: System, now: int, pending: seq<Entry>, completed: seq<Entry>, c: int)
    requires Inv(k) && Legal(k, Elapse(now, pending, completed)) && AtMost(k, c)
    ensures AtMost(Tick(k, now, pending, completed), c)
  {
    var k' := Tick(k, now, pending, completed);
    TickStep(k, now, pending, completed);
    TickKeepsPriorities(k, now, pending, completed);
    forall q | q in k'.procs && k'.procs[q].state != Terminated
      ensures k'.procs[q].priority <= c
    {
      TickLife(k, now, pending, completed, q);
      LifeState(k, k.blocked, q);
      LifeState(k', k'.blocked, q);
      assert PriorityOf(k.procs, q) == PriorityOf(k'.procs, q);
    }
  }

  lemma StillStuck(k: System, k': System, p: Pid)
    requires Stuck(k, p) && k'.policy == k.policy && OnCpu(k', p) && AtMost(k', k.procs[p].priority)
    requires k'.blocked == [] && k'.ready == k.ready && SamePriorityMap(k.procs, k'.procs)
    ensures Stuck(k', p)
  {
    assert PriorityOf(k.procs, p) == PriorityOf(k'.procs, p);
  }

  /** As long as p computes, nobody else gets the CPU, not even a process of the same priority: each time the quantum
      of p is over, p is put before the front of lower priority and found first again. */
  lemma {:induction false} EqualWaits(k: System, inputs: seq<Input>, p: Pid, q: Pid)
    requires Inv(k) && LegalRun(k, inputs) && TicksOnly(inputs) && Stuck(k, p) && p in k.meta && q != p
    requires k.procs[p].used + |inputs| < k.meta[p].estimate
    requires forall u | k.procs[p].used < u <= k.procs[p].used + |inputs| :: u !in k.meta[p].profile
    ensures !GetsCpu(k, inputs, q)
    decreases inputs
  {
    OnlyOneOnCpu(k, p, q);
    if inputs != [] {
      var i := inputs[0];
      ApplyStep(k, i);
      StuckTick(k, i.now, i.pending, i.completed, p);
      EqualWaits(Apply(k, i), inputs[1..], p, q);
    }
  }

  // Nothing but ticks is a run without harmful changes of priority.
  lemma {:induction false} TicksKeepAtMost(k: System, inputs: seq<Input>, a: Pid, c: int)
    requires Inv(k) && LegalRun(k, inputs) && TicksOnly(inputs) && AtMost(k, c)
    ensures StaysAtMost(k, inputs, c) && StaysSheltered(k, inputs, a, c)
    decreases inputs
  {
    if inputs != [] {
      var i := inputs[0];
      ApplyStep(k, i);
      TickKeepsAtMost(k, i.now, i.pending, i.completed, c);
      TicksKeepAtMost(Apply(k, i), inputs[1..], a, c);
    }
  }

  // ---------- examples: priorities given to READY processes ----------

  // Three processes of one program, admitted and not dispatched yet, with these priorities.
  ghost predicate Waiting(k: System, g: Program, a: int, b: int, c: int) {
    && k.policy == Priority && k.quantum == 1 && k.now == 0 && k.cpu.Idle? && k.blocked == []
    && k.next == 4 && k.ready == [1, 2, 3]
    && 1 in k.procs && 1 in k.meta && k.meta[1] == g && k.procs[1] == Newcomer(g).(priority := a)
    && 2 in k.procs && 2 in k.meta && k.meta[2] == g && k.procs[2] == Newcomer(g).(priority := b)
    && 3 in k.procs && 3 in k.meta && k.meta[3] == g && k.procs[3] == Newcomer(g).(priority := c)
  }

  // Three programs are admitted, and then the processes are given their priorities.
  function Prioritized(g: Program, a: int, b: int, c: int): System {
    SetPriority(SetPriority(SetPriority(Workload(Priority, 1, [g, g, g]), 1, a), 2, b), 3, c)
  }

  lemma AllWaiting(k: System, g: Program)
    requires Untouched(k, Priority, 1, [g, g, g])
    ensures Waiting(k, g, 0, 0, 0)
  {
    assert FirstPids(3) == [1, 2, 3];
  }

  lemma ChangedPriority(k: System, p: Pid, c: int)
    requires Inv(k) && ReachableByUnitTicks(k) && p in k.procs
    ensures var k' := SetPriority(k, p, c);
      Inv(k') && ReachableByUnitTicks(k') && k' == k.(procs := k.procs[p := k.procs[p].(priority := c)])
  {
    PrioritizeStep(k, p, c);
    OneMoreReachable(k, Prioritize(p, c), SetPriority(k, p, c));
  }

  lemma ThirdGiven(k: System, g: Program, a: int, b: int, c: int)
    requires Inv(k) && ReachableByUnitTicks(k) && Waiting(k, g, a, b, 0)
    ensures var k' := SetPriority(k, 3, c);
      Inv(k') && ReachableByUnitTicks(k') && Waiting(k', g, a, b, c)
  {
    ChangedPriority(k, 3, c);
  }

  lemma SecondGiven(k: System, g: Program, a: int, b: int, c: int)
    requires Inv(k) && ReachableByUnitTicks(k) && Waiting(k, g, a, 0, 0)
    ensures var k' := SetPriority(SetPriority(k, 2, b), 3, c);
      Inv(k') && ReachableByUnitTicks(k') && Waiting(k', g, a, b, c)
  {
    ChangedPriority(k, 2, b);
    ThirdGiven(SetPriority(k, 2, b), g, a, b, c);
  }

  lemma AllGiven(k: System, g: Program, a: int, b: int, c: int)
    requires Inv(k) && ReachableByUnitTicks(k) && Waiting(k, g, 0, 0, 0)
    ensures var k' := SetPriority(SetPriority(SetPriority(k, 1, a), 2, b), 3, c);
      Inv(k') && ReachableByUnitTicks(k') && Waiting(k', g, a, b, c)
  {
    ChangedPriority(k, 1, a);
    SecondGiven(SetPriority(k, 1, a), g, a, b, c);
  }

  lemma PrioritizedWaits(g: Program, a: int, b: int, c: int)
    ensures var k := Prioritized(g, a, b, c);
      Inv(k) && ReachableByUnitTicks(k) && Waiting(k, g, a, b, c)
  {
    var k := Workload(Priority, 1, [g, g, g]);
    WorkloadLoaded(Priority, 1, [g, g, g]);
    WorkloadReachable(Priority, 1, [g, g, g]);
    AllWaiting(k, g);
    AllGiven(k, g, a, b, c);
  }

  lemma SecondIsSelected(k: System, g: Program)
    requires Waiting(k, g, 1, 5, 5)
    ensures Selected(k) == 1
  {
    SecondIsFirstMax(k.procs);
  }

  lemma SecondIsFirstMax(procs: map<Pid, Pcb>)
    requires PriorityOf(procs, 1) < PriorityOf(procs, 2) == PriorityOf(procs, 3)
    ensures FirstMax([1, 2, 3], procs) == 1
  {
    assert [1, 2, 3][..2] == [1, 2] && [1, 2][..1] == [1];
  }

  // After the first tick process 2 is on the CPU, and 1 stands before 3.
  lemma SecondRuns(before: System, k: System, g: Program)
    requires Waiting(before, g, 1, 5, 5) && (forall p :: p in before.procs <==> 1 <= p <= 3)
    requires k.procs == before.procs[2 := before.procs[2].(state := Running)] && k.ready == Without(before.ready, 1)
    requires 2 in before.meta && k.cpu == Executing(2, before.meta[2].profile, Quantum(before))
    requires k.blocked == [] && k.meta == before.meta && k.policy == Priority && k.quantum == 1
    ensures k.ready == [1, 3] && Stuck(k, 2) && AtMost(k, 5) && Level(k, 5) == [3] && WaitAt(k, 0) == 1
    ensures 2 in k.meta && k.meta[2] == g && k.procs[2].used == 0
  {
    assert AtLevel([3], k.procs, 5) == [3];
    assert [1, 3][1..] == [3];
  }

  lemma AscendingTick(g: Program) returns (k: System)
    ensures ReachableByUnitTicks(k) && Inv(k) && AtMost(k, 5) && Stuck(k, 2)
    ensures k.ready == [1, 3] && Level(k, 5) == [3] && WaitAt(k, 0) == 1
    ensures 2 in k.meta && k.meta[2] == g && k.procs[2].used == 0
  {
    var before := Prioritized(g, 1, 5, 5);
    PrioritizedWaits(g, 1, 5, 5);
    SecondIsSelected(before, g);
    IdleTickDispatches(before, 1);
    TickStep(before, 1, [], []);
    k := Tick(before, 1, [], []);
    OneMoreReachable(before, Elapse(1, [], []), k);
    SecondRuns(before, k, g);
  }

  /** The bound on the waiting time at the highest level fails once setPriority has put the queue out of order. In
      this reachable state process 3 is the first, and only, ready process of the highest priority, so that with an
      ordered queue it would be dispatched in the next tick; but process 1 of lower priority stands before it, and
      for any number n of ticks there is such a state in which it waits that long. */
  lemma TieStarves(n: nat) returns (k: System)
    ensures ReachableByUnitTicks(k) && Inv(k) && k.policy == Priority && AtMost(k, 5)
    ensures k.ready == [1, 3] && OnCpu(k, 2) && Level(k, 5) == [3] && WaitAt(k, 0) == 1
    ensures forall inputs | LegalRun(k, inputs) && TicksOnly(inputs) && |inputs| == n ::
              StaysAtMost(k, inputs, 5) && StaysSheltered(k, inputs, 3, 5) && !GetsCpu(k, inputs, 3)
  {
    k := AscendingTick(Program(n + 1, map[]));
    forall inputs | LegalRun(k, inputs) && TicksOnly(inputs) && |inputs| == n
      ensures StaysAtMost(k, inputs, 5) && StaysSheltered(k, inputs, 3, 5) && !GetsCpu(k, inputs, 3)
    {
      TicksKeepAtMost(k, inputs, 3, 5);
      EqualWaits(k, inputs, 2, 3);
    }
  }

  // Process 4 has come in before the others, and only 1 has a lower priority.
  ghost predicate FourthFirst(k: System) {
    && k.policy == Priority && k.cpu.Idle? && k.blocked == [] && k.now == 0 && k.ready == [4, 1, 2, 3]
    && 1 in k.procs && 2 in k.procs && 3 in k.procs && 4 in k.procs && k.procs[2].state == Ready
    && PriorityOf(k.procs, 1) < 0 && PriorityOf(k.procs, 2) == PriorityOf(k.procs, 3) == PriorityOf(k.procs, 4) == 0
  }

  lemma NewcomerFirst(k: System, k': System, g: Program)
    requires Waiting(k, g, -1, 0, 0)
    requires k' == k.(next := 5, procs := k.procs[4 := Newcomer(g)], ready := k'.ready, meta := k'.meta, log := k'.log)
    requires k'.ready == Insert(k.ready, InsertionPoint(k.ready, k'.procs, 0), 4)
    ensures FourthFirst(k')
  {
    InsertionPointIff(k.ready, k'.procs, 0, 0);
  }

  lemma NewcomerAdmitted(k: System, g: Program)
    requires Inv(k) && Waiting(k, g, -1, 0, 0)
    ensures Inv(RunProgram(k, g)) && FourthFirst(RunProgram(k, g))
  {
    AdmitStep(k, g);
    AdmitEffect(k, g);
    NewcomerFirst(k, RunProgram(k, g), g);
  }

  lemma FirstIsFirstMax(q: seq<Pid>, procs: map<Pid, Pcb>)
    requires q != [] && forall j | 0 <= j < |q| :: PriorityOf(procs, q[j]) <= PriorityOf(procs, q[0])
    ensures FirstMax(q, procs) == 0
  {
  }

  lemma NewcomerDispatched(k: System)
    requires Inv(k) && FourthFirst(k)
    ensures Legal(k, Elapse(1, [], []))
    ensures var l := Tick(k, 1, [], []);
      OnCpu(l, 4) && !OnCpu(l, 2) && PriorityOf(l.procs, 4) == PriorityOf(l.procs, 2)
  {
    FirstIsFirstMax(k.ready, k.procs);
    IdleTickDispatches(k, 1);
  }

  /** And so does first come, first served: process 2 is ready before process 4 is admitted, and never of lower
      priority; but the priority of process 1, before it in the queue, has been lowered, so that 4 is let in before
      both and dispatched first. */
  lemma NewcomerOvertakes(g: Program)
    ensures var k := Prioritized(g, -1, 0, 0);
      var inputs := [Run(g), Elapse(1, [], [])];
      && ReachableByUnitTicks(k) && Inv(k) && k.policy == Priority && LegalRun(k, inputs)
      && 2 in k.ready && 4 !in k.ready && !OnCpu(k, 4)
      && NeverAbove(k, inputs, 4, 2) && Overtakes(k, inputs, 4, 2)
  {
    PrioritizedWaits(g, -1, 0, 0);
    NewcomerBefore(Prioritized(g, -1, 0, 0), g);
  }

  // A run of one input.
  lemma OneInput(k: System, i: Input, b: Pid, a: Pid)
    ensures Legal(k, i) ==> LegalRun(k, [i])
    ensures var l := Apply(k, i);
      && (Yields(k, b, a) && Yields(l, b, a) ==> NeverAbove(k, [i], b, a))
      && (!OnCpu(k, a) && !OnCpu(l, a) && OnCpu(l, b) ==> Overtakes(k, [i], b, a))
  {
    var l := Apply(k, i);
    assert [i][1..] == [];
    assert LegalRun(l, []);
    assert Yields(l, b, a) ==> NeverAbove(l, [], b, a);
    assert !OnCpu(l, a) && OnCpu(l, b) ==> Overtakes(l, [], b, a);
  }

  lemma NewcomerNext(k: System)
    requires Inv(k) && FourthFirst(k)
    ensures LegalRun(k, [Elapse(1, [], [])]) && NeverAbove(k, [Elapse(1, [], [])], 4, 2)
    ensures Overtakes(k, [Elapse(1, [], [])], 4, 2)
  {
    NewcomerDispatched(k);
    OneInput(k, Elapse(1, [], []), 4, 2);
  }

  lemma NewcomerBefore(k: System, g: Program)
    requires Inv(k) && Waiting(k, g, -1, 0, 0)
    ensures 2 in k.ready && 4 !in k.ready && !OnCpu(k, 4) && LegalRun(k, [Run(g), Elapse(1, [], [])])
    ensures NeverAbove(k, [Run(g), Elapse(1, [], [])], 4, 2) && Overtakes(k, [Run(g), Elapse(1, [], [])], 4, 2)
  {
    NewcomerAdmitted(k, g);
    NewcomerNext(RunProgram(k, g));
    assert [Run(g), Elapse(1, [], [])][1..] == [Elapse(1, [], [])];
    assert 4 !in k.procs;
  }
}
