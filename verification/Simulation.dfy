/** A whole simulation, as the command line sets it up: submit the programs, start them all, run. */
module Simulation {
  import opened Types
  import opened Programs
  import opened Consistency
  import opened Fifo
  import opened Machine
  import opened Timing
  import opened Workloads
  import opened Fairness
  import opened Gantt
  import opened GanttModels
  import opened KernelObject
  import opened Engine

  method SubmitAll(kernel: Kernel, gs: seq<Program>) returns (ids: seq<int>)
    requires kernel.Valid() && forall id | id in kernel.programs :: id < kernel.nextProgramId
    modifies kernel`programs, kernel`nextProgramId
    ensures kernel.Valid() && kernel.Abs() == old(kernel.Abs())
    ensures |ids| == |gs| && forall i | 0 <= i < |gs| :: ids[i] in kernel.programs && kernel.programs[ids[i]] == gs[i]
  {
    ids := [];
    for i := 0 to |gs|
      invariant kernel.Valid() && kernel.Abs() == old(kernel.Abs())
      invariant forall id | id in kernel.programs :: id < kernel.nextProgramId
      invariant |ids| == i
      invariant forall j | 0 <= j < i :: ids[j] in kernel.programs && kernel.programs[ids[j]] == gs[j]
    {
      var id := kernel.SubmitProgram(gs[i]);
      ids := ids + [id];
    }
  }

  lemma AdmitNext(k: System, gs: seq<Program>, i: nat, m: System)
    requires i < |gs| && m == AdmitAll(k, gs[..i])
    ensures AdmitAll(k, gs[..i + 1]) == RunProgram(m, gs[i])
  {
    assert gs[..i + 1][..i] == gs[..i];
  }

  method Start(kernel: Kernel, id: int, ghost k: System, ghost gs: seq<Program>, ghost i: nat)
    requires kernel.Valid() && i < |gs| && id in kernel.programs && kernel.programs[id] == gs[i]
    requires kernel.Abs() == AdmitAll(k, gs[..i])
    modifies kernel`nextPid, kernel`log, kernel`processMetadata, kernel`allProcesses, kernel.memoryManager.readyQueue
    ensures kernel.Valid() && forall p | p in kernel.allProcesses :: p in old(kernel.allProcesses) || fresh(p)
    ensures kernel.Abs() == AdmitAll(k, gs[..i + 1])
  {
    ghost var m := kernel.Abs();
    var ok := kernel.RunProgram(id);
    assert kernel.Abs() == RunProgram(m, gs[i]);
    AdmitNext(k, gs, i, m);
  }

  method StartAll(kernel: Kernel, ids: seq<int>, ghost k: System, ghost gs: seq<Program>)
    requires kernel.Valid() && k == kernel.Abs() && |ids| == |gs|
    requires forall i | 0 <= i < |gs| :: ids[i] in kernel.programs && kernel.programs[ids[i]] == gs[i]
    modifies kernel`nextPid, kernel`log, kernel`processMetadata, kernel`allProcesses, kernel.memoryManager.readyQueue
    ensures kernel.Valid() && forall p | p in kernel.allProcesses :: p in old(kernel.allProcesses) || fresh(p)
    ensures kernel.Abs() == AdmitAll(k, gs)
  {
    var i := 0;
    assert gs[..0] == [];
    while i < |ids|
      invariant 0 <= i <= |ids| && kernel.Valid()
      invariant forall p | p in kernel.allProcesses :: p in old(kernel.allProcesses) || fresh(p)
      invariant kernel.Abs() == AdmitAll(k, gs[..i])
    {
      Start(kernel, ids[i], k, gs, i);
      i := i + 1;
    }
    assert gs[..i] == gs;
  }

  method Submit(policy: SchedulingPolicy, quantum: int, gs: seq<Program>) returns (kernel: Kernel, ids: seq<int>)
    ensures kernel.Valid() && fresh(kernel) && kernel.allProcesses == [] && fresh(kernel.cpu)
    ensures fresh(kernel.memoryManager.readyQueue) && fresh(kernel.memoryManager.blockedQueue)
    ensures kernel.Abs() == Init(policy, quantum) && |ids| == |gs|
    ensures forall i | 0 <= i < |gs| :: ids[i] in kernel.programs && kernel.programs[ids[i]] == gs[i]
  {
    kernel := new Kernel(policy, quantum);
    ids := SubmitAll(kernel, gs);
  }

  method Load(policy: SchedulingPolicy, quantum: int, gs: seq<Program>) returns (kernel: Kernel)
    ensures kernel.Valid() && fresh(kernel) && fresh(kernel.allProcesses) && fresh(kernel.cpu)
    ensures fresh(kernel.memoryManager.readyQueue) && fresh(kernel.memoryManager.blockedQueue)
    ensures kernel.Abs() == Workload(policy, quantum, gs)
  {
    var ids;
    kernel, ids := Submit(policy, quantum, gs);
    StartAll(kernel, ids, Init(policy, quantum), gs);
    assert forall i | 0 <= i < |kernel.allProcesses| :: kernel.allProcesses[i] in kernel.allProcesses;
  }

  // ---------- what the simulation reaches ----------

  lemma {:induction false} RunExtends(k: System, inputs: seq<Input>, x: Input)
    requires LegalRun(k, inputs) && Spaced(k, inputs, 1)
    requires Legal(Exec(k, inputs), x) && (x.Elapse? ==> x.now == Exec(k, inputs).now + 1)
    ensures LegalRun(k, inputs + [x]) && Spaced(k, inputs + [x], 1)
    ensures Exec(k, inputs + [x]) == Apply(Exec(k, inputs), x)
    decreases inputs
  {
    if inputs == [] {
      assert [x][1..] == [];
    } else {
      RunExtends(Apply(k, inputs[0]), inputs[1..], x);
      assert (inputs + [x])[1..] == inputs[1..] + [x];
    }
  }

  lemma OneMoreReachable(k: System, x: Input, k': System)
    requires ReachableByUnitTicks(k) && Legal(k, x) && (x.Elapse? ==> x.now == k.now + 1) && k' == Apply(k, x)
    ensures ReachableByUnitTicks(k')
  {
    var policy, quantum, inputs :|
      && LegalRun(Init(policy, quantum), inputs) && Spaced(Init(policy, quantum), inputs, 1)
      && k == Exec(Init(policy, quantum), inputs);
    RunExtends(Init(policy, quantum), inputs, x);
  }

  lemma {:induction false} WorkloadReachable(policy: SchedulingPolicy, quantum: int, gs: seq<Program>)
    ensures ReachableByUnitTicks(Workload(policy, quantum, gs))
    decreases |gs|
  {
    if gs == [] {
      assert Exec(Init(policy, quantum), []) == Workload(policy, quantum, gs);
    } else {
      var before := gs[..|gs| - 1];
      WorkloadReachable(policy, quantum, before);
      OneMoreReachable(Workload(policy, quantum, before), Input.Run(gs[|gs| - 1]), Workload(policy, quantum, gs));
    }
  }

  lemma {:induction false} ChainReachable(states: seq<System>, inputs: seq<Input>, limit: int)
    requires Chain(Rule(1, limit), states, inputs) && ReachableByUnitTicks(states[0])
    ensures ReachableByUnitTicks(states[|inputs|])
    decreases inputs
  {
    if inputs != [] {
      assert OneTick(states[0], inputs[0], states[1], 1, limit);
      OneMoreReachable(states[0], inputs[0], states[1]);
      ChainTail(Rule(1, limit), states, inputs);
      ChainReachable(states[1..], inputs[1..], limit);
    }
  }

  /** Where the engine takes a workload is a state that every theorem about reachable states is about. */
  lemma SimulationReaches(policy: SchedulingPolicy, quantum: int, gs: seq<Program>, inputs: seq<Input>, k: System,
                          limit: int)
    requires Ran(Workload(policy, quantum, gs), inputs, k, 1, limit)
    ensures ReachableByUnitTicks(k)
  {
    WorkloadReachable(policy, quantum, gs);
    var states :|
      && Chain(Rule(1, limit), states, inputs)
      && states[0] == Workload(policy, quantum, gs) && states[|inputs|] == k;
    ChainReachable(states, inputs, limit);
  }

  /** A workload started up front under any policy: everybody has terminated in the end when the limit
      leaves one tick to dispatch and a tick for every tick of work and of I/O. */
  method Simulate(policy: SchedulingPolicy, quantum: int, gs: seq<Program>, maxTicks: int)
    returns (kernel: Kernel, ghost inputs: seq<Input>)
    ensures kernel.Valid() && Ran(Workload(policy, quantum, gs), inputs, kernel.Abs(), 1, maxTicks)
    ensures ReachableByUnitTicks(kernel.Abs())
    ensures HasActive(kernel.Abs()) ==> kernel.currentTick >= maxTicks
    ensures 1 + CpuWork(gs) + IoWork(gs) <= maxTicks ==> !HasActive(kernel.Abs())
  {
    kernel := Load(policy, quantum, gs);
    WorkloadInTime(policy, quantum, gs, maxTicks);
    var engine := new SimulationEngine(kernel, 1, maxTicks);
    assert kernel.Abs() == Workload(policy, quantum, gs);
    inputs := engine.Run();
    SimulationReaches(policy, quantum, gs, inputs, kernel.Abs(), maxTicks);
  }

  lemma WorkloadInTime(policy: SchedulingPolicy, quantum: int, gs: seq<Program>, maxTicks: int)
    ensures Workload(policy, quantum, gs).now == 0
    ensures 1 + CpuWork(gs) + IoWork(gs) <= maxTicks ==> TimeEnough(Workload(policy, quantum, gs), 1, maxTicks)
  {
    var k := Workload(policy, quantum, gs);
    WorkloadLoaded(policy, quantum, gs);
    LoadedPotential(k, policy, quantum, gs);
  }

  /** The CPU time a report gives for a terminated process, summed over the segments an observer drew
      from the notices alone, is the CPU time in its process control block. */
  method ReportedCpuTime(kernel: Kernel, pid: Pid) returns (total: int)
    requires kernel.Valid() && ReachableByUnitTicks(kernel.Abs())
    requires pid in kernel.Abs().procs && kernel.Abs().procs[pid].state == Terminated
    ensures total == kernel.Abs().procs[pid].used
  {
    ghost var k := kernel.Abs();
    var model := Replay(kernel.log);
    total := model.RunningTime(pid);
    ReportedIsUsed(k, pid);
  }

  lemma ReportedIsUsed(k: System, p: Pid)
    requires ReachableByUnitTicks(k) && p in k.procs && k.procs[p].state == Terminated
    ensures var c := ChartOf(k.log);
      var i := FindRow(c.rows, p);
      i < |c.rows| && Reported(c.rows[i].segments, c.clock, Running) == k.procs[p].used
  {
    GanttIsExact(k, p);
  }

  /** For a running process the report is one tick ahead: after the first tick of a program it shows one tick of
      RUNNING although the process has not used the CPU yet. */
  lemma RunningIsOverstated() returns (k: System)
    ensures ReachableByUnitTicks(k) && 1 in k.procs && k.procs[1].state == Running && k.procs[1].used == 0
    ensures var c := ChartOf(k.log);
      var i := FindRow(c.rows, 1);
      i < |c.rows| && Reported(c.rows[i].segments, c.clock, Running) == 1
  {
    var g := Program(2, map[]);
    var before := Workload(RoundRobin, 4, [g]);
    var tick := Elapse(1, [], []);
    k := Apply(before, tick);
    FirstTickDispatches(g);
    WorkloadReachable(RoundRobin, 4, [g]);
    OneMoreReachable(before, tick, k);
    GanttIsExact(k, 1);
  }

  lemma SomeMember(s: seq<int>) returns (t: int)
    requires s != []
    ensures t in s
  {
    t := s[0];
  }

  lemma NoSyscalls(g: Program)
    requires g.profile == map[]
    ensures SyscallFree(g)
  {
    if Fired(g.profile, Finish(g)) != [] {
      var t := SomeMember(Fired(g.profile, Finish(g)));
    }
  }

  lemma FirstTickDispatches(g: Program)
    requires g.profile == map[]
    ensures var before := Workload(RoundRobin, 4, [g]);
      var tick := Elapse(1, [], []);
      var k := Apply(before, tick);
      && Legal(before, tick) && before.now == 0
      && 1 in k.procs && k.procs[1].state == Running && k.procs[1].used == 0
  {
    WorkloadLoaded(RoundRobin, 4, [g]);
    NoSyscalls(g);
    LoadedDispatches(Workload(RoundRobin, 4, [g]), [g]);
  }

  lemma LoadedDispatches(k: System, gs: seq<Program>)
    requires Loaded(k, RoundRobin, 4, gs) && gs != [] && forall g | g in gs :: SyscallFree(g)
    ensures Legal(k, Elapse(1, [], [])) && k.now == 0
    ensures var k' := Apply(k, Elapse(1, [], []));
      1 in k'.procs && k'.procs[1].state == Running && k'.procs[1].used == 0
  {
    var tick := Elapse(1, [], []);
    LoadedInRound(k, RoundRobin, 4, gs);
    QuietInput(k, tick);
    FirstIsRunning(k, Apply(k, tick), |gs|);
  }

  lemma FirstIsRunning(k: System, k': System, n: nat)
    requires k.cpu.Idle? && k.ready == FirstPids(n) && n >= 1 && 1 in k.procs && k.procs[1].used == 0
    requires Inv(k') && QuietStep(k, k')
    ensures 1 in k'.procs && k'.procs[1].state == Running && k'.procs[1].used == 0
  {
  }
}
