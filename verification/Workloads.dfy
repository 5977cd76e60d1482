/** A workload admitted up front: what the kernel looks like before its first tick, and how long the
    workload takes. */
module Workloads {
  import opened Types
  import opened Programs
  import opened Sums
  import opened Machine
  import opened Consistency
  import opened Lives
  import opened Projection
  import opened Runs
  import opened Outcomes
  import opened Termination

  // The kernel after admitting these programs, in this order.
  function AdmitAll(k: System, gs: seq<Program>): System {
    if gs == [] then k else RunProgram(AdmitAll(k, gs[..|gs| - 1]), gs[|gs| - 1])
  }

  function Workload(policy: SchedulingPolicy, quantum: int, gs: seq<Program>): System {
    AdmitAll(Init(policy, quantum), gs)
  }

  // The PIDs 1, 2, ..., n.
  function FirstPids(n: nat): seq<Pid> {
    seq(n, i => i + 1)
  }

  // Nothing has happened to the admitted programs.
  ghost predicate Untouched(k: System, policy: SchedulingPolicy, quantum: int, gs: seq<Program>) {
    && k.policy == policy && k.quantum == quantum && k.now == 0
    && k.next == |gs| + 1 && k.cpu.Idle? && k.blocked == []
    && k.ready == FirstPids(|gs|)
    && (forall p | 1 <= p <= |gs| ::
          p in k.procs && p in k.meta && k.meta[p] == gs[p - 1] && k.procs[p] == Newcomer(gs[p - 1]))
  }

  // A loaded kernel that has not been ticked.
  ghost predicate Loaded(k: System, policy: SchedulingPolicy, quantum: int, gs: seq<Program>) {
    Inv(k) && Lively(k) && Untouched(k, policy, quantum, gs)
  }

  // Among equals a process is inserted behind everybody.
  lemma {:induction false} InsertBehindEquals(q: seq<Pid>, procs: map<Pid, Pcb>, priority: int)
    requires forall p | p in q :: PriorityOf(procs, p) >= priority
    ensures InsertionPoint(q, procs, priority) == |q|
  {
  }

  lemma AdmittedLast(k: System, g: Program, n: nat)
    requires Registered(k) && k.ready == FirstPids(n) && k.next == n + 1
    requires forall p | 1 <= p <= n :: p in k.procs && k.procs[p].priority == 0
    ensures RunProgram(k, g).ready == FirstPids(n + 1)
  {
    AdmitEffect(k, g);
    JoinsFirstPids(k.(procs := k.procs[k.next := Newcomer(g)]), n);
  }

  lemma JoinsFirstPids(k: System, n: nat)
    requires k.ready == FirstPids(n) && forall p | 1 <= p <= n + 1 :: p in k.procs && k.procs[p].priority == 0
    ensures Enqueue(k, n + 1).ready == FirstPids(n + 1)
  {
    InsertBehindEquals(k.ready, k.procs, 0);
    assert k.ready + [n + 1] == FirstPids(n + 1);
    assert Insert(k.ready, n, n + 1) == k.ready + [n + 1];
  }

  lemma AdmitOne(k: System, policy: SchedulingPolicy, quantum: int, gs: seq<Program>)
    requires gs != [] && Loaded(k, policy, quantum, gs[..|gs| - 1])
    ensures Loaded(RunProgram(k, gs[|gs| - 1]), policy, quantum, gs)
  {
    AdmitStep(k, gs[|gs| - 1]);
    ApplyLively(k, Run(gs[|gs| - 1]));
    AdmittedUntouched(k, policy, quantum, gs);
  }

  lemma AdmittedUntouched(k: System, policy: SchedulingPolicy, quantum: int, gs: seq<Program>)
    requires Registered(k) && gs != [] && Untouched(k, policy, quantum, gs[..|gs| - 1])
    ensures Untouched(RunProgram(k, gs[|gs| - 1]), policy, quantum, gs)
  {
    var g := gs[|gs| - 1];
    AdmitEffect(k, g);
    AdmittedLast(k, g, |gs| - 1);
    StillUntouched(k, RunProgram(k, g), policy, quantum, gs);
  }

  lemma StillUntouched(k: System, k': System, policy: SchedulingPolicy, quantum: int, gs: seq<Program>)
    requires gs != [] && Untouched(k, policy, quantum, gs[..|gs| - 1])
    requires var g := gs[|gs| - 1];
      k' == k.(next := k.next + 1, procs := k.procs[k.next := Newcomer(g)], meta := k.meta[k.next := g],
               ready := k'.ready, log := k'.log)
    requires k'.ready == FirstPids(|gs|)
    ensures Untouched(k', policy, quantum, gs)
  {
    forall p | 1 <= p <= |gs|
      ensures p in k'.procs && p in k'.meta && k'.meta[p] == gs[p - 1] && k'.procs[p] == Newcomer(gs[p - 1])
    {
      assert p < |gs| ==> gs[..|gs| - 1][p - 1] == gs[p - 1];
    }
  }

  lemma EmptyLoaded(policy: SchedulingPolicy, quantum: int)
    ensures Loaded(Init(policy, quantum), policy, quantum, [])
  {
    InitInv(policy, quantum);
  }

  lemma {:induction false} WorkloadLoaded(policy: SchedulingPolicy, quantum: int, gs: seq<Program>)
    ensures Loaded(Workload(policy, quantum, gs), policy, quantum, gs)
    decreases |gs|
  {
    if gs == [] {
      EmptyLoaded(policy, quantum);
    } else {
      WorkloadLoaded(policy, quantum, gs[..|gs| - 1]);
      AdmitOne(Workload(policy, quantum, gs[..|gs| - 1]), policy, quantum, gs);
    }
  }

  // ---------- how long it takes ----------

  // CPU ticks the programs take, and the time their syscalls keep them blocked.
  function CpuWork(gs: seq<Program>): int {
    if gs == [] then 0 else CpuWork(gs[..|gs| - 1]) + Finish(gs[|gs| - 1])
  }

  function IoWork(gs: seq<Program>): int {
    if gs == [] then 0
    else IoWork(gs[..|gs| - 1]) + IoTime(gs[|gs| - 1].profile, Finish(gs[|gs| - 1]))
  }

  lemma {:induction false} SumOverWorkload(f: int -> int, gs: seq<Program>, io: bool)
    requires forall p | 1 <= p <= |gs| ::
      f(p) == Finish(gs[p - 1]) + if io then IoTime(gs[p - 1].profile, Finish(gs[p - 1])) else 0
    ensures Sum(f, |gs| + 1) == CpuWork(gs) + if io then IoWork(gs) else 0
    decreases |gs|
  {
    if gs != [] {
      assert forall i | 0 <= i < |gs| - 1 :: gs[..|gs| - 1][i] == gs[i];
      SumOverWorkload(f, gs[..|gs| - 1], io);
    }
  }

  lemma LoadedPotential(k: System, policy: SchedulingPolicy, quantum: int, gs: seq<Program>)
    requires Loaded(k, policy, quantum, gs)
    ensures Potential(k) == CpuWork(gs) + IoWork(gs) + if gs == [] then 0 else 1
  {
    forall p | 1 <= p <= |gs|
      ensures AheadOf(k, p) == Finish(gs[p - 1]) + IoTime(gs[p - 1].profile, Finish(gs[p - 1]))
    {
      LifeState(k, k.blocked, p);
      NewcomerAhead(k, gs[p - 1], p);
    }
    PotentialOf(k, gs);
  }

  lemma NewcomerAhead(k: System, g: Program, p: Pid)
    requires p in k.procs && p in k.meta && k.meta[p] == g && k.procs[p] == Newcomer(g)
    requires StateOf(LifeOf(k, p)) == Ready
    ensures AheadOf(k, p) == Finish(g) + IoTime(g.profile, Finish(g))
  {
  }

  lemma PotentialOf(k: System, gs: seq<Program>)
    requires k.next == |gs| + 1 && k.cpu.Idle? && k.ready == FirstPids(|gs|)
    requires forall p | 1 <= p <= |gs| ::
      AheadOf(k, p) == Finish(gs[p - 1]) + IoTime(gs[p - 1].profile, Finish(gs[p - 1]))
    ensures Potential(k) == CpuWork(gs) + IoWork(gs) + if gs == [] then 0 else 1
  {
    SumOverWorkload(p => AheadOf(k, p), gs, true);
  }

  function UsedBy(k: System, p: Pid): int {
    if p in k.procs then k.procs[p].used else 0
  }

  // CPU time used by all processes together.
  function TotalUsed(k: System): int {
    Sum(p => UsedBy(k, p), k.next)
  }

  lemma UsedAfter(k: System, now: int, pending: seq<Entry>, completed: seq<Entry>, p: Pid)
    requires Inv(k) && Legal(k, Elapse(now, pending, completed)) && p in k.procs
    ensures UsedBy(Tick(k, now, pending, completed), p) ==
            UsedBy(k, p) + if k.cpu.Executing? && k.cpu.pid == p then 1 else 0
  {
    var k' := Tick(k, now, pending, completed);
    LifeState(k, k.blocked, p);
    TickLife(k, now, pending, completed, p);
    StepUsed(k.meta[p], Slice(k), k.now, now, LifeOf(k, p), LifeOf(k', p));
    assert LifeOf(k', p).used == UsedBy(k', p);
  }

  lemma TotalGrows(k: System, k': System)
    requires Inv(k) && k'.next == k.next
    requires forall p | 1 <= p < k.next ::
      UsedBy(k', p) == UsedBy(k, p) + if k.cpu.Executing? && k.cpu.pid == p then 1 else 0
    ensures TotalUsed(k') == TotalUsed(k) + if k.cpu.Executing? then 1 else 0
  {
    if k.cpu.Executing? {
      SumOneChange(p => UsedBy(k, p), p => UsedBy(k', p), k.next, k.cpu.pid);
    } else {
      SumAgrees(p => UsedBy(k, p), p => UsedBy(k', p), k.next);
    }
  }

  /** A tick is either used by exactly one process or began with an idle CPU. */
  lemma TickUsed(k: System, now: int, pending: seq<Entry>, completed: seq<Entry>)
    requires Inv(k) && Legal(k, Elapse(now, pending, completed))
    ensures TotalUsed(Tick(k, now, pending, completed)) == TotalUsed(k) + if k.cpu.Executing? then 1 else 0
  {
    var k' := Tick(k, now, pending, completed);
    TickStep(k, now, pending, completed);
    forall p | 1 <= p < k.next
      ensures UsedBy(k', p) == UsedBy(k, p) + if k.cpu.Executing? && k.cpu.pid == p then 1 else 0
    {
      UsedAfter(k, now, pending, completed, p);
    }
    TotalGrows(k, k');
  }

  // The ticks of a run that began with an idle CPU.
  function IdleTicks(k: System, inputs: seq<Input>): nat
    decreases inputs
  {
    if inputs == [] then 0
    else (if inputs[0].Elapse? && k.cpu.Idle? then 1 else 0) + IdleTicks(Apply(k, inputs[0]), inputs[1..])
  }

  lemma TotalKept(k: System, k': System)
    requires forall p | 1 <= p < k.next :: UsedBy(k', p) == UsedBy(k, p)
    requires k'.next == k.next || (k'.next == k.next + 1 && UsedBy(k', k.next) == 0 && k.next >= 1)
    ensures TotalUsed(k') == TotalUsed(k)
  {
    SumAgrees(p => UsedBy(k, p), p => UsedBy(k', p), k.next);
  }

  lemma AdmissionUsesNothing(k: System, i: Input)
    requires Inv(k) && !i.Elapse?
    ensures TotalUsed(Apply(k, i)) == TotalUsed(k)
  {
    if i.Run? {
      AdmitEffect(k, i.program);
    }
    TotalKept(k, Apply(k, i));
  }

  /** Tick accounting over any run: the ticks are the CPU time used plus the ticks that began idle. */
  lemma {:induction false} TickAccounting(k: System, inputs: seq<Input>)
    requires Inv(k) && LegalRun(k, inputs)
    ensures Ticks(inputs) == TotalUsed(Exec(k, inputs)) - TotalUsed(k) + IdleTicks(k, inputs)
    decreases inputs
  {
    if inputs != [] {
      ApplyStep(k, inputs[0]);
      if inputs[0].Elapse? {
        TickUsed(k, inputs[0].now, inputs[0].pending, inputs[0].completed);
      } else {
        AdmissionUsesNothing(k, inputs[0]);
      }
      TickAccounting(Apply(k, inputs[0]), inputs[1..]);
    }
  }

  lemma {:induction false} TickRun(k: System, inputs: seq<Input>)
    requires Inv(k) && Lively(k) && LegalRun(k, inputs) && TicksOnly(inputs)
    ensures var k' := Exec(k, inputs);
      && Inv(k') && Lively(k')
      && k'.next == k.next && k'.meta == k.meta && k'.policy == k.policy && k'.quantum == k.quantum
    ensures Ticks(inputs) == |inputs|
    ensures inputs != [] && k.cpu.Idle? ==> IdleTicks(k, inputs) >= 1
    decreases inputs
  {
    if inputs != [] {
      var i := inputs[0];
      ApplyStep(k, i);
      ApplyLively(k, i);
      TickStep(k, i.now, i.pending, i.completed);
      TickRun(Apply(k, i), inputs[1..]);
    }
  }

  lemma UsedInTheEnd(k: System, gs: seq<Program>)
    requires Inv(k) && !HasActive(k) && k.next == |gs| + 1
    requires forall p | 1 <= p <= |gs| :: p in k.meta && k.meta[p] == gs[p - 1]
    ensures TotalUsed(k) == CpuWork(gs)
  {
    forall p | 1 <= p <= |gs|
      ensures UsedBy(k, p) == Finish(gs[p - 1])
    {
      assert Progressed(k, p);
    }
    TotalOf(k, gs);
  }

  lemma TotalOf(k: System, gs: seq<Program>)
    requires k.next == |gs| + 1 && forall p | 1 <= p <= |gs| :: UsedBy(k, p) == Finish(gs[p - 1])
    ensures TotalUsed(k) == CpuWork(gs)
  {
    SumOverWorkload(p => UsedBy(k, p), gs, false);
  }

  lemma UntouchedUnused(k: System, policy: SchedulingPolicy, quantum: int, gs: seq<Program>)
    requires Untouched(k, policy, quantum, gs)
    ensures TotalUsed(k) == 0
    ensures gs != [] ==> HasActive(k)
  {
    NobodyUsed(k, |gs|);
    if gs != [] {
      assert 1 in k.procs && k.procs[1].state == Ready;
    }
  }

  lemma NobodyUsed(k: System, n: nat)
    requires k.next == n + 1 && forall p | 1 <= p <= n :: UsedBy(k, p) == 0
    ensures TotalUsed(k) == 0
  {
    SumAgrees(p => UsedBy(k, p), _ => 0, k.next);
    SumZero(k.next);
  }

  lemma {:induction false} SumZero(n: int)
    ensures Sum(_ => 0, n) == 0
    decreases n
  {
    if n > 1 {
      SumZero(n - 1);
      SumAgrees(_ => 0, _ => 0, n - 1);
    }
  }

  /** A workload needs its CPU time plus the tick that dispatches the first process, and no more
      than its I/O time on top, under every policy. */
  lemma MakespanBounds(policy: SchedulingPolicy, quantum: int, gs: seq<Program>, inputs: seq<Input>)
    requires gs != [] && LegalRun(Workload(policy, quantum, gs), inputs) && TicksOnly(inputs)
    ensures |inputs| <= CpuWork(gs) ==> HasActive(Exec(Workload(policy, quantum, gs), inputs))
    ensures |inputs| >= 1 + CpuWork(gs) + IoWork(gs) ==> !HasActive(Exec(Workload(policy, quantum, gs), inputs))
  {
    WorkloadLoaded(policy, quantum, gs);
    LoadedMakespan(Workload(policy, quantum, gs), policy, quantum, gs, inputs);
  }

  lemma LoadedMakespan(k: System, policy: SchedulingPolicy, quantum: int, gs: seq<Program>, inputs: seq<Input>)
    requires gs != [] && Loaded(k, policy, quantum, gs) && LegalRun(k, inputs) && TicksOnly(inputs)
    ensures |inputs| <= CpuWork(gs) ==> HasActive(Exec(k, inputs))
    ensures |inputs| >= 1 + CpuWork(gs) + IoWork(gs) ==> !HasActive(Exec(k, inputs))
  {
    var k' := Exec(k, inputs);
    TickRun(k, inputs);
    TickAccounting(k, inputs);
    UntouchedUnused(k, policy, quantum, gs);
    LoadedPotential(k, policy, quantum, gs);
    if !HasActive(k') {
      UsedInTheEnd(k', gs);
    }
    if |inputs| >= 1 + CpuWork(gs) + IoWork(gs) {
      TicksTerminate(k, inputs);
    }
  }

  // No syscall fires before the exit.
  ghost predicate SyscallFree(g: Program) {
    Fired(g.profile, Finish(g)) == []
  }

  lemma {:induction false} NoPauses(profile: Profile, u: int)
    requires Fired(profile, u) == []
    ensures IoTime(profile, u) == 0
    decreases u
  {
    if u > 0 {
      NoPauses(profile, u - 1);
    }
  }

  lemma {:induction false} NoIoWork(gs: seq<Program>)
    requires forall g | g in gs :: SyscallFree(g)
    ensures IoWork(gs) == 0
    decreases |gs|
  {
    if gs != [] {
      var g := gs[|gs| - 1];
      assert g in gs;
      NoPauses(g.profile, Finish(g));
      NoIoWork(gs[..|gs| - 1]);
    }
  }

  /** A syscall-free workload takes exactly one tick more than its CPU time, under every policy. */
  lemma Makespan(policy: SchedulingPolicy, quantum: int, gs: seq<Program>, inputs: seq<Input>)
    requires gs != [] && (forall g | g in gs :: SyscallFree(g))
    requires LegalRun(Workload(policy, quantum, gs), inputs) && TicksOnly(inputs)
    ensures HasActive(Exec(Workload(policy, quantum, gs), inputs)) <==> |inputs| < 1 + CpuWork(gs)
  {
    NoIoWork(gs);
    MakespanBounds(policy, quantum, gs, inputs);
  }
}
