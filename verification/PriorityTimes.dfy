/** When processes terminate under Priority: the priorities are served from the highest down, each completely
    before the next, whatever the quantum, the ties and the order of the ready queue. */
module PriorityTimes {
  import opened Types
  import opened Programs
  import opened Sums
  import opened Machine
  import opened Consistency
  import opened Projection
  import opened Runs
  import opened Outcomes
  import opened Termination
  import opened Workloads
  import opened Fairness
  import opened Priorities
  import opened Overtaking
  import opened Levels

  // Somebody alive has priority c or more.
  ghost predicate LiveAtLeast(k: System, c: int) {
    exists p :: p in k.procs && k.procs[p].priority >= c && k.procs[p].state != Terminated
  }

  ghost function UsedIf(k: System, c: int, p: Pid): int {
    if PriorityOf(k.procs, p) >= c then UsedBy(k, p) else 0
  }

  ghost function WorkIf(k: System, c: int, p: Pid): int {
    if p in k.meta && PriorityOf(k.procs, p) >= c then Finish(k.meta[p]) else 0
  }

  // CPU time the processes of priority c or more have used.
  ghost function UsedAtLeast(k: System, c: int): int {
    Sum(p => UsedIf(k, c, p), k.next)
  }

  // CPU time they take from their admission to their exit.
  ghost function WorkAtLeast(k: System, c: int): int {
    Sum(p => WorkIf(k, c, p), k.next)
  }

  // ---------- how much is left ----------

  lemma WithinWork(k: System, c: int, p: Pid)
    requires Inv(k)
    ensures 0 <= UsedIf(k, c, p) <= WorkIf(k, c, p)
    ensures UsedIf(k, c, p) < WorkIf(k, c, p) <==>
            p in k.procs && k.procs[p].priority >= c && k.procs[p].state != Terminated
  {
    if p in k.procs {
      DoneIsTerminated(k, p);
    }
  }

  lemma LeftIffLive(k: System, c: int)
    requires Inv(k)
    ensures if LiveAtLeast(k, c) then UsedAtLeast(k, c) < WorkAtLeast(k, c) else UsedAtLeast(k, c) == WorkAtLeast(k, c)
  {
    forall p | 1 <= p < k.next
      ensures UsedIf(k, c, p) <= WorkIf(k, c, p)
      ensures UsedIf(k, c, p) < WorkIf(k, c, p) <==>
              p in k.procs && k.procs[p].priority >= c && k.procs[p].state != Terminated
    {
      WithinWork(k, c, p);
    }
    if LiveAtLeast(k, c) {
      var h :| h in k.procs && k.procs[h].priority >= c && k.procs[h].state != Terminated;
      SumLess(p => UsedIf(k, c, p), p => WorkIf(k, c, p), k.next, h);
    } else {
      SumAgrees(p => UsedIf(k, c, p), p => WorkIf(k, c, p), k.next);
    }
  }

  // ---------- one tick ----------

  // After a choice of the scheduler, with nobody blocked.
  lemma HighOnCpu(k: System, c: int)
    requires Inv(k) && LiveAtLeast(k, c) && (forall p | p in k.procs :: k.procs[p].state != Blocked)
    requires k.cpu.Idle? ==> k.ready == []
    requires k.cpu.Executing? ==> forall r | r in k.ready :: PriorityOf(k.procs, r) <= PriorityOf(k.procs, k.cpu.pid)
    ensures k.cpu.Executing? && PriorityOf(k.procs, k.cpu.pid) >= c
  {
    var h :| h in k.procs && k.procs[h].priority >= c && k.procs[h].state != Terminated;
    assert Placed(k, k.blocked, h);
  }

  // The CPU is never taken from a process of priority c or more for one below c.
  lemma StaysHigh(k: System, now: int, pending: seq<Entry>, completed: seq<Entry>, c: int)
    requires Inv(k) && Legal(k, Elapse(now, pending, completed)) && k.policy == Priority
    requires k.cpu.Executing? ==> PriorityOf(k.procs, k.cpu.pid) >= c
    requires var k' := Tick(k, now, pending, completed);
      LiveAtLeast(k', c) && forall p | p in k'.procs :: k'.procs[p].state != Blocked
    ensures var k' := Tick(k, now, pending, completed);
      k'.cpu.Executing? && PriorityOf(k'.procs, k'.cpu.pid) >= c
  {
    var k' := Tick(k, now, pending, completed);
    TickStep(k, now, pending, completed);
    if Event(Roused(k, now, pending, completed)) {
      HighestRuns(k, now, pending, completed);
      HighOnCpu(k', c);
    } else {
      TickDispatches(k, now, pending, completed);
      TickKeepsPriorities(k, now, pending, completed);
    }
  }

  lemma UsedGrows(k: System, k': System, c: int)
    requires Inv(k) && k'.next == k.next && SamePriorityMap(k.procs, k'.procs)
    requires forall p | 1 <= p < k.next ::
      UsedBy(k', p) == UsedBy(k, p) + if k.cpu.Executing? && k.cpu.pid == p then 1 else 0
    ensures UsedAtLeast(k', c) ==
            UsedAtLeast(k, c) + if k.cpu.Executing? && PriorityOf(k.procs, k.cpu.pid) >= c then 1 else 0
  {
    if k.cpu.Executing? {
      SumOneChange(p => UsedIf(k, c, p), p => UsedIf(k', c, p), k.next, k.cpu.pid);
    } else {
      SumAgrees(p => UsedIf(k, c, p), p => UsedIf(k', c, p), k.next);
    }
  }

  lemma WorkStays(k: System, k': System, c: int)
    requires k'.next == k.next && k'.meta == k.meta && SamePriorityMap(k.procs, k'.procs)
    ensures WorkAtLeast(k', c) == WorkAtLeast(k, c)
  {
    SumAgrees(p => WorkIf(k, c, p), p => WorkIf(k', c, p), k.next);
  }

  // One tick, added up over the processes of priority c or more.
  lemma TickCounts(k: System, now: int, pending: seq<Entry>, completed: seq<Entry>, c: int)
    requires Inv(k) && Legal(k, Elapse(now, pending, completed))
    ensures var k' := Tick(k, now, pending, completed);
      && UsedAtLeast(k', c) ==
         UsedAtLeast(k, c) + (if k.cpu.Executing? && PriorityOf(k.procs, k.cpu.pid) >= c then 1 else 0)
      && WorkAtLeast(k', c) == WorkAtLeast(k, c)
  {
    var k' := Tick(k, now, pending, completed);
    TickStep(k, now, pending, completed);
    TickKeepsPriorities(k, now, pending, completed);
    forall p | 1 <= p < k.next
      ensures UsedBy(k', p) == UsedBy(k, p) + if k.cpu.Executing? && k.cpu.pid == p then 1 else 0
    {
      UsedAfter(k, now, pending, completed, p);
    }
    UsedGrows(k, k', c);
    WorkStays(k, k', c);
  }

  // ---------- runs ----------

  // After n >= 1 ticks: as long as somebody of priority c or more is alive one of them has the CPU, and all
  // ticks but the first have been theirs.
  ghost predicate ServesAtLeast(k: System, n: int, c: int) {
    && UsedAtLeast(k, c) <= n - 1
    && (LiveAtLeast(k, c) ==>
          k.cpu.Executing? && PriorityOf(k.procs, k.cpu.pid) >= c && UsedAtLeast(k, c) == n - 1)
  }

  // What a tick of a syscall-free kernel keeps.
  lemma SyscallFreeTick(k: System, i: Input)
    requires Inv(k) && Lively(k) && AllSyscallFree(k) && Legal(k, i) && i.Elapse?
    ensures var k' := Apply(k, i);
      && Inv(k') && Lively(k') && AllSyscallFree(k') && k'.policy == k.policy
      && forall p | p in k'.procs :: k'.procs[p].state != Blocked
  {
    ApplyStep(k, i);
    ApplyLively(k, i);
    TickStep(k, i.now, i.pending, i.completed);
    SamePrograms(k, Apply(k, i));
    NobodyBlocks(Apply(k, i));
  }

  lemma SamePrograms(k: System, k': System)
    requires AllSyscallFree(k) && k'.meta == k.meta
    ensures AllSyscallFree(k')
  {
  }

  lemma TickServes(k: System, i: Input, n: int, c: int)
    requires Inv(k) && Lively(k) && AllSyscallFree(k) && k.policy == Priority && Legal(k, i) && i.Elapse?
    requires ServesAtLeast(k, n, c) || (n == 0 && k.cpu.Idle? && UsedAtLeast(k, c) == 0)
    ensures ServesAtLeast(Apply(k, i), n + 1, c)
  {
    var k' := Apply(k, i);
    SyscallFreeTick(k, i);
    TickCounts(k, i.now, i.pending, i.completed, c);
    LeftIffLive(k, c);
    LeftIffLive(k', c);
    if LiveAtLeast(k', c) {
      StaysHigh(k, i.now, i.pending, i.completed, c);
    }
  }

  lemma {:induction false} RunServes(k: System, inputs: seq<Input>, n: int, c: int)
    requires Inv(k) && Lively(k) && AllSyscallFree(k) && k.policy == Priority && ServesAtLeast(k, n, c)
    requires LegalRun(k, inputs) && TicksOnly(inputs)
    ensures var l := Exec(k, inputs);
      Inv(l) && ServesAtLeast(l, n + |inputs|, c) && WorkAtLeast(l, c) == WorkAtLeast(k, c)
    decreases inputs
  {
    if inputs != [] {
      var i := inputs[0];
      SyscallFreeTick(k, i);
      TickCounts(k, i.now, i.pending, i.completed, c);
      TickServes(k, i, n, c);
      RunServes(Apply(k, i), inputs[1..], n + 1, c);
    }
  }

  // ---------- priorities given before the first tick ----------

  ghost predicate NoTicks(inputs: seq<Input>) {
    forall i | 0 <= i < |inputs| :: !inputs[i].Elapse?
  }

  // Everybody is ready and nobody has run.
  ghost predicate Unticked(k: System) {
    k.cpu.Idle? && forall p | p in k.procs :: k.procs[p].used == 0 && k.procs[p].state == Ready
  }

  lemma AdmissionUnticked(k: System, g: Program)
    requires Unticked(k)
    ensures Unticked(RunProgram(k, g)) && RunProgram(k, g).policy == k.policy
  {
    AdmitEffect(k, g);
  }

  lemma StaysUnticked(k: System, i: Input)
    requires Inv(k) && Lively(k) && Unticked(k) && Legal(k, i) && !i.Elapse?
    ensures var k' := Apply(k, i);
      Inv(k') && Lively(k') && Unticked(k') && k'.policy == k.policy
  {
    if i.Run? {
      AdmissionUnticked(k, i.program);
    }
    ApplyStep(k, i);
    ApplyLively(k, i);
  }

  lemma {:induction false} SetupUnticked(k: System, setup: seq<Input>)
    requires Inv(k) && Lively(k) && Unticked(k) && LegalRun(k, setup) && NoTicks(setup)
    ensures var l := Exec(k, setup);
      Inv(l) && Lively(l) && Unticked(l) && l.policy == k.policy
    decreases setup
  {
    if setup != [] {
      StaysUnticked(k, setup[0]);
      SetupUnticked(Apply(k, setup[0]), setup[1..]);
    }
  }

  lemma NothingUsed(k: System, c: int)
    requires Unticked(k)
    ensures UsedAtLeast(k, c) == 0
  {
    SumAgrees(p => UsedIf(k, c, p), _ => 0, k.next);
    SumZero(k.next);
  }

  lemma UntickedServes(k: System, inputs: seq<Input>, c: int)
    requires Inv(k) && Lively(k) && AllSyscallFree(k) && k.policy == Priority && Unticked(k)
    requires LegalRun(k, inputs) && TicksOnly(inputs) && inputs != []
    ensures var l := Exec(k, inputs);
      Inv(l) && ServesAtLeast(l, |inputs|, c) && WorkAtLeast(l, c) == WorkAtLeast(k, c)
  {
    var i := inputs[0];
    NothingUsed(k, c);
    SyscallFreeTick(k, i);
    TickCounts(k, i.now, i.pending, i.completed, c);
    TickServes(k, i, 0, c);
    RunServes(Apply(k, i), inputs[1..], 1, c);
  }

  // The same in numbers: no tick but the first is lost to the processes of priority c or more.
  ghost predicate Counted(k: System, n: int, c: int) {
    && UsedAtLeast(k, c) <= WorkAtLeast(k, c) && UsedAtLeast(k, c) <= n - 1
    && (UsedAtLeast(k, c) < WorkAtLeast(k, c) ==> UsedAtLeast(k, c) == n - 1)
  }

  lemma UntickedCounts(k: System, inputs: seq<Input>, c: int)
    requires Inv(k) && Lively(k) && AllSyscallFree(k) && k.policy == Priority && Unticked(k)
    requires LegalRun(k, inputs) && TicksOnly(inputs) && inputs != []
    ensures Counted(Exec(k, inputs), |inputs|, c) && WorkAtLeast(Exec(k, inputs), c) == WorkAtLeast(k, c)
  {
    UntickedServes(k, inputs, c);
    LeftIffLive(Exec(k, inputs), c);
  }

  lemma UntickedLevels(k: System, inputs: seq<Input>, c: int)
    requires Inv(k) && Lively(k) && AllSyscallFree(k) && k.policy == Priority && Unticked(k)
    requires LegalRun(k, inputs) && TicksOnly(inputs) && LiveAtLeast(k, c)
    ensures LiveAtLeast(Exec(k, inputs), c) <==> |inputs| < 1 + WorkAtLeast(k, c)
  {
    NothingUsed(k, c);
    LeftIffLive(k, c);
    if inputs != [] {
      UntickedServes(k, inputs, c);
      LeftIffLive(Exec(k, inputs), c);
    }
  }

  // The kernel after admissions and changes of priority.
  ghost predicate Prepared(k: System, quantum: int, setup: seq<Input>) {
    LegalRun(Init(Priority, quantum), setup) && NoTicks(setup) && k == Exec(Init(Priority, quantum), setup)
  }

  lemma PreparedUnticked(k: System, quantum: int, setup: seq<Input>)
    requires Prepared(k, quantum, setup)
    ensures Inv(k) && Lively(k) && Unticked(k) && k.policy == Priority
  {
    InitInv(Priority, quantum);
    SetupUnticked(Init(Priority, quantum), setup);
  }

  /** The priorities are served from the highest down: with syscall-free programs and any priorities given before the
      first tick, everybody of priority c or more has terminated exactly from tick 1 + the CPU time they take on. */
  lemma PriorityLevels(k: System, quantum: int, setup: seq<Input>, inputs: seq<Input>, c: int)
    requires Prepared(k, quantum, setup) && AllSyscallFree(k) && LegalRun(k, inputs) && TicksOnly(inputs)
    requires exists p :: p in k.procs && k.procs[p].priority >= c
    ensures LiveAtLeast(Exec(k, inputs), c) <==> |inputs| < 1 + WorkAtLeast(k, c)
  {
    PreparedUnticked(k, quantum, setup);
    UntickedLevels(k, inputs, c);
  }

  // ---------- one process ----------

  // Nobody else has the priority of p.
  ghost predicate Alone(k: System, p: Pid) {
    p in k.procs && forall q | q in k.procs && q != p :: k.procs[q].priority != k.procs[p].priority
  }

  // The least priority above that of p.
  function Above(k: System, p: Pid): int {
    PriorityOf(k.procs, p) + 1
  }

  // What p adds to those above it.
  lemma AloneAdds(k: System, p: Pid)
    requires Registered(k) && Alone(k, p)
    ensures var c := k.procs[p].priority;
      && WorkAtLeast(k, c) == Finish(k.meta[p]) + WorkAtLeast(k, Above(k, p))
      && UsedAtLeast(k, c) == k.procs[p].used + UsedAtLeast(k, Above(k, p))
  {
    var c, d := k.procs[p].priority, Above(k, p);
    SumOneChange(q => WorkIf(k, d, q), q => WorkIf(k, c, q), k.next, p);
    SumOneChange(q => UsedIf(k, d, q), q => UsedIf(k, c, q), k.next, p);
  }

  lemma {:induction false} TicksKeepPriorities(k: System, inputs: seq<Input>)
    requires Inv(k) && LegalRun(k, inputs) && TicksOnly(inputs)
    ensures var l := Exec(k, inputs);
      l.next == k.next && l.meta == k.meta && SamePriorityMap(k.procs, l.procs)
    decreases inputs
  {
    if inputs != [] {
      var i := inputs[0];
      ApplyStep(k, i);
      TickStep(k, i.now, i.pending, i.completed);
      TickKeepsPriorities(k, i.now, i.pending, i.completed);
      TicksKeepPriorities(Apply(k, i), inputs[1..]);
    }
  }

  lemma StillAlone(k: System, l: System, p: Pid)
    requires Registered(k) && Registered(l) && l.next == k.next && SamePriorityMap(k.procs, l.procs) && Alone(k, p)
    ensures Alone(l, p) && l.procs[p].priority == k.procs[p].priority && Above(l, p) == Above(k, p)
  {
    assert PriorityOf(l.procs, p) == PriorityOf(k.procs, p) && p in l.procs;
    forall q | q in l.procs && q != p
      ensures l.procs[q].priority != l.procs[p].priority
    {
      assert PriorityOf(l.procs, q) == PriorityOf(k.procs, q) && q in k.procs;
    }
  }

  // The tick in which process p, alone in its priority, terminates.
  ghost function DoneAt(k: System, p: Pid): int
    requires p in k.procs && p in k.meta
  {
    1 + Finish(k.meta[p]) + WorkAtLeast(k, Above(k, p))
  }

  // Process p is done exactly when everybody of its priority or more is.
  lemma AloneIsLast(l: System, n: int, p: Pid)
    requires Inv(l) && Alone(l, p)
    requires Counted(l, n, l.procs[p].priority) && Counted(l, n, Above(l, p))
    ensures p in l.meta && (l.procs[p].state == Terminated <==> n >= DoneAt(l, p))
  {
    AloneAdds(l, p);
    DoneIsTerminated(l, p);
  }

  lemma AloneAfter(k: System, inputs: seq<Input>, p: Pid)
    requires Inv(k) && LegalRun(k, inputs) && TicksOnly(inputs) && Alone(k, p)
    ensures var l := Exec(k, inputs);
      && Inv(l) && Alone(l, p) && l.meta == k.meta
      && l.procs[p].priority == k.procs[p].priority && Above(l, p) == Above(k, p)
  {
    RunKeepsInv(k, inputs);
    TicksKeepPriorities(k, inputs);
    StillAlone(k, Exec(k, inputs), p);
  }

  lemma UntickedDone(k: System, p: Pid)
    requires Inv(k) && Unticked(k) && p in k.procs
    ensures p in k.meta && k.procs[p].state != Terminated && DoneAt(k, p) > 0
  {
    NothingUsed(k, Above(k, p));
    LeftIffLive(k, Above(k, p));
  }

  lemma ServedTimes(k: System, inputs: seq<Input>, p: Pid)
    requires Inv(k) && LegalRun(k, inputs) && TicksOnly(inputs) && Alone(k, p) && p in k.meta
    requires Counted(Exec(k, inputs), |inputs|, k.procs[p].priority)
    requires Counted(Exec(k, inputs), |inputs|, Above(k, p))
    requires WorkAtLeast(Exec(k, inputs), Above(k, p)) == WorkAtLeast(k, Above(k, p))
    ensures var l := Exec(k, inputs);
      p in l.procs && (l.procs[p].state == Terminated <==> |inputs| >= DoneAt(k, p))
  {
    AloneAfter(k, inputs, p);
    AloneIsLast(Exec(k, inputs), |inputs|, p);
  }

  lemma UntickedTimes(k: System, inputs: seq<Input>, p: Pid)
    requires Inv(k) && Lively(k) && AllSyscallFree(k) && k.policy == Priority && Unticked(k)
    requires LegalRun(k, inputs) && TicksOnly(inputs) && Alone(k, p)
    ensures var l := Exec(k, inputs);
      p in l.procs && p in k.meta && (l.procs[p].state == Terminated <==> |inputs| >= DoneAt(k, p))
  {
    UntickedDone(k, p);
    if inputs != [] {
      UntickedCounts(k, inputs, k.procs[p].priority);
      UntickedCounts(k, inputs, Above(k, p));
      ServedTimes(k, inputs, p);
    }
  }

  /** Completion times under Priority: with syscall-free programs and the priorities given before the first tick, a
      process that is alone in its priority terminates in exactly tick 1 + its CPU time + the CPU time of everybody of
      higher priority, whatever the quantum, the order of the ready queue, and the ties among the others. */
  lemma PriorityCompletion(k: System, quantum: int, setup: seq<Input>, inputs: seq<Input>, p: Pid)
    requires Prepared(k, quantum, setup) && AllSyscallFree(k) && LegalRun(k, inputs) && TicksOnly(inputs)
    requires Alone(k, p)
    ensures var l := Exec(k, inputs);
      p in l.procs && p in k.meta && (l.procs[p].state == Terminated <==> |inputs| >= DoneAt(k, p))
  {
    PreparedUnticked(k, quantum, setup);
    UntickedTimes(k, inputs, p);
  }
}
