/** Syscall-free workloads on a first come, first served queue: fairness in every state, and the exact
    tick at which each process completes when quanta do not matter. */
module Fairness {
  import opened Types
  import opened Programs
  import opened Machine
  import opened Consistency
  import opened Turns
  import opened Projection
  import opened Runs
  import opened Outcomes
  import opened Termination
  import opened Workloads
  import opened Fifo

  ghost predicate AllSyscallFree(k: System) {
    forall p | p in k.meta :: SyscallFree(k.meta[p])
  }

  lemma NobodyBlocks(k: System)
    requires Inv(k) && Lively(k) && AllSyscallFree(k)
    ensures k.blocked == [] && NoSyscallNext(k)
    ensures forall p | p in k.procs :: k.procs[p].state != Blocked
  {
    forall p | p in k.procs
      ensures k.procs[p].state != Blocked
      ensures k.procs[p].state == Running ==> k.procs[p].used + 1 !in k.meta[p].profile
    {
      LifeState(k, k.blocked, p);
      var g := k.meta[p];
      assert Sound(g, Slice(k), k.now, LifeOf(k, p));
      assert forall t | 1 <= t <= Finish(g) :: t !in Fired(g.profile, Finish(g));
    }
    EntriesAreBlocked(k);
  }

  lemma EntriesAreBlocked(k: System)
    requires Located(k, k.blocked)
    ensures k.blocked == [] || (k.blocked[0].pid in k.procs && k.procs[k.blocked[0].pid].state == Blocked)
  {
  }

  lemma QuietInput(k: System, t: Input)
    requires Inv(k) && Lively(k) && AllSyscallFree(k) && k.policy != Priority && Legal(k, t) && t.Elapse?
    ensures var k' := Apply(k, t);
      && Inv(k') && Lively(k') && AllSyscallFree(k')
      && k'.policy == k.policy && Quantum(k') == Quantum(k) && Slice(k') == Slice(k)
    ensures NoSyscallNext(k) && QuietStep(k, Apply(k, t))
  {
    NobodyBlocks(k);
    ApplyStep(k, t);
    ApplyLively(k, t);
    QuietTick(k, t.now, t.pending, t.completed);
    QuietFrame(k, Apply(k, t));
  }

  lemma QuietFrame(k: System, k': System)
    requires NoSyscallNext(k) && QuietStep(k, k') && AllSyscallFree(k)
    ensures AllSyscallFree(k') && k'.policy == k.policy && Quantum(k') == Quantum(k) && Slice(k') == Slice(k)
  {
  }

  // Everybody ready has used b or b + slice, the first m of the queue b and the others b + slice;
  // the running process is in between, and its quantum ends when it has used b + slice.
  ghost predicate Round(k: System, b: int, m: nat) {
    && m <= |k.ready|
    && (forall i | 0 <= i < |k.ready| :: k.ready[i] in k.procs
          && k.procs[k.ready[i]].used == if i < m then b else b + Slice(k))
    && if k.cpu.Executing? then
         k.cpu.pid in k.procs && b <= k.procs[k.cpu.pid].used == b + Slice(k) - EventIn(k)
       else m == |k.ready|
  }

  // The queue a freed CPU dispatches from is still in rounds.
  lemma RequeuedRound(k: System, b: int, m: nat)
    requires Located(k, k.blocked) && Round(k, b, m) && Frees(k)
    ensures var q := Requeued(k);
      && m <= |q|
      && (forall i | 0 <= i < |q| :: q[i] in k.procs
            && k.procs[q[i]].used + (if k.cpu.Executing? && k.cpu.pid == q[i] then 1 else 0) ==
               if i < m then b else b + Slice(k))
  {
    var q := Requeued(k);
    assert forall i | 0 <= i < |k.ready| :: k.ready[i] in k.ready && q[i] == k.ready[i];
  }

  lemma NextRound(k: System, k': System, b: int, m: nat) returns (b': int, m': nat)
    requires Inv(k) && k.policy != Priority && QuietStep(k, k') && Slice(k') == Slice(k)
    requires Round(k, b, m)
    ensures Round(k', b', m')
    ensures if !Frees(k) then b' == b && m' == m
            else if Requeued(k) == [] then true
            else if m > 0 then b' == b && m' == m - 1
            else b' == b + Slice(k) && m' == |Requeued(k)| - 1
  {
    var q := Requeued(k);
    b' := if !Frees(k) || q == [] || m > 0 then b else b + Slice(k);
    m' := if !Frees(k) then m else if q == [] then 0 else if m > 0 then m - 1 else |q| - 1;
    if !Frees(k) {
      SameRound(k, k', b, m);
    } else {
      FreedRound(k, k', b, m, b', m');
    }
  }

  lemma SameRound(k: System, k': System, b: int, m: nat)
    requires Inv(k) && QuietStep(k, k') && Slice(k') == Slice(k) && Round(k, b, m) && !Frees(k)
    ensures Round(k', b, m)
  {
    assert forall i | 0 <= i < |k.ready| :: k.ready[i] in k.ready;
  }

  lemma FreedRound(k: System, k': System, b: int, m: nat, b': int, m': nat)
    requires Inv(k) && k.policy != Priority && QuietStep(k, k') && Slice(k') == Slice(k) && Round(k, b, m) && Frees(k)
    requires var q := Requeued(k);
      && m <= |q|
      && b' == (if q == [] || m > 0 then b else b + Slice(k))
      && m' == if q == [] then 0 else if m > 0 then m - 1 else |q| - 1
    ensures Round(k', b', m')
  {
    RequeuedRound(k, b, m);
    DispatchedRound(k, k', Requeued(k), b, m, b', m');
  }

  lemma DispatchedRound(k: System, k': System, q: seq<Pid>, b: int, m: nat, b': int, m': nat)
    requires forall i | 0 <= i < |q| :: q[i] in k'.procs && k'.procs[q[i]].used == if i < m then b else b + Slice(k')
    requires if q == [] then k'.ready == [] && k'.cpu.Idle?
             else k'.ready == q[1..] && k'.cpu.Executing? && k'.cpu.pid == q[0] && EventIn(k') == Slice(k')
    requires m <= |q|
    requires b' == if q == [] || m > 0 then b else b + Slice(k')
    requires m' == if q == [] then 0 else if m > 0 then m - 1 else |q| - 1
    ensures Round(k', b', m')
  {
  }

  lemma {:induction false} RunInRounds(k: System, inputs: seq<Input>, b: int, m: nat) returns (b': int, m': nat)
    requires Inv(k) && Lively(k) && AllSyscallFree(k) && k.policy != Priority && Round(k, b, m)
    requires LegalRun(k, inputs) && TicksOnly(inputs)
    ensures Round(Exec(k, inputs), b', m')
    decreases inputs
  {
    b', m' := b, m;
    if inputs != [] {
      var k' := Apply(k, inputs[0]);
      QuietInput(k, inputs[0]);
      b', m' := NextRound(k, k', b, m);
      b', m' := RunInRounds(k', inputs[1..], b', m');
    }
  }

  lemma LiveInRound(k: System, b: int, m: nat, p: Pid)
    requires Located(k, k.blocked) && k.blocked == [] && Round(k, b, m)
    requires p in k.procs && k.procs[p].state != Terminated
    ensures b <= k.procs[p].used <= b + Slice(k)
  {
    assert Placed(k, k.blocked, p);
  }

  lemma LoadedInRound(k: System, policy: SchedulingPolicy, quantum: int, gs: seq<Program>)
    requires Loaded(k, policy, quantum, gs) && (forall g | g in gs :: SyscallFree(g))
    ensures Round(k, 0, |k.ready|) && AllSyscallFree(k)
  {
    forall i | 0 <= i < |k.ready|
      ensures k.ready[i] in k.procs && k.procs[k.ready[i]].used == 0
    {
      assert k.ready[i] == i + 1;
    }
    forall p | p in k.meta
      ensures SyscallFree(k.meta[p])
    {
      assert gs[p - 1] in gs;
    }
  }

  /** Round Robin is fair: with syscall-free programs admitted up front, the CPU times of any two live
      processes never differ by more than one quantum. */
  lemma RoundRobinIsFair(quantum: int, gs: seq<Program>, inputs: seq<Input>, p: Pid, q: Pid)
    requires forall g | g in gs :: SyscallFree(g)
    requires LegalRun(Workload(RoundRobin, quantum, gs), inputs) && TicksOnly(inputs)
    requires var k := Exec(Workload(RoundRobin, quantum, gs), inputs);
      p in k.procs && q in k.procs && k.procs[p].state != Terminated && k.procs[q].state != Terminated
    ensures var k := Exec(Workload(RoundRobin, quantum, gs), inputs);
      k.procs[p].used - k.procs[q].used <= Max(1, quantum)
  {
    WorkloadLoaded(RoundRobin, quantum, gs);
    LoadedIsFair(Workload(RoundRobin, quantum, gs), quantum, gs, inputs, p, q);
  }

  lemma LoadedIsFair(k: System, quantum: int, gs: seq<Program>, inputs: seq<Input>, p: Pid, q: Pid)
    requires Loaded(k, RoundRobin, quantum, gs) && (forall g | g in gs :: SyscallFree(g))
    requires LegalRun(k, inputs) && TicksOnly(inputs)
    requires var l := Exec(k, inputs);
      p in l.procs && q in l.procs && l.procs[p].state != Terminated && l.procs[q].state != Terminated
    ensures Exec(k, inputs).procs[p].used - Exec(k, inputs).procs[q].used <= Max(1, quantum)
  {
    var l := Exec(k, inputs);
    LoadedInRound(k, RoundRobin, quantum, gs);
    TickRun(k, inputs);
    var b, m := RunInRounds(k, inputs, 0, |k.ready|);
    NobodyBlocks(l);
    LiveInRound(l, b, m, p);
    LiveInRound(l, b, m, q);
  }

  // ---------- completion times ----------

  // The PIDs i + 1, ..., n.
  function PidsAfter(i: nat, n: nat): seq<Pid>
    requires i <= n
  {
    seq(n - i, j => i + 1 + j)
  }

  // After n >= 1 ticks process i is served, those before it are done, those behind it wait untouched.
  ghost predicate Serving(k: System, gs: seq<Program>, n: int, i: nat) {
    && 1 <= i <= |gs| + 1 && k.next == |gs| + 1
    && (forall p | 1 <= p <= |gs| :: p in k.procs && p in k.meta && k.meta[p] == gs[p - 1]
          && (p < i ==> k.procs[p].used == Finish(gs[p - 1])) && (p > i ==> k.procs[p].used == 0))
    && if i <= |gs| then
         && k.ready == PidsAfter(i, |gs|)
         && k.cpu.Executing? && k.cpu.pid == i
         && k.procs[i].used == n - 1 - CpuWork(gs[..i - 1])
         && k.cpu.remaining == Quantum(k) - k.procs[i].used
       else
         k.ready == [] && k.cpu.Idle? && n >= 1 + CpuWork(gs)
  }

  ghost predicate OneSliceEach(gs: seq<Program>, quantum: int) {
    forall g | g in gs :: SyscallFree(g) && Finish(g) <= quantum
  }

  lemma ServedTick(k: System, gs: seq<Program>, n: int, i: nat)
    requires Located(k, k.blocked) && OneSliceEach(gs, Quantum(k)) && NoSyscallNext(k)
    requires Serving(k, gs, n, i) && i <= |gs|
    ensures i in k.procs && i in k.meta
    ensures Retired(k) == if k.procs[i].used + 1 == Finish(gs[i - 1]) then Terminated else Running
  {
    assert gs[i - 1] in gs && Progressed(k, i);
    assert k.procs[i].state == Running;
    ExitPoint(gs[i - 1], k.procs[i].used + 1);
  }

  lemma ServesOn(k: System, k': System, gs: seq<Program>, n: int, i: nat)
    requires Serving(k, gs, n, i) && i <= |gs| && Quantum(k') == Quantum(k)
    requires !Frees(k) && QuietStep(k, k')
    ensures Serving(k', gs, n + 1, i)
  {
  }

  lemma ServesNext(k: System, k': System, gs: seq<Program>, n: int, i: nat)
    requires Serving(k, gs, n, i) && i <= |gs| && Quantum(k') == Quantum(k)
    requires Retired(k) == Terminated && k.procs[i].used + 1 == Finish(gs[i - 1]) && QuietStep(k, k')
    ensures Serving(k', gs, n + 1, i + 1)
  {
    WorkUpTo(gs, i);
    if i < |gs| {
      assert k.ready[1..] == PidsAfter(i + 1, |gs|);
    } else {
      assert gs[..i] == gs;
    }
  }

  lemma ServingGoesOn(k: System, k': System, gs: seq<Program>, n: int, i: nat) returns (i': nat)
    requires Inv(k) && OneSliceEach(gs, Quantum(k)) && NoSyscallNext(k)
    requires Serving(k, gs, n, i) && QuietStep(k, k') && Quantum(k') == Quantum(k)
    ensures Serving(k', gs, n + 1, i')
  {
    i' := i;
    if i <= |gs| {
      ServedTick(k, gs, n, i);
      if Retired(k) == Terminated {
        i' := i + 1;
        ServesNext(k, k', gs, n, i);
      } else {
        ServesOn(k, k', gs, n, i);
      }
    }
  }

  lemma FirstIsServed(k: System, k': System, policy: SchedulingPolicy, quantum: int, gs: seq<Program>)
    requires Untouched(k, policy, quantum, gs) && QuietStep(k, k') && Quantum(k') == Quantum(k)
    ensures Serving(k', gs, 1, 1)
  {
    FirstFromIdle(k, k', gs);
  }

  lemma FirstFromIdle(k: System, k': System, gs: seq<Program>)
    requires k.cpu.Idle? && k.ready == FirstPids(|gs|) && k.next == |gs| + 1
    requires forall p | 1 <= p <= |gs| :: p in k.procs && p in k.meta && k.meta[p] == gs[p - 1] && k.procs[p].used == 0
    requires QuietStep(k, k') && Quantum(k') == Quantum(k)
    ensures Serving(k', gs, 1, 1)
  {
    if gs != [] {
      assert k.ready[1..] == PidsAfter(1, |gs|);
    }
  }

  lemma {:induction false} ServedInTurn(k: System, inputs: seq<Input>, gs: seq<Program>, n: int, i: nat)
    returns (i': nat)
    requires Inv(k) && Lively(k) && AllSyscallFree(k) && k.policy != Priority && OneSliceEach(gs, Quantum(k))
    requires Serving(k, gs, n, i) && LegalRun(k, inputs) && TicksOnly(inputs)
    ensures Serving(Exec(k, inputs), gs, n + |inputs|, i')
    decreases inputs
  {
    i' := i;
    if inputs != [] {
      var k' := Apply(k, inputs[0]);
      QuietInput(k, inputs[0]);
      i' := ServingGoesOn(k, k', gs, n, i);
      i' := ServedInTurn(k', inputs[1..], gs, n + 1, i');
    }
  }

  lemma {:induction false} CpuWorkGrows(gs: seq<Program>, i: nat, j: nat)
    requires i <= j <= |gs|
    ensures CpuWork(gs[..i]) <= CpuWork(gs[..j])
    ensures i < j ==> CpuWork(gs[..i]) < CpuWork(gs[..j])
    decreases j - i
  {
    if i < j {
      CpuWorkGrows(gs, i, j - 1);
      assert gs[..j][..j - 1] == gs[..j - 1];
    }
  }

  // The terminated are those that have used their CPU time.
  lemma DoneIsTerminated(k: System, p: Pid)
    requires Inv(k) && p in k.procs
    ensures p in k.meta && 0 <= k.procs[p].used <= Finish(k.meta[p])
    ensures k.procs[p].state == Terminated <==> k.procs[p].used == Finish(k.meta[p])
    ensures k.cpu.Executing? && k.cpu.pid == p ==> k.procs[p].used < Finish(k.meta[p])
  {
    assert Progressed(k, p);
  }

  lemma WorkUpTo(gs: seq<Program>, i: nat)
    requires 1 <= i <= |gs|
    ensures CpuWork(gs[..i]) == CpuWork(gs[..i - 1]) + Finish(gs[i - 1])
  {
    assert gs[..i][..i - 1] == gs[..i - 1];
  }

  lemma ServingDecides(k: System, gs: seq<Program>, n: int, i: nat, p: Pid)
    requires Serving(k, gs, n, i) && 1 <= p <= |gs|
    requires i <= |gs| ==> 0 <= k.procs[i].used < Finish(gs[i - 1])
    ensures k.procs[p].used == Finish(gs[p - 1]) <==> n >= 1 + CpuWork(gs[..p])
  {
    assert gs[..|gs|] == gs;
    if i > |gs| {
      CpuWorkGrows(gs, p, |gs|);
    } else {
      WorkUpTo(gs, i);
      if p < i {
        CpuWorkGrows(gs, p, i - 1);
      } else {
        CpuWorkGrows(gs, i, p);
      }
    }
  }

  lemma DoneInServing(k: System, gs: seq<Program>, n: int, i: nat, p: Pid)
    requires Inv(k) && Serving(k, gs, n, i) && 1 <= p <= |gs|
    ensures p in k.procs
    ensures k.procs[p].state == Terminated <==> n >= 1 + CpuWork(gs[..p])
  {
    DoneIsTerminated(k, p);
    if i <= |gs| {
      DoneIsTerminated(k, i);
    }
    ServingDecides(k, gs, n, i, p);
  }

  /** Completion times: with syscall-free programs that each fit into one quantum, admitted up front,
      FCFS and Round Robin serve them in order, and the p-th terminates in tick 1 + F(1) + ... + F(p). */
  lemma CompletionTimes(policy: SchedulingPolicy, quantum: int, gs: seq<Program>, inputs: seq<Input>, p: Pid)
    requires policy != Priority && OneSliceEach(gs, if policy == FCFS then INT_MAX else quantum)
    requires LegalRun(Workload(policy, quantum, gs), inputs) && TicksOnly(inputs) && 1 <= p <= |gs|
    ensures var k := Exec(Workload(policy, quantum, gs), inputs);
      p in k.procs && (k.procs[p].state == Terminated <==> |inputs| >= 1 + CpuWork(gs[..p]))
  {
    WorkloadLoaded(policy, quantum, gs);
    LoadedCompletion(Workload(policy, quantum, gs), policy, quantum, gs, inputs, p);
  }

  lemma LoadedCompletion(k: System, policy: SchedulingPolicy, quantum: int, gs: seq<Program>, inputs: seq<Input>,
                         p: Pid)
    requires Loaded(k, policy, quantum, gs) && policy != Priority && OneSliceEach(gs, Quantum(k))
    requires LegalRun(k, inputs) && TicksOnly(inputs) && 1 <= p <= |gs|
    ensures var l := Exec(k, inputs);
      p in l.procs && (l.procs[p].state == Terminated <==> |inputs| >= 1 + CpuWork(gs[..p]))
  {
    if inputs == [] {
      NobodyDone(k, policy, quantum, gs, p);
    } else {
      FirstTickServes(k, inputs[0], policy, quantum, gs);
      ServedCompletion(Apply(k, inputs[0]), inputs[1..], gs, p);
    }
  }

  lemma NobodyDone(k: System, policy: SchedulingPolicy, quantum: int, gs: seq<Program>, p: Pid)
    requires Untouched(k, policy, quantum, gs) && 1 <= p <= |gs|
    ensures p in k.procs && k.procs[p].state == Ready && CpuWork(gs[..p]) >= 0
  {
    CpuWorkGrows(gs, 0, p);
  }

  lemma FirstTickServes(k: System, i: Input, policy: SchedulingPolicy, quantum: int, gs: seq<Program>)
    requires Loaded(k, policy, quantum, gs) && policy != Priority && OneSliceEach(gs, Quantum(k))
    requires Legal(k, i) && i.Elapse?
    ensures var k' := Apply(k, i);
      && Inv(k') && Lively(k') && AllSyscallFree(k') && k'.policy != Priority && Quantum(k') == Quantum(k)
      && Serving(k', gs, 1, 1)
  {
    LoadedInRound(k, policy, quantum, gs);
    QuietInput(k, i);
    FirstIsServed(k, Apply(k, i), policy, quantum, gs);
  }

  lemma ServedCompletion(k: System, inputs: seq<Input>, gs: seq<Program>, p: Pid)
    requires Inv(k) && Lively(k) && AllSyscallFree(k) && k.policy != Priority && OneSliceEach(gs, Quantum(k))
    requires Serving(k, gs, 1, 1) && LegalRun(k, inputs) && TicksOnly(inputs) && 1 <= p <= |gs|
    ensures var l := Exec(k, inputs);
      p in l.procs && (l.procs[p].state == Terminated <==> 1 + |inputs| >= 1 + CpuWork(gs[..p]))
  {
    RunKeepsInv(k, inputs);
    var i := ServedInTurn(k, inputs, gs, 1, 1);
    DoneInServing(Exec(k, inputs), gs, 1 + |inputs|, i, p);
  }
}
