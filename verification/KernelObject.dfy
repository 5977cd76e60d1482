/** The kernel as an object: it updates its own fields, the queues, the CPU and the shared process
    control blocks in place. Every method is the function of the same name in Machine. */
module KernelObject {
  import opened Types
  import opened ProcessControlBlocks
  import opened CpuUnit
  import opened Queues
  import opened Scheduling
  import opened Consistency
  import M = Machine
  import R = Runs
  import O = Outcomes
  import F = Fifo

  ghost function Entries(q: seq<BlockedEntry>): seq<M.Entry>
  {
    seq(|q|, i requires 0 <= i < |q| => M.Entry(q[i].pcb.pid, q[i].wakeupTick))
  }

  lemma CountWithout<T>(a: seq<T>, i: nat)
    requires i < |a|
    ensures multiset(a) == multiset(M.Without(a, i)) + multiset{a[i]}
    ensures multiset(M.Without(a, i)) == multiset(a) - multiset{a[i]}
  {
    assert a == a[..i] + ([a[i]] + a[i + 1..]);
    assert multiset(a) == multiset(a[..i]) + multiset([a[i]] + a[i + 1..]);
  }

  lemma EntriesWithout(a: seq<BlockedEntry>, i: nat)
    requires i < |a|
    ensures Entries(M.Without(a, i)) == M.Without(Entries(a), i)
  {
  }

  // Reordering the entries reorders their images.
  lemma {:induction false} SameEntries(a: seq<BlockedEntry>, b: seq<BlockedEntry>)
    requires multiset(a) == multiset(b)
    ensures multiset(Entries(a)) == multiset(Entries(b))
    decreases |a|
  {
    if a == [] {
      assert |b| == |multiset(b)| == |multiset(a)| == 0;
    } else {
      assert a[0] in multiset(b);
      var i :| 0 <= i < |b| && b[i] == a[0];
      CountWithout(a, 0);
      CountWithout(b, i);
      SameEntries(M.Without(a, 0), M.Without(b, i));
      EntriesWithout(a, 0);
      EntriesWithout(b, i);
      CountWithout(Entries(a), 0);
      CountWithout(Entries(b), i);
    }
  }

  lemma SplitEntries(all: seq<BlockedEntry>, pending: seq<BlockedEntry>, gone: seq<BlockedEntry>, tick: int)
    requires multiset(all) == multiset(pending) + multiset(gone)
    requires forall e | e in pending :: e.wakeupTick > tick
    requires forall e | e in gone :: e.wakeupTick <= tick
    ensures M.IsPartition(Entries(all), tick, Entries(pending), Entries(gone))
    ensures forall e | e in pending || e in gone :: e in all
  {
    assert forall e | e in pending || e in gone :: e in multiset(all);
    SameEntries(all, pending + gone);
    assert Entries(pending + gone) == Entries(pending) + Entries(gone);
  }

  // The PIDs are given in the order of the master list.
  ghost predicate Numbered(q: seq<ProcessControlBlock>) {
    forall i | 0 <= i < |q| :: q[i].pid == i + 1
  }

  ghost function ProcsOf(q: seq<ProcessControlBlock>): map<Pid, M.Pcb>
    reads q
  {
    if q == [] then map[]
    else
      var last := q[|q| - 1];
      ProcsOf(q[..|q| - 1])[last.pid := last.Abs()]
  }

  lemma {:induction false} ProcsFacts(q: seq<ProcessControlBlock>)
    requires Numbered(q)
    ensures forall p :: p in ProcsOf(q) <==> 1 <= p <= |q|
    ensures forall i | 0 <= i < |q| :: ProcsOf(q)[i + 1] == q[i].Abs()
  {
    if q != [] {
      ProcsFacts(q[..|q| - 1]);
    }
  }

  // All values but the one of pcb are what they were before.
  lemma ProcsChange(q: seq<ProcessControlBlock>, before: map<Pid, M.Pcb>, pcb: ProcessControlBlock)
    requires Numbered(q) && pcb in q
    requires forall p :: p in before <==> 1 <= p <= |q|
    requires forall i | 0 <= i < |q| && q[i] != pcb :: before[i + 1] == q[i].Abs()
    ensures ProcsOf(q) == before[pcb.pid := pcb.Abs()]
  {
    ProcsFacts(q);
    var j :| 0 <= j < |q| && q[j] == pcb;
    var after, expected := ProcsOf(q), before[pcb.pid := pcb.Abs()];
    forall p | p in expected
      ensures p in after && after[p] == expected[p]
    {
      assert q[p - 1].pid == p;
      assert after[(p - 1) + 1] == q[p - 1].Abs();
    }
    forall p | p in after
      ensures p in expected
    {
      assert p in before;
    }
  }

  // The process p on the CPU has executed one tick.
  ghost predicate OneTickOn(k: M.System, p: Pid, x: M.System) {
    && k.cpu.Executing? && k.cpu.pid == p && p in k.procs
    && var b := k.procs[p];
      x == k.(procs := k.procs[p := b.(used := b.used + 1, counter := b.counter + 1)],
              cpu := k.cpu.(remaining := k.cpu.remaining - 1))
  }

  // The event of a process that has now used so many ticks, by the CPU before the tick.
  function EventAfter(used: int, estimate: int, cpu: M.Cpu): Option<KernelEvent>
    requires cpu.Executing?
  {
    if used in cpu.profile then Some(SyscallBlock)
    else if used >= estimate then Some(ProcessExit)
    else if cpu.remaining - 1 <= 0 then Some(KernelEvent.QuantumExpired)
    else None
  }

  lemma Executed(k: M.System, p: Pid, x: M.System)
    requires OneTickOn(k, p, x)
    ensures x == M.ExecuteTick(k)
    ensures M.RaisedEvent(x) == EventAfter(k.procs[p].used + 1, k.procs[p].estimate, k.cpu)
  {
  }

  // The ready queue with one more process, of this priority.
  function Joined(k: M.System, p: Pid, priority: int): seq<Pid> {
    if k.policy == Priority then M.Insert(k.ready, M.InsertionPoint(k.ready, k.procs, priority), p)
    else k.ready + [p]
  }

  // The kernel once the next process has been created, announced and made READY.
  function Announced(k: M.System, meta: Program): M.System {
    var p := k.next;
    k.(next := p + 1, meta := k.meta[p := meta], log := (k.log + [Created(p)]) + [Transitioned(p, New, Ready)])
  }

  class Kernel {
    const policy: SchedulingPolicy
    const timeQuantum: int
    const memoryManager: MemoryManager
    const scheduler: Scheduler
    const cpu: CPU
    var currentTick: int
    var programs: map<int, Program>
    var nextProgramId: int
    var nextPid: Pid
    var allProcesses: seq<ProcessControlBlock>
    var processMetadata: map<Pid, Program>
    // What the observers were told.
    var log: seq<Notice>
    // An exception left the kernel.
    var thrown: bool

    ghost predicate Valid()
      reads this, cpu, memoryManager.readyQueue, memoryManager.blockedQueue, allProcesses
    {
      && scheduler.memoryManager == memoryManager
      && scheduler.strategy == CreateStrategy(policy, timeQuantum)
      && nextPid == |allProcesses| + 1
      && Numbered(allProcesses)
      && (forall p | p in processMetadata :: p < nextPid)
      && (forall p | p in memoryManager.readyQueue.queue :: p in allProcesses)
      && (forall e | e in memoryManager.blockedQueue.entries :: e.pcb in allProcesses)
      && cpu.Valid() && (cpu.currentProcess != null ==> cpu.currentProcess in allProcesses)
      && (forall p | p in allProcesses :: p.programCounter == p.cpuTimeUsed)
    }

    ghost function Procs(): map<Pid, M.Pcb>
      reads this, allProcesses
    {
      ProcsOf(allProcesses)
    }

    static ghost function Pids(q: seq<ProcessControlBlock>): seq<Pid>
    {
      seq(|q|, i requires 0 <= i < |q| => q[i].pid)
    }

    // The state of the kernel as a value.
    ghost function Abs(): M.System
      reads this, cpu, memoryManager.readyQueue, memoryManager.blockedQueue, allProcesses
    {
      M.System(policy, timeQuantum, currentTick, Procs(), processMetadata, nextPid,
               Pids(memoryManager.readyQueue.queue), Entries(memoryManager.blockedQueue.entries),
               cpu.Abs(), log, thrown)
    }

    constructor (policy: SchedulingPolicy, timeQuantum: int)
      ensures Valid() && allProcesses == []
      ensures fresh(cpu) && fresh(memoryManager.readyQueue) && fresh(memoryManager.blockedQueue)
      ensures Abs() == M.Init(policy, timeQuantum) && programs == map[]
    {
      this.policy, this.timeQuantum := policy, timeQuantum;
      var mm := new MemoryManager();
      memoryManager := mm;
      scheduler := new Scheduler(policy, timeQuantum, mm);
      cpu := new CPU();
      currentTick, programs, nextProgramId, nextPid := 0, map[], 1, 1;
      allProcesses, processMetadata, log, thrown := [], map[], [], false;
    }

    // ---------- state changes of one process ----------

    method Notify(e: Notice)
      requires Valid()
      modifies this`log
      ensures Valid() && Abs() == M.Notify(old(Abs()), e) && log == old(log) + [e]
    {
      log := log + [e];
    }

    // A valid transition in the abstract state.
    lemma Moved(k: M.System, p: Pid, t: StateTransition)
      requires p in k.procs
      ensures M.Move(k, p, t) ==
        var b := k.procs[p];
        if IsValidTransition(b.state, t)
        then k.(procs := k.procs[p := b.(state := TargetState(t))],
                log := k.log + [Transitioned(p, b.state, TargetState(t))])
        else k.(thrown := true)
    {
    }

    // ProcessControlBlock::applyTransition, seen from the whole kernel.
    method ApplyTransition(pcb: ProcessControlBlock, t: StateTransition) returns (ok: bool)
      requires Valid() && pcb in allProcesses
      modifies pcb`state
      ensures Valid() && ok == IsValidTransition(old(pcb.state), t)
      ensures old(Abs()).procs == old(Procs()) && pcb.pid in old(Procs()) && old(Procs()[pcb.pid].state == pcb.state)
      ensures pcb.state == if ok then TargetState(t) else old(pcb.state)
      ensures Abs() == old(Abs()).(procs := old(Procs())[pcb.pid := old(Procs()[pcb.pid]).(state := pcb.state)])
    {
      ghost var before := Procs();
      ProcsFacts(allProcesses);
      ok := pcb.ApplyTransition(t);
      ProcsChange(allProcesses, before, pcb);
    }

    method Throw()
      requires Valid()
      modifies this`thrown
      ensures Valid() && Abs() == old(Abs()).(thrown := true) && thrown
    {
      thrown := true;
    }

    method TransitionState(pcb: ProcessControlBlock, t: StateTransition)
      requires Valid() && pcb in allProcesses
      modifies this`log, this`thrown, pcb`state
      ensures Valid() && Abs() == M.Move(old(Abs()), pcb.pid, t)
      ensures if IsValidTransition(old(pcb.state), t)
              then pcb.state == TargetState(t) && thrown == old(thrown)
                && log == old(log) + [Transitioned(pcb.pid, old(pcb.state), TargetState(t))]
              else pcb.state == old(pcb.state) && thrown && log == old(log)
    {
      var from := pcb.state;
      var ok := ApplyTransition(pcb, t);
      if ok {
        Notify(Transitioned(pcb.pid, from, pcb.state));
      } else {
        assert Procs() == old(Procs());
        Throw();
      }
      Moved(old(Abs()), pcb.pid, t);
    }

    // ---------- the queues ----------

    lemma PriorityOfPcb(pcb: ProcessControlBlock)
      requires Numbered(allProcesses) && pcb in allProcesses
      ensures pcb.pid in Procs() && Procs()[pcb.pid] == pcb.Abs()
      ensures M.PriorityOf(Procs(), pcb.pid) == pcb.priority
    {
      ProcsFacts(allProcesses);
    }

    lemma QueuePriorities(q: seq<ProcessControlBlock>)
      requires Numbered(allProcesses) && forall p | p in q :: p in allProcesses
      ensures forall i | 0 <= i < |q| :: M.PriorityOf(Procs(), Pids(q)[i]) == q[i].priority
    {
      forall i | 0 <= i < |q|
        ensures M.PriorityOf(Procs(), Pids(q)[i]) == q[i].priority
      {
        PriorityOfPcb(q[i]);
      }
    }

    lemma PidsInsert(q: seq<ProcessControlBlock>, i: nat, pcb: ProcessControlBlock)
      requires i <= |q|
      ensures Pids(M.Insert(q, i, pcb)) == M.Insert(Pids(q), i, pcb.pid)
    {
    }

    lemma PidsWithout(q: seq<ProcessControlBlock>, i: nat)
      requires i < |q|
      ensures Pids(M.Without(q, i)) == M.Without(Pids(q), i)
    {
    }

    // There is only one place before the first lower priority, and only one first maximum.
    lemma BelongsThere(q: seq<ProcessControlBlock>, priority: int, i: nat)
      requires Numbered(allProcesses) && (forall p | p in q :: p in allProcesses) && Belongs(q, priority, i)
      ensures i == M.InsertionPoint(Pids(q), Procs(), priority)
    {
      QueuePriorities(q);
      var j := M.InsertionPoint(Pids(q), Procs(), priority);
      assert j < |q| ==> M.PriorityOf(Procs(), Pids(q)[j]) < priority;
      assert i < |q| ==> M.PriorityOf(Procs(), Pids(q)[i]) < priority;
      assert forall x | 0 <= x < i :: M.PriorityOf(Procs(), Pids(q)[x]) >= priority;
    }

    lemma FirstMaxThere(q: seq<ProcessControlBlock>, i: nat)
      requires Numbered(allProcesses) && (forall p | p in q :: p in allProcesses) && IsFirstMax(q, i)
      ensures i == M.FirstMax(Pids(q), Procs())
    {
      QueuePriorities(q);
      var j := M.FirstMax(Pids(q), Procs());
      assert q[i].priority >= q[j].priority && q[j].priority >= q[i].priority;
    }

    method AppendReady(pcb: ProcessControlBlock)
      requires Valid() && pcb in allProcesses
      modifies memoryManager.readyQueue
      ensures Valid() && Abs() == old(Abs()).(ready := old(Abs()).ready + [pcb.pid])
      ensures memoryManager.readyQueue.queue == old(memoryManager.readyQueue.queue) + [pcb]
    {
      memoryManager.EnqueueReady(pcb);
      assert Pids(memoryManager.readyQueue.queue) == old(Abs()).ready + [pcb.pid];
    }

    method InsertReady(pcb: ProcessControlBlock) returns (ghost at: nat)
      requires Valid() && pcb in allProcesses
      modifies memoryManager.readyQueue
      ensures Valid() && old(Belongs(memoryManager.readyQueue.queue, pcb.priority, at))
      ensures memoryManager.readyQueue.queue == M.Insert(old(memoryManager.readyQueue.queue), at, pcb)
      ensures var k := old(Abs());
        var i := M.InsertionPoint(k.ready, k.procs, M.PriorityOf(k.procs, pcb.pid));
        Abs() == k.(ready := M.Insert(k.ready, i, pcb.pid))
    {
      ghost var q := memoryManager.readyQueue.queue;
      PriorityOfPcb(pcb);
      OnlyOnePlace(q, pcb.priority);
      at := memoryManager.EnqueueReadyByPriority(pcb);
      PidsInsert(q, at, pcb);
    }

    lemma OnlyOnePlace(q: seq<ProcessControlBlock>, priority: int)
      requires Numbered(allProcesses) && forall p | p in q :: p in allProcesses
      ensures forall i: nat | Belongs(q, priority, i) :: i == M.InsertionPoint(Pids(q), Procs(), priority)
    {
      forall i: nat | Belongs(q, priority, i)
        ensures i == M.InsertionPoint(Pids(q), Procs(), priority)
      {
        BelongsThere(q, priority, i);
      }
    }

    // A process becomes the last of the ready queue, or takes its place by priority: the first one before which
    // everybody has at least its priority and behind which the next one has less.
    method EnqueueReady(pcb: ProcessControlBlock) returns (ghost at: nat)
      requires Valid() && pcb in allProcesses
      modifies memoryManager.readyQueue
      ensures Valid() && Abs() == M.Enqueue(old(Abs()), pcb.pid) && at <= |old(memoryManager.readyQueue.queue)|
      ensures memoryManager.readyQueue.queue == M.Insert(old(memoryManager.readyQueue.queue), at, pcb)
      ensures if policy == Priority then old(Belongs(memoryManager.readyQueue.queue, pcb.priority, at))
              else at == |old(memoryManager.readyQueue.queue)|
    {
      if policy == Priority {
        at := InsertReady(pcb);
      } else {
        at := |memoryManager.readyQueue.queue|;
        AppendReady(pcb);
      }
    }

    // Takes one process out of the ready queue.
    method TakeNext() returns (next: ProcessControlBlock?, ghost at: nat)
      requires Valid()
      modifies memoryManager.readyQueue
      ensures Valid()
      ensures next == null ==> old(Abs()).ready == [] && Abs() == old(Abs())
      ensures next != null ==>
        && next in allProcesses && at < |old(Abs()).ready| && next.pid == old(Abs()).ready[at]
        && Abs() == old(Abs()).(ready := M.Without(old(Abs()).ready, at))
        && (if policy == Priority then old(IsFirstMax(memoryManager.readyQueue.queue, at)) else at == 0)
    {
      ghost var q := memoryManager.readyQueue.queue;
      next, at := scheduler.SelectNextProcess();
      if next != null {
        PidsWithout(q, at);
      }
    }

    method SelectNext() returns (next: ProcessControlBlock?)
      requires Valid()
      modifies memoryManager.readyQueue
      ensures Valid()
      ensures next == null ==> old(Abs()).ready == [] && Abs() == old(Abs())
      ensures next != null ==>
        var k := old(Abs());
        && next in allProcesses && k.ready != [] && next.pid == k.ready[M.Selected(k)]
        && Abs() == k.(ready := M.Without(k.ready, M.Selected(k)))
    {
      ghost var at;
      if policy == Priority {
        OnlyOneFirstMax(memoryManager.readyQueue.queue);
      }
      next, at := TakeNext();
      assert next != null ==> at == M.Selected(old(Abs()));
    }

    lemma OnlyOneFirstMax(q: seq<ProcessControlBlock>)
      requires Valid() && forall p | p in q :: p in allProcesses
      ensures forall i: nat | IsFirstMax(q, i) :: Pids(q) != [] && i == M.FirstMax(Pids(q), Procs())
    {
      forall i: nat | IsFirstMax(q, i)
        ensures i == M.FirstMax(Pids(q), Procs())
      {
        FirstMaxThere(q, i);
      }
    }

    method Load(next: ProcessControlBlock)
      requires Valid() && next in allProcesses
      modifies cpu
      ensures Valid()
      ensures var k := old(Abs());
        var p := next.pid;
        Abs() == k.(cpu := M.Executing(p, if p in k.meta then k.meta[p].profile else map[], M.Quantum(k)))
      ensures cpu.currentProcess == next && cpu.remainingQuantum == if policy == FCFS then 2147483647 else timeQuantum
      ensures cpu.currentProfile == if next.pid in processMetadata then processMetadata[next.pid].profile else map[]
    {
      var profile: Profile := map[];
      if next.pid in processMetadata {
        profile := processMetadata[next.pid].profile;
      }
      cpu.LoadProcess(next, profile, scheduler.strategy.DefaultQuantum());
    }

    method DispatchNext()
      requires Valid()
      modifies this`log, this`thrown, memoryManager.readyQueue, cpu, allProcesses`state
      ensures Valid() && Abs() == M.DispatchNext(old(Abs()))
      ensures old(memoryManager.readyQueue.queue) != [] ==>
        cpu.currentProcess != null && cpu.remainingQuantum == if policy == FCFS then 2147483647 else timeQuantum
    {
      var next := SelectNext();
      if next != null {
        Dispatch(old(Abs()), next);
      }
    }

    // The part of dispatchNext after the selection. k is the state before it.
    method Dispatch(ghost k: M.System, next: ProcessControlBlock)
      requires Valid() && next in allProcesses
      requires k.ready != [] && next.pid == k.ready[M.Selected(k)] && k.cpu == Abs().cpu
      requires Abs() == k.(ready := M.Without(k.ready, M.Selected(k)))
      modifies this`log, this`thrown, cpu, next`state
      ensures Valid() && Abs() == M.DispatchNext(k)
      ensures cpu.currentProcess == next && cpu.remainingQuantum == if policy == FCFS then 2147483647 else timeQuantum
    {
      var oldPid := 0;
      if cpu.currentProcess != null {
        oldPid := cpu.currentProcess.pid;
      }
      TransitionState(next, StateTransition.Dispatch);
      ghost var moved := Abs();
      Load(next);
      ghost var loaded := Abs();
      if oldPid != 0 {
        Notify(SwitchedContext(oldPid, next.pid));
      }
      Dispatching(k, moved, loaded, Abs());
    }

    lemma Dispatching(k: M.System, moved: M.System, loaded: M.System, d: M.System)
      requires k.ready != []
      requires var i := M.Selected(k);
        moved == M.Move(k.(ready := M.Without(k.ready, i)), k.ready[i], StateTransition.Dispatch)
      requires var p := k.ready[M.Selected(k)];
        && loaded == moved.(cpu := M.Executing(p, if p in moved.meta then moved.meta[p].profile else map[],
                                               M.Quantum(moved)))
        && d == if k.cpu.Executing? then M.Notify(loaded, SwitchedContext(k.cpu.pid, p)) else loaded
      ensures d == M.DispatchNext(k)
    {
    }

    // ---------- the event handlers ----------

    method Unload() returns (pcb: ProcessControlBlock)
      requires Valid() && cpu.currentProcess != null
      modifies cpu
      ensures Valid() && pcb == old(cpu.currentProcess) && pcb in allProcesses
      ensures Abs() == old(Abs()).(cpu := M.Idle)
    {
      pcb := cpu.UnloadProcess();
    }

    method MoveToBlocked(pcb: ProcessControlBlock, wakeupTick: int)
      requires Valid() && pcb in allProcesses
      modifies memoryManager.blockedQueue
      ensures Valid()
      ensures Abs() == old(Abs()).(blocked := old(Abs()).blocked + [M.Entry(pcb.pid, wakeupTick)])
    {
      memoryManager.MoveToBlocked(pcb, wakeupTick);
      assert Entries(memoryManager.blockedQueue.entries) == old(Abs()).blocked + [M.Entry(pcb.pid, wakeupTick)];
    }

    // The syscall that fired, looked up in the stored program.
    method FiredSyscall(pcb: ProcessControlBlock) returns (syscall: Syscall)
      requires Valid() && pcb in allProcesses
      ensures syscall == M.Serviced(Abs(), pcb.pid)
      ensures syscall == if pcb.pid in processMetadata && pcb.cpuTimeUsed in processMetadata[pcb.pid].profile
                         then processMetadata[pcb.pid].profile[pcb.cpuTimeUsed] else Syscall(IoRead, 3)
    {
      PriorityOfPcb(pcb);
      syscall := Syscall(IoRead, 3);
      if pcb.pid in processMetadata && pcb.cpuTimeUsed in processMetadata[pcb.pid].profile {
        syscall := processMetadata[pcb.pid].profile[pcb.cpuTimeUsed];
      }
    }

    method UnloadToBlocked(wakeupTick: int)
      requires Valid() && cpu.currentProcess != null
      modifies memoryManager.blockedQueue, cpu
      ensures Valid()
      ensures var k := old(Abs());
        Abs() == k.(cpu := M.Idle).(blocked := k.blocked + [M.Entry(old(cpu.currentProcess.pid), wakeupTick)])
    {
      var unloaded := Unload();
      MoveToBlocked(unloaded, wakeupTick);
    }

    lemma Blocking(k: M.System, p: Pid, moved: M.System, left: M.System, wakeup: int)
      requires k.cpu.Executing? && k.cpu.pid == p && moved == M.Move(k, p, BlockingSyscall)
      requires wakeup == k.now + M.Serviced(k, p).duration
      requires left == moved.(cpu := M.Idle).(blocked := moved.blocked + [M.Entry(p, wakeup)])
      ensures M.Notify(left, SchedulerInvoked(SyscallBlock)) == M.Vacate(k, Some(SyscallBlock))
    {
    }

    // The process on the CPU leaves it for the blocked queue.
    method Block(pcb: ProcessControlBlock)
      requires Valid() && pcb == cpu.currentProcess
      modifies this`log, this`thrown, memoryManager.blockedQueue, cpu, pcb`state
      ensures Valid() && Abs() == M.Vacate(old(Abs()), Some(SyscallBlock))
    {
      ghost var before := Abs();
      var syscall := FiredSyscall(pcb);
      TransitionState(pcb, BlockingSyscall);
      ghost var moved := Abs();
      var wakeupTick := currentTick + syscall.duration;
      UnloadToBlocked(wakeupTick);
      Blocking(before, pcb.pid, moved, Abs(), wakeupTick);
      Notify(SchedulerInvoked(SyscallBlock));
    }

    method HandleSyscallBlock(pcb: ProcessControlBlock)
      requires Valid() && pcb == cpu.currentProcess
      modifies this`log, this`thrown, memoryManager.readyQueue, memoryManager.blockedQueue, cpu, allProcesses`state
      ensures Valid() && Abs() == M.HandleEvent(old(Abs()), Some(SyscallBlock))
    {
      Block(pcb);
      DispatchNext();
    }

    // The process on the CPU goes back to the ready queue.
    method Preempt(pcb: ProcessControlBlock)
      requires Valid() && pcb == cpu.currentProcess
      modifies this`log, this`thrown, memoryManager.readyQueue, cpu, pcb`state
      ensures Valid() && Abs() == M.Vacate(old(Abs()), Some(KernelEvent.QuantumExpired))
    {
      ghost var before := Abs();
      TransitionState(pcb, StateTransition.QuantumExpired);
      ghost var moved := Abs();
      var unloaded := Unload();
      ghost var at := EnqueueReady(unloaded);
      Expiring(before, pcb.pid, moved, Abs());
      Notify(SchedulerInvoked(KernelEvent.QuantumExpired));
    }

    lemma Expiring(k: M.System, p: Pid, moved: M.System, queued: M.System)
      requires k.cpu.Executing? && k.cpu.pid == p && moved == M.Move(k, p, StateTransition.QuantumExpired)
      requires queued == M.Enqueue(moved.(cpu := M.Idle), p)
      ensures M.Notify(queued, SchedulerInvoked(KernelEvent.QuantumExpired)) ==
              M.Vacate(k, Some(KernelEvent.QuantumExpired))
    {
    }

    method HandleQuantumExpired(pcb: ProcessControlBlock)
      requires Valid() && pcb == cpu.currentProcess
      modifies this`log, this`thrown, memoryManager.readyQueue, cpu, allProcesses`state
      ensures Valid() && Abs() == M.HandleEvent(old(Abs()), Some(KernelEvent.QuantumExpired))
    {
      Preempt(pcb);
      DispatchNext();
    }

    // The process on the CPU leaves it for good.
    method Leave(pcb: ProcessControlBlock)
      requires Valid() && pcb == cpu.currentProcess
      modifies this`log, this`thrown, cpu, pcb`state
      ensures Valid() && Abs() == M.Vacate(old(Abs()), Some(ProcessExit))
    {
      TransitionState(pcb, Exit);
      var unloaded := Unload();
      Notify(SchedulerInvoked(ProcessExit));
    }

    method HandleProcessExit(pcb: ProcessControlBlock)
      requires Valid() && pcb == cpu.currentProcess
      modifies this`log, this`thrown, memoryManager.readyQueue, cpu, allProcesses`state
      ensures Valid() && Abs() == M.HandleEvent(old(Abs()), Some(ProcessExit))
    {
      Leave(pcb);
      DispatchNext();
      var active := HasActiveProcesses();
      if !active {
        Notify(Completed);
      }
    }

    method HandleCpuIdle()
      requires Valid()
      modifies this`log, this`thrown, memoryManager.readyQueue, cpu, allProcesses`state
      ensures Valid() && Abs() == M.HandleEvent(old(Abs()), Some(CpuIdle))
    {
      assert M.Vacate(Abs(), Some(CpuIdle)) == Abs();
      DispatchNext();
    }

    method HandleEvent(event: KernelEvent)
      requires Valid() && (event != CpuIdle ==> cpu.currentProcess != null)
      modifies this`log, this`thrown, memoryManager.readyQueue, memoryManager.blockedQueue, cpu, allProcesses`state
      ensures Valid() && Abs() == M.HandleEvent(old(Abs()), Some(event))
    {
      match event {
        case SyscallBlock => HandleSyscallBlock(cpu.currentProcess);
        case QuantumExpired => HandleQuantumExpired(cpu.currentProcess);
        case ProcessExit => HandleProcessExit(cpu.currentProcess);
        case CpuIdle => HandleCpuIdle();
      }
    }

    method HasActiveProcesses() returns (active: bool)
      requires Valid()
      ensures active == M.HasActive(Abs())
    {
      ProcsFacts(allProcesses);
      var i := 0;
      while i < |allProcesses|
        invariant 0 <= i <= |allProcesses|
        invariant forall j | 0 <= j < i :: allProcesses[j].state == Terminated
      {
        if allProcesses[i].state != Terminated {
          assert i + 1 in Procs();
          return true;
        }
        i := i + 1;
      }
      assert forall p | p in Procs() :: allProcesses[p - 1].state == Terminated;
      return false;
    }

    // ---------- one tick ----------

    // The entries whose time has come leave the blocked queue.
    method TakeCompleted(ghost before: seq<BlockedEntry>)
      returns (completed: seq<ProcessControlBlock>, ghost gone: seq<M.Entry>)
      requires Valid() && before == memoryManager.blockedQueue.entries
      modifies memoryManager.blockedQueue
      ensures Valid() && Abs() == old(Abs()).(blocked := Abs().blocked)
      ensures M.IsPartition(old(Abs()).blocked, currentTick, Abs().blocked, gone)
      ensures |completed| == |gone|
      ensures forall j | 0 <= j < |gone| :: completed[j] in allProcesses && completed[j].pid == gone[j].pid
    {
      ghost var entries;
      completed, entries := memoryManager.CheckBlockedCompletions(currentTick);
      gone := Entries(entries);
      SplitEntries(before, memoryManager.blockedQueue.entries, entries, currentTick);
      assert forall j | 0 <= j < |gone| :: entries[j] in before;
    }

    method WakeUp(pcb: ProcessControlBlock) returns (ghost at: nat)
      requires Valid() && pcb in allProcesses
      modifies this`log, this`thrown, memoryManager.readyQueue, pcb`state
      ensures Valid() && Abs() == M.Wake(old(Abs()), pcb.pid) && at <= |old(memoryManager.readyQueue.queue)|
      ensures memoryManager.readyQueue.queue == M.Insert(old(memoryManager.readyQueue.queue), at, pcb)
      ensures if policy == Priority then old(Belongs(memoryManager.readyQueue.queue, pcb.priority, at))
              else at == |old(memoryManager.readyQueue.queue)|
    {
      TransitionState(pcb, IoComplete);
      at := EnqueueReady(pcb);
    }

    // The next of the completed entries, all of which are woken from the state k.
    method WakeNext(pcb: ProcessControlBlock, ghost k: M.System, ghost completed: seq<M.Entry>, ghost i: nat)
      requires Valid() && pcb in allProcesses && i < |completed| && pcb.pid == completed[i].pid
      requires Abs() == M.WakeAll(k, completed[..i])
      modifies this`log, this`thrown, memoryManager.readyQueue, pcb`state
      ensures Valid() && Abs() == M.WakeAll(k, completed[..i + 1])
    {
      ghost var at := WakeUp(pcb);
      assert completed[..i + 1][..i] == completed[..i];
    }

    method CheckBlockedCompletions() returns (ghost pending: seq<M.Entry>, ghost completed: seq<M.Entry>)
      requires Valid()
      modifies this`log, this`thrown, memoryManager.readyQueue, memoryManager.blockedQueue, allProcesses`state
      ensures Valid() && M.IsPartition(old(Abs()).blocked, currentTick, pending, completed)
      ensures Abs() == M.WakeAll(old(Abs()).(blocked := pending), completed)
      ensures policy != Priority ==> Abs().ready == old(Abs()).ready + O.Waiting(completed)
    {
      ghost var k := Abs();
      var woken;
      woken, completed := TakeCompleted(memoryManager.blockedQueue.entries);
      pending := Abs().blocked;
      WakeInOrder(woken, completed, Abs());
      if policy != Priority {
        F.WakingAppends(k.(blocked := pending), completed);
      }
    }

    // The loop over the completed entries, which takes the kernel from the state k.
    method WakeInOrder(woken: seq<ProcessControlBlock>, ghost completed: seq<M.Entry>, ghost k: M.System)
      requires Valid() && k == Abs() && |woken| == |completed|
      requires forall j | 0 <= j < |woken| :: woken[j] in allProcesses && woken[j].pid == completed[j].pid
      modifies this`log, this`thrown, memoryManager.readyQueue, allProcesses`state
      ensures Valid() && Abs() == M.WakeAll(k, completed)
    {
      var i := 0;
      while i < |woken|
        invariant 0 <= i <= |woken| && Valid()
        invariant Abs() == M.WakeAll(k, completed[..i])
      {
        WakeNext(woken[i], k, completed, i);
        i := i + 1;
      }
      assert completed[..i] == completed;
    }

    // The CPU executes one tick; the event it raises is handled by the caller.
    method ExecuteTick() returns (event: Option<KernelEvent>)
      requires Valid()
      modifies cpu`remainingQuantum, allProcesses`cpuTimeUsed, allProcesses`programCounter
      ensures Valid() && Abs() == M.ExecuteTick(old(Abs())) && event == M.RaisedEvent(Abs())
      ensures event.Some? && event != Some(CpuIdle) ==> cpu.currentProcess != null
    {
      if cpu.currentProcess == null {
        event := cpu.ExecuteTick();
      } else {
        ghost var k := Abs();
        event := CountTick(cpu.currentProcess);
        Executed(k, cpu.currentProcess.pid, Abs());
      }
    }

    // The same with a process loaded.
    method CountTick(ghost pcb: ProcessControlBlock) returns (event: Option<KernelEvent>)
      requires Valid() && cpu.currentProcess == pcb
      modifies cpu`remainingQuantum, allProcesses`cpuTimeUsed, allProcesses`programCounter
      ensures Valid() && cpu.currentProcess == pcb && OneTickOn(old(Abs()), pcb.pid, Abs())
      ensures event == EventAfter(pcb.cpuTimeUsed, pcb.estimatedCpuTime, old(Abs()).cpu)
      ensures pcb.cpuTimeUsed == old(Abs()).procs[pcb.pid].used + 1
      ensures pcb.cpuTimeUsed == old(pcb.cpuTimeUsed) + 1 && pcb.programCounter == old(pcb.programCounter) + 1
      ensures pcb.estimatedCpuTime == old(Abs()).procs[pcb.pid].estimate
    {
      ghost var before := Procs();
      ProcsFacts(allProcesses);
      event := cpu.ExecuteTick();
      ProcsChange(allProcesses, before, pcb);
    }

    // CPU::executeTick with its callback.
    method RunCpu()
      requires Valid()
      modifies this`log, this`thrown
      modifies memoryManager.readyQueue, memoryManager.blockedQueue, cpu, allProcesses`state, allProcesses`cpuTimeUsed,
               allProcesses`programCounter
      ensures Valid() && Abs() == M.Turn(old(Abs()))
    {
      var event := ExecuteTick();
      if event.Some? {
        HandleEvent(event.value);
      }
    }

    method SetTick(tick: int)
      requires Valid()
      modifies this`currentTick
      ensures Valid() && Abs() == old(Abs()).(now := tick) && currentTick == tick
    {
      currentTick := tick;
    }

    method WakeAt(tick: int) returns (ghost pending: seq<M.Entry>, ghost completed: seq<M.Entry>)
      requires Valid()
      modifies this`currentTick, this`log, this`thrown
      modifies memoryManager.readyQueue, memoryManager.blockedQueue, allProcesses`state
      ensures Valid() && currentTick == tick && M.IsPartition(old(Abs()).blocked, tick, pending, completed)
      ensures Abs() == M.WakeAll(old(Abs()).(now := tick, blocked := pending), completed)
    {
      SetTick(tick);
      pending, completed := CheckBlockedCompletions();
    }

    method NotifyTick(tick: int) returns (ghost pending: seq<M.Entry>, ghost completed: seq<M.Entry>)
      requires Valid()
      modifies this`currentTick, this`log, this`thrown
      modifies memoryManager.readyQueue, memoryManager.blockedQueue, cpu, allProcesses`state, allProcesses`cpuTimeUsed,
               allProcesses`programCounter
      ensures Valid() && allProcesses == old(allProcesses) && currentTick == tick
      ensures M.IsPartition(old(Abs()).blocked, tick, pending, completed)
      ensures Abs() == M.Tick(old(Abs()), tick, pending, completed)
    {
      pending, completed := WakeAt(tick);
      RunCpu();
      Notify(TickDone(tick));
    }

    // ---------- admission ----------

    method SubmitProgram(metadata: Program) returns (id: int)
      requires Valid()
      modifies this`programs, this`nextProgramId
      ensures Valid() && Abs() == old(Abs())
      ensures id == old(nextProgramId) && nextProgramId == id + 1 && programs == old(programs)[id := metadata]
    {
      id := nextProgramId;
      programs := programs[id := metadata];
      nextProgramId := nextProgramId + 1;
    }

    // A PID has been given to a process that is not in the master list yet, but may be queued already.
    ghost predicate Admitting(pid: Pid, entering: set<ProcessControlBlock>)
      reads this, cpu, memoryManager.readyQueue, memoryManager.blockedQueue, allProcesses
    {
      && scheduler.memoryManager == memoryManager
      && scheduler.strategy == CreateStrategy(policy, timeQuantum)
      && pid == |allProcesses| + 1 && nextPid == pid + 1
      && Numbered(allProcesses)
      && (forall p | p in processMetadata :: p < nextPid)
      && (forall p | p in memoryManager.readyQueue.queue :: p in allProcesses || p in entering)
      && (forall e | e in memoryManager.blockedQueue.entries :: e.pcb in allProcesses)
      && cpu.Valid() && (cpu.currentProcess != null ==> cpu.currentProcess in allProcesses)
      && (forall p | p in allProcesses :: p.programCounter == p.cpuTimeUsed)
    }

    // A new process control block, already READY.
    method CreateProcess(meta: Program) returns (pcb: ProcessControlBlock)
      requires Valid()
      modifies this`nextPid, this`log, this`processMetadata
      ensures Admitting(pcb.pid, {}) && fresh(pcb) && pcb.Abs() == R.Newcomer(meta) && pcb.pid == old(nextPid)
      ensures Abs() == Announced(old(Abs()), meta)
    {
      var pid := TakePid();
      pcb := new ProcessControlBlock(pid, meta.estimate);
      assert ProcsOf(allProcesses) == old(ProcsOf(allProcesses));
      Announce(pid, meta);
      Enter(pcb);
    }

    method TakePid() returns (pid: Pid)
      requires Valid()
      modifies this`nextPid
      ensures pid == old(nextPid) && Admitting(pid, {}) && pid !in processMetadata
      ensures Abs() == old(Abs()).(next := pid + 1)
    {
      pid := nextPid;
      nextPid := nextPid + 1;
    }

    // The observers are told, and the metadata are stored.
    method Announce(pid: Pid, meta: Program)
      requires Admitting(pid, {}) && pid !in processMetadata
      modifies this`log, this`processMetadata
      ensures Admitting(pid, {})
      ensures Abs() == old(Abs()).(meta := old(Abs()).meta[pid := meta], log := old(Abs()).log + [Created(pid)])
    {
      log := log + [Created(pid)];
      if pid !in processMetadata {
        processMetadata := processMetadata[pid := meta];
      }
    }

    // NEW becomes READY.
    method Enter(pcb: ProcessControlBlock)
      requires Admitting(pcb.pid, {}) && pcb.state == New && pcb !in allProcesses
      modifies this`log, pcb`state
      ensures Admitting(pcb.pid, {}) && pcb.Abs() == old(pcb.Abs()).(state := Ready)
      ensures Abs() == old(Abs()).(log := old(Abs()).log + [Transitioned(pcb.pid, New, Ready)])
    {
      var from := pcb.state;
      var ok := pcb.ApplyTransition(Admit);
      log := log + [Transitioned(pcb.pid, from, pcb.state)];
      assert ProcsOf(allProcesses) == old(ProcsOf(allProcesses));
    }

    method Place(pcb: ProcessControlBlock)
      requires Admitting(pcb.pid, {})
      modifies memoryManager.readyQueue
      ensures Admitting(pcb.pid, {pcb})
      ensures var k := old(Abs());
        Abs() == k.(ready := Joined(k, pcb.pid, pcb.priority))
    {
      ghost var q := memoryManager.readyQueue.queue;
      if policy == Priority {
        OnlyOnePlace(q, pcb.priority);
        ghost var at := memoryManager.EnqueueReadyByPriority(pcb);
        PidsInsert(q, at, pcb);
      } else {
        memoryManager.EnqueueReady(pcb);
        assert Pids(q + [pcb]) == Pids(q) + [pcb.pid];
      }
    }

    method Register(pcb: ProcessControlBlock)
      requires Admitting(pcb.pid, {pcb}) && pcb.programCounter == pcb.cpuTimeUsed
      modifies this`allProcesses
      ensures Valid() && allProcesses == old(allProcesses) + [pcb]
      ensures Abs() == old(Abs()).(procs := old(Abs()).procs[pcb.pid := pcb.Abs()])
    {
      allProcesses := allProcesses + [pcb];
    }

    // A new process in the ready queue; only the master list does not hold it yet.
    method CreateReady(meta: Program) returns (pcb: ProcessControlBlock)
      requires Valid()
      modifies this`nextPid, this`log, this`processMetadata, memoryManager.readyQueue
      ensures Admitting(pcb.pid, {pcb}) && fresh(pcb) && pcb.Abs() == R.Newcomer(meta) && pcb.pid == old(nextPid)
      ensures var created := Announced(old(Abs()), meta);
        Abs() == created.(ready := Joined(created, pcb.pid, 0))
    {
      pcb := CreateProcess(meta);
      Place(pcb);
    }

    // k is the state before the admission.
    lemma Admitted(k: M.System, d: M.System, meta: Program)
      requires k.next !in k.procs
      requires var p := k.next;
        var created := Announced(k, meta);
        d == created.(ready := Joined(created, p, 0)).(procs := created.procs[p := R.Newcomer(meta)])
      ensures d == M.RunProgram(k, meta)
    {
      SamePriorities(k.ready, k.procs, k.procs[k.next := R.Newcomer(meta)], 0);
      R.AdmitEffect(k, meta);
    }

    lemma NextIsNew()
      requires Valid()
      ensures nextPid !in Procs()
    {
      ProcsFacts(allProcesses);
    }

    method AdmitProgram(meta: Program)
      requires Valid()
      modifies this`nextPid, this`log, this`processMetadata, this`allProcesses, memoryManager.readyQueue
      ensures Valid() && forall p | p in allProcesses :: p in old(allProcesses) || fresh(p)
      ensures Abs() == M.RunProgram(old(Abs()), meta)
    {
      ghost var k := Abs();
      NextIsNew();
      var pcb := CreateReady(meta);
      Register(pcb);
      Admitted(k, Abs(), meta);
    }

    /** Admits the stored program. The source throws where this returns false, before it changes anything. */
    method RunProgram(id: int) returns (ok: bool)
      requires Valid()
      modifies this`nextPid, this`log, this`processMetadata, this`allProcesses, memoryManager.readyQueue
      ensures Valid() && (ok <==> id in programs)
      ensures forall p | p in allProcesses :: p in old(allProcesses) || fresh(p)
      ensures Abs() == if ok then M.RunProgram(old(Abs()), programs[id]) else old(Abs())
    {
      ok := id in programs;
      if ok {
        AdmitProgram(programs[id]);
      }
    }

    // What a caller does with a process of allProcesses() between ticks.
    method SetPriority(pcb: ProcessControlBlock, priority: int)
      requires Valid() && pcb in allProcesses
      modifies pcb`priority
      ensures Valid() && Abs() == M.SetPriority(old(Abs()), pcb.pid, priority) && pcb.priority == priority
    {
      ghost var before := Procs();
      ProcsFacts(allProcesses);
      pcb.SetPriority(priority);
      ProcsChange(allProcesses, before, pcb);
    }
  }
}
