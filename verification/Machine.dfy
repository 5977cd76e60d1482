/** The scheduler as a state machine over values: what one call into the kernel does to its state.
    The classes Kernel, CPU, ReadyQueue, ... are proved to refine these functions. */
module Machine {
  import opened Types

  datatype Pcb = Pcb(state: ProcessState, priority: int, used: int, estimate: int, counter: int)

  datatype Entry = Entry(pid: Pid, wakeup: int)

  datatype Cpu = Idle | Executing(pid: Pid, profile: Profile, remaining: int)

  /** The state of a kernel. Once `thrown` is set an exception has left the kernel and the other
      fields mean nothing any more; Consistency shows that this never happens. */
  datatype System = System(
    policy: SchedulingPolicy,
    quantum: int,
    now: int,
    procs: map<Pid, Pcb>,
    meta: map<Pid, Program>,
    next: Pid,
    ready: seq<Pid>,
    blocked: seq<Entry>,
    cpu: Cpu,
    log: seq<Notice>,
    thrown: bool)

  function Init(policy: SchedulingPolicy, quantum: int): System {
    System(policy, quantum, 0, map[], map[], 1, [], [], Idle, [], false)
  }

  function Notify(k: System, e: Notice): System {
    k.(log := k.log + [e])
  }

  // Kernel::transitionState: check, change, notify; or throw.
  function Move(k: System, p: Pid, t: StateTransition): System {
    if p !in k.procs || !IsValidTransition(k.procs[p].state, t) then k.(thrown := true)
    else
      Notify(k.(procs := k.procs[p := k.procs[p].(state := TargetState(t))]),
             Transitioned(p, k.procs[p].state, TargetState(t)))
  }

  // ---------- the ready queue and the selection strategies ----------

  function PriorityOf(procs: map<Pid, Pcb>, p: Pid): int {
    if p in procs then procs[p].priority else 0
  }

  // Where a process of this priority is inserted: before the first entry of lower priority.
  function InsertionPoint(q: seq<Pid>, procs: map<Pid, Pcb>, priority: int): (i: nat)
    ensures i <= |q|
    ensures forall j | 0 <= j < i :: PriorityOf(procs, q[j]) >= priority
    ensures i < |q| ==> PriorityOf(procs, q[i]) < priority
  {
    if q == [] || PriorityOf(procs, q[0]) < priority then 0
    else 1 + InsertionPoint(q[1..], procs, priority)
  }

  // The earliest entry of highest priority.
  function FirstMax(q: seq<Pid>, procs: map<Pid, Pcb>): (i: nat)
    requires q != []
    ensures i < |q|
    ensures forall j | 0 <= j < |q| :: PriorityOf(procs, q[j]) <= PriorityOf(procs, q[i])
    ensures forall j | 0 <= j < i :: PriorityOf(procs, q[j]) < PriorityOf(procs, q[i])
  {
    var n := |q| - 1;
    if n == 0 then 0
    else
      var i := FirstMax(q[..n], procs);
      assert forall j | 0 <= j < n :: q[..n][j] == q[j];
      if PriorityOf(procs, q[i]) < PriorityOf(procs, q[n]) then n else i
  }

  function Insert<T>(q: seq<T>, i: nat, x: T): seq<T>
    requires i <= |q|
  {
    q[..i] + [x] + q[i..]
  }

  function Without<T>(q: seq<T>, i: nat): seq<T>
    requires i < |q|
  {
    q[..i] + q[i + 1..]
  }

  function Enqueue(k: System, p: Pid): System {
    if k.policy == Priority then
      k.(ready := Insert(k.ready, InsertionPoint(k.ready, k.procs, PriorityOf(k.procs, p)), p))
    else
      k.(ready := k.ready + [p])
  }

  function Selected(k: System): (i: nat)
    requires k.ready != []
    ensures i < |k.ready|
  {
    if k.policy == Priority then FirstMax(k.ready, k.procs) else 0
  }

  // The quantum a dispatched process is loaded with.
  function Quantum(k: System): int {
    if k.policy == FCFS then INT_MAX else k.quantum
  }

  // ---------- the CPU ----------

  // CPU::executeTick up to the event check.
  function ExecuteTick(k: System): System {
    if k.cpu.Idle? || k.cpu.pid !in k.procs then k
    else
      var b := k.procs[k.cpu.pid];
      k.(procs := k.procs[k.cpu.pid := b.(used := b.used + 1, counter := b.counter + 1)],
         cpu := k.cpu.(remaining := k.cpu.remaining - 1))
  }

  // The event CPU::executeTick raises: syscall before exit before quantum.
  function RaisedEvent(k: System): Option<KernelEvent> {
    if k.cpu.Idle? then Some(CpuIdle)
    else if k.cpu.pid !in k.procs then None
    else
      var b := k.procs[k.cpu.pid];
      if b.used in k.cpu.profile then Some(SyscallBlock)
      else if b.used >= b.estimate then Some(ProcessExit)
      else if k.cpu.remaining <= 0 then Some(KernelEvent.QuantumExpired)
      else None
  }

  // ---------- the kernel ----------

  const DEFAULT_SYSCALL := Syscall(IoRead, 3)

  // The syscall the kernel services: looked up in its own copy of the profile.
  function Serviced(k: System, p: Pid): Syscall {
    if p in k.procs && p in k.meta && k.procs[p].used in k.meta[p].profile
    then k.meta[p].profile[k.procs[p].used]
    else DEFAULT_SYSCALL
  }

  // What the handler of an event does before it dispatches.
  function Vacate(k: System, e: Option<KernelEvent>): System {
    if k.cpu.Idle? then k
    else
      var p := k.cpu.pid;
      match e
      case None => k
      case Some(CpuIdle) => k
      case Some(SyscallBlock) =>
        var m := Move(k, p, BlockingSyscall);
        Notify(m.(cpu := Idle, blocked := m.blocked + [Entry(p, k.now + Serviced(k, p).duration)]),
               SchedulerInvoked(SyscallBlock))
      case Some(QuantumExpired) =>
        var m := Move(k, p, StateTransition.QuantumExpired);
        Notify(Enqueue(m.(cpu := Idle), p), SchedulerInvoked(KernelEvent.QuantumExpired))
      case Some(ProcessExit) =>
        Notify(Move(k, p, Exit).(cpu := Idle), SchedulerInvoked(ProcessExit))
  }

  // Kernel::dispatchNext.
  function DispatchNext(k: System): System {
    if k.ready == [] then k
    else
      var i := Selected(k);
      var p := k.ready[i];
      var m := Move(k.(ready := Without(k.ready, i)), p, Dispatch);
      var loaded := m.(cpu := Executing(p, if p in m.meta then m.meta[p].profile else map[], Quantum(k)));
      if k.cpu.Executing? then Notify(loaded, SwitchedContext(k.cpu.pid, p)) else loaded
  }

  predicate HasActive(k: System) {
    exists p | p in k.procs :: k.procs[p].state != Terminated
  }

  // Kernel::handleEvent.
  function HandleEvent(k: System, e: Option<KernelEvent>): System {
    if e.None? then k
    else
      var d := DispatchNext(Vacate(k, e));
      if e == Some(ProcessExit) && !HasActive(d) then Notify(d, Completed) else d
  }

  // One process whose I/O is done becomes ready.
  function Wake(k: System, p: Pid): System {
    Enqueue(Move(k, p, IoComplete), p)
  }

  function WakeAll(k: System, completed: seq<Entry>): System {
    if completed == [] then k
    else Wake(WakeAll(k, completed[..|completed| - 1]), completed[|completed| - 1].pid)
  }

  // Everything std::partition promises about splitting the blocked entries: a rearrangement whose
  // first part is still waiting at `now` and whose second part is not. It promises no order.
  ghost predicate IsPartition(entries: seq<Entry>, now: int, pending: seq<Entry>, completed: seq<Entry>) {
    && multiset(entries) == multiset(pending) + multiset(completed)
    && (forall e | e in pending :: e.wakeup > now)
    && (forall e | e in completed :: e.wakeup <= now)
  }

  // The CPU part of a tick.
  function Turn(k: System): System {
    var x := ExecuteTick(k);
    HandleEvent(x, RaisedEvent(x))
  }

  // Kernel::notifyTick, for one way of partitioning the blocked entries.
  function Tick(k: System, now: int, pending: seq<Entry>, completed: seq<Entry>): System {
    Notify(Turn(WakeAll(k.(now := now, blocked := pending), completed)), TickDone(now))
  }

  // Kernel::runProgram for a stored program.
  function RunProgram(k: System, g: Program): System {
    var p := k.next;
    var created := Notify(k.(next := p + 1,
                             procs := k.procs[p := Pcb(New, 0, 0, g.estimate, 0)],
                             meta := k.meta[p := g]),
                          Created(p));
    Enqueue(Move(created, p, Admit), p)
  }

  function SetPriority(k: System, p: Pid, priority: int): System {
    if p in k.procs then k.(procs := k.procs[p := k.procs[p].(priority := priority)]) else k
  }

  // ---------- runs ----------

  // What can happen to a kernel from outside.
  datatype Input =
    | Run(program: Program)
    | Prioritize(pid: Pid, priority: int)
    | Elapse(now: int, pending: seq<Entry>, completed: seq<Entry>)

  // The clock only moves forward, and the blocked entries are split as std::partition may split them.
  ghost predicate Legal(k: System, i: Input) {
    i.Elapse? ==> k.now < i.now && IsPartition(k.blocked, i.now, i.pending, i.completed)
  }

  function Apply(k: System, i: Input): System {
    match i
    case Run(g) => RunProgram(k, g)
    case Prioritize(p, priority) => SetPriority(k, p, priority)
    case Elapse(now, pending, completed) => Tick(k, now, pending, completed)
  }

  function Exec(k: System, inputs: seq<Input>): System
    decreases inputs
  {
    if inputs == [] then k else Exec(Apply(k, inputs[0]), inputs[1..])
  }

  ghost predicate LegalRun(k: System, inputs: seq<Input>)
    decreases inputs
  {
    inputs == [] || (Legal(k, inputs[0]) && LegalRun(Apply(k, inputs[0]), inputs[1..]))
  }

  function Ticks(inputs: seq<Input>): nat {
    if inputs == [] then 0 else (if inputs[0].Elapse? then 1 else 0) + Ticks(inputs[1..])
  }
}
