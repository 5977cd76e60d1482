/** Priority against Round Robin when all processes have the same priority: the same machine. */
module EqualPriorities {
  import opened Types
  import opened Machine
  import opened Consistency
  import opened Runs
  import opened Workloads

  // The same kernel under Priority.
  function Twin(k: System): System {
    k.(policy := Priority)
  }

  // Everybody has priority c, and the queue and the CPU hold known processes only.
  ghost predicate Level(k: System, c: int) {
    && (forall p | p in k.procs :: k.procs[p].priority == c)
    && (forall p | p in k.ready :: p in k.procs)
    && (k.cpu.Executing? ==> k.cpu.pid in k.procs)
    && k.policy == RoundRobin
  }

  lemma LevelEnqueue(k: System, p: Pid, c: int)
    requires Level(k, c) && p in k.procs
    ensures Enqueue(Twin(k), p) == Twin(Enqueue(k, p))
    ensures Level(Enqueue(k, p), c)
  {
    InsertBehindEquals(k.ready, k.procs, c);
    assert Insert(k.ready, |k.ready|, p) == k.ready + [p];
  }

  lemma LevelMove(k: System, p: Pid, t: StateTransition, c: int)
    requires Level(k, c)
    ensures Move(Twin(k), p, t) == Twin(Move(k, p, t))
    ensures Level(Move(k, p, t), c) && Move(k, p, t).procs.Keys == k.procs.Keys
  {
  }

  lemma LevelWake(k: System, p: Pid, c: int)
    requires Level(k, c) && p in k.procs
    ensures Wake(Twin(k), p) == Twin(Wake(k, p))
    ensures Level(Wake(k, p), c) && Wake(k, p).procs.Keys == k.procs.Keys
  {
    LevelMove(k, p, IoComplete, c);
    LevelEnqueue(Move(k, p, IoComplete), p, c);
  }

  lemma {:induction false} LevelWakeAll(k: System, completed: seq<Entry>, c: int)
    requires Level(k, c) && forall e | e in completed :: e.pid in k.procs
    ensures WakeAll(Twin(k), completed) == Twin(WakeAll(k, completed))
    ensures Level(WakeAll(k, completed), c) && WakeAll(k, completed).procs.Keys == k.procs.Keys
    decreases |completed|
  {
    if completed != [] {
      var n := |completed| - 1;
      LevelWakeAll(k, completed[..n], c);
      assert completed[n] in completed;
      LevelWake(WakeAll(k, completed[..n]), completed[n].pid, c);
    }
  }

  lemma LevelExecute(k: System, c: int)
    requires Level(k, c)
    ensures ExecuteTick(Twin(k)) == Twin(ExecuteTick(k))
    ensures RaisedEvent(ExecuteTick(Twin(k))) == RaisedEvent(ExecuteTick(k))
    ensures Level(ExecuteTick(k), c)
  {
  }

  lemma LevelVacate(k: System, e: Option<KernelEvent>, c: int)
    requires Level(k, c)
    ensures Vacate(Twin(k), e) == Twin(Vacate(k, e))
    ensures Level(Vacate(k, e), c)
  {
    if k.cpu.Executing? && e.Some? {
      match e.value {
        case SyscallBlock => LevelBlock(k, c);
        case ProcessExit => LevelExit(k, c);
        case QuantumExpired => LevelExpire(k, c);
        case CpuIdle =>
      }
    }
  }

  lemma LevelBlock(k: System, c: int)
    requires Level(k, c) && k.cpu.Executing?
    ensures Vacate(Twin(k), Some(SyscallBlock)) == Twin(Vacate(k, Some(SyscallBlock)))
    ensures Level(Vacate(k, Some(SyscallBlock)), c)
  {
    LevelMove(k, k.cpu.pid, BlockingSyscall, c);
  }

  lemma LevelExit(k: System, c: int)
    requires Level(k, c) && k.cpu.Executing?
    ensures Vacate(Twin(k), Some(ProcessExit)) == Twin(Vacate(k, Some(ProcessExit)))
    ensures Level(Vacate(k, Some(ProcessExit)), c)
  {
    LevelMove(k, k.cpu.pid, Exit, c);
  }

  lemma LevelExpire(k: System, c: int)
    requires Level(k, c) && k.cpu.Executing?
    ensures Vacate(Twin(k), Some(KernelEvent.QuantumExpired)) == Twin(Vacate(k, Some(KernelEvent.QuantumExpired)))
    ensures Level(Vacate(k, Some(KernelEvent.QuantumExpired)), c)
  {
    LevelMove(k, k.cpu.pid, StateTransition.QuantumExpired, c);
    LevelEnqueue(Move(k, k.cpu.pid, StateTransition.QuantumExpired).(cpu := Idle), k.cpu.pid, c);
  }

  lemma LevelDispatch(k: System, c: int)
    requires Level(k, c)
    ensures DispatchNext(Twin(k)) == Twin(DispatchNext(k))
    ensures Level(DispatchNext(k), c)
  {
    if k.ready != [] {
      FirstOfEquals(k.ready, k.procs, c);
      LevelTaken(k, c);
      DispatchLoads(k);
      DispatchLoads(Twin(k));
      LevelMove(k.(ready := Without(k.ready, 0)), k.ready[0], Dispatch, c);
      LevelLoad(k, Move(k.(ready := Without(k.ready, 0)), k.ready[0], Dispatch), k.ready[0], c);
    }
  }

  lemma DispatchLoads(k: System)
    requires k.ready != [] && Selected(k) == 0
    ensures DispatchNext(k) == Load(k, Move(k.(ready := Without(k.ready, 0)), k.ready[0], Dispatch), k.ready[0])
  {
  }

  lemma LevelTaken(k: System, c: int)
    requires Level(k, c) && k.ready != []
    ensures Level(k.(ready := Without(k.ready, 0)), c) && k.ready[0] in k.procs
  {
    var front := k.ready[0];
    assert front in k.ready && front in k.procs;
    var rest := Without(k.ready, 0);
    forall p | p in rest
      ensures p in k.procs
    {
      var j :| 0 <= j < |rest| && rest[j] == p;
      assert k.ready[j + 1] in k.ready;
    }
  }

  // The end of a dispatch: the process is loaded, and a context switch would be notified.
  function Load(k: System, m: System, p: Pid): System {
    var loaded := m.(cpu := Executing(p, if p in m.meta then m.meta[p].profile else map[], Quantum(k)));
    if k.cpu.Executing? then Notify(loaded, SwitchedContext(k.cpu.pid, p)) else loaded
  }

  lemma LevelLoad(k: System, m: System, p: Pid, c: int)
    requires k.policy == RoundRobin && Level(m, c) && p in m.procs
    ensures Load(Twin(k), Twin(m), p) == Twin(Load(k, m, p))
    ensures Level(Load(k, m, p), c)
  {
  }

  // Among equals the first maximum is the front.
  lemma FirstOfEquals(q: seq<Pid>, procs: map<Pid, Pcb>, c: int)
    requires q != [] && forall p | p in q :: PriorityOf(procs, p) == c
    ensures FirstMax(q, procs) == 0
  {
    assert q[0] in q && q[FirstMax(q, procs)] in q;
  }

  lemma LevelHandle(k: System, e: Option<KernelEvent>, c: int)
    requires Level(k, c)
    ensures HandleEvent(Twin(k), e) == Twin(HandleEvent(k, e))
  {
    if e.Some? {
      LevelVacate(k, e, c);
      LevelDispatch(Vacate(k, e), c);
    }
  }

  ghost predicate SamePriority(k: System, c: int) {
    forall p | p in k.procs :: k.procs[p].priority == c
  }

  lemma TwinTick(k: System, now: int, pending: seq<Entry>, completed: seq<Entry>, c: int)
    requires Inv(k) && k.policy == RoundRobin && SamePriority(k, c) && Legal(k, Elapse(now, pending, completed))
    ensures Tick(Twin(k), now, pending, completed) == Twin(Tick(k, now, pending, completed))
  {
    forall e | e in completed
      ensures e.pid in k.procs
    {
      assert e in multiset(completed) && e in multiset(k.blocked);
    }
    var a := k.(now := now, blocked := pending);
    LevelWakeAll(a, completed, c);
    var w := WakeAll(a, completed);
    LevelExecute(w, c);
    LevelHandle(ExecuteTick(w), RaisedEvent(ExecuteTick(w)), c);
  }

  lemma TwinAdmission(k: System, g: Program)
    requires Inv(k) && k.policy == RoundRobin && SamePriority(RunProgram(k, g), 0)
    ensures RunProgram(Twin(k), g) == Twin(RunProgram(k, g))
  {
    AdmitEffect(k, g);
    AdmitEffect(Twin(k), g);
    TwinJoins(k.(procs := k.procs[k.next := Newcomer(g)]), k.next);
  }

  lemma TwinJoins(k: System, p: Pid)
    requires k.policy == RoundRobin && PriorityOf(k.procs, p) == 0
    requires forall q | q in k.ready :: PriorityOf(k.procs, q) == 0
    ensures Enqueue(Twin(k), p).ready == Enqueue(k, p).ready
  {
    InsertBehindEquals(k.ready, k.procs, 0);
    assert Insert(k.ready, |k.ready|, p) == k.ready + [p];
  }

  // In every state of the run all processes have the same priority.
  ghost predicate AlwaysEqual(k: System, inputs: seq<Input>)
    decreases inputs
  {
    && (exists c :: SamePriority(k, c))
    && (inputs != [] ==> AlwaysEqual(Apply(k, inputs[0]), inputs[1..]))
  }

  lemma TwinStep(k: System, i: Input)
    requires Inv(k) && k.policy == RoundRobin && Legal(k, i)
    requires (exists c :: SamePriority(k, c)) && (exists c :: SamePriority(Apply(k, i), c))
    ensures Legal(Twin(k), i) && Apply(Twin(k), i) == Twin(Apply(k, i))
  {
    match i {
      case Run(g) =>
        var c :| SamePriority(Apply(k, i), c);
        AdmitEffect(k, g);
        assert Apply(k, i).procs[k.next].priority == 0;
        TwinAdmission(k, g);
      case Prioritize(p, priority) =>
      case Elapse(now, pending, completed) =>
        var c :| SamePriority(k, c);
        TwinTick(k, now, pending, completed, c);
    }
  }

  lemma {:induction false} TwinRun(k: System, inputs: seq<Input>)
    requires Inv(k) && k.policy == RoundRobin && LegalRun(k, inputs) && AlwaysEqual(k, inputs)
    ensures LegalRun(Twin(k), inputs) && Exec(Twin(k), inputs) == Twin(Exec(k, inputs))
    decreases inputs
  {
    if inputs != [] {
      var k' := Apply(k, inputs[0]);
      ApplyStep(k, inputs[0]);
      TwinStep(k, inputs[0]);
      TwinRun(k', inputs[1..]);
    }
  }

  /** With equal priorities throughout, a run under Priority is the run under Round Robin with the same
      quantum, state by state. */
  lemma PriorityIsRoundRobin(quantum: int, inputs: seq<Input>)
    requires LegalRun(Init(RoundRobin, quantum), inputs) && AlwaysEqual(Init(RoundRobin, quantum), inputs)
    ensures LegalRun(Init(Priority, quantum), inputs)
    ensures Exec(Init(Priority, quantum), inputs) == Twin(Exec(Init(RoundRobin, quantum), inputs))
  {
    InitInv(RoundRobin, quantum);
    TwinRun(Init(RoundRobin, quantum), inputs);
  }
}
