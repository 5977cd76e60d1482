/** Two kernels fed the same inputs: Round Robin against FCFS when no quantum expires, and Priority
    against Round Robin when all priorities are equal. */
module Comparisons {
  import opened Types
  import opened Programs
  import opened Slices
  import opened Machine
  import opened Consistency
  import opened Turns
  import opened Lives
  import opened Projection
  import opened Runs
  import opened Outcomes

  // ---------- Round Robin and FCFS ----------

  // All that Round Robin and FCFS can differ in is taken out: policy, quantum, remaining quantum.
  function Blur(k: System): System {
    k.(policy := FCFS, quantum := 0, cpu := if k.cpu.Executing? then k.cpu.(remaining := 0) else Idle)
  }

  lemma BlurMove(k: System, p: Pid, t: StateTransition)
    ensures Blur(Move(k, p, t)) == Move(Blur(k), p, t)
    ensures Move(k, p, t).policy == k.policy
  {
  }

  lemma BlurWake(k: System, p: Pid)
    requires k.policy != Priority
    ensures Blur(Wake(k, p)) == Wake(Blur(k), p)
    ensures Wake(k, p).policy == k.policy
  {
    BlurMove(k, p, IoComplete);
  }

  lemma {:induction false} BlurWakeAll(k: System, completed: seq<Entry>)
    requires k.policy != Priority
    ensures Blur(WakeAll(k, completed)) == WakeAll(Blur(k), completed)
    ensures WakeAll(k, completed).policy == k.policy
    decreases |completed|
  {
    if completed != [] {
      BlurWakeAll(k, completed[..|completed| - 1]);
      BlurWake(WakeAll(k, completed[..|completed| - 1]), completed[|completed| - 1].pid);
    }
  }

  lemma BlurExecute(k: System)
    ensures Blur(ExecuteTick(k)) == Blur(ExecuteTick(Blur(k)))
    ensures ExecuteTick(k).policy == k.policy
  {
  }

  // Unless a quantum expires, the event does not depend on the quantum.
  lemma SameEvent(x: System, y: System)
    requires Blur(x) == Blur(y)
    requires RaisedEvent(x) != Some(KernelEvent.QuantumExpired) && RaisedEvent(y) != Some(KernelEvent.QuantumExpired)
    ensures RaisedEvent(x) == RaisedEvent(y)
  {
  }

  lemma BlurBlock(k: System)
    requires k.cpu.Executing?
    ensures Blur(Vacate(k, Some(SyscallBlock))) == Blur(Vacate(Blur(k), Some(SyscallBlock)))
    ensures Vacate(k, Some(SyscallBlock)).policy == k.policy
  {
    BlurMove(k, k.cpu.pid, BlockingSyscall);
    assert Serviced(k, k.cpu.pid) == Serviced(Blur(k), k.cpu.pid);
  }

  lemma BlurExit(k: System)
    requires k.cpu.Executing?
    ensures Blur(Vacate(k, Some(ProcessExit))) == Blur(Vacate(Blur(k), Some(ProcessExit)))
    ensures Vacate(k, Some(ProcessExit)).policy == k.policy
  {
    BlurMove(k, k.cpu.pid, Exit);
  }

  lemma BlurDispatch(k: System)
    requires k.policy != Priority
    ensures Blur(DispatchNext(k)) == Blur(DispatchNext(Blur(k)))
  {
    if k.ready != [] {
      var c := k.(ready := Without(k.ready, 0));
      BlurMove(c, k.ready[0], Dispatch);
      assert Blur(c) == Blur(k).(ready := Without(k.ready, 0));
      BlurLoaded(k, Move(c, k.ready[0], Dispatch), DispatchNext(k), DispatchNext(Blur(k)), k.ready[0]);
    }
  }

  // The same process is loaded, with another quantum, and the same notice may follow.
  lemma BlurLoaded(k: System, m: System, d: System, e: System, p: Pid)
    requires var cpu := Executing(p, if p in m.meta then m.meta[p].profile else map[], Quantum(k));
      d == if k.cpu.Executing? then Notify(m.(cpu := cpu), SwitchedContext(k.cpu.pid, p)) else m.(cpu := cpu)
    requires var cpu := Executing(p, if p in m.meta then m.meta[p].profile else map[], Quantum(Blur(k)));
      e == if k.cpu.Executing? then Notify(Blur(m).(cpu := cpu), SwitchedContext(k.cpu.pid, p))
           else Blur(m).(cpu := cpu)
    ensures Blur(d) == Blur(e)
  {
  }

  lemma BlurHasActive(k: System, l: System)
    requires Blur(k) == Blur(l)
    ensures HasActive(k) <==> HasActive(l)
  {
    assert k.procs == Blur(k).procs == Blur(l).procs == l.procs;
  }

  // What follows an event other than an expiry does not depend on policy and quantum.
  lemma SameHandling(k: System, l: System, e: Option<KernelEvent>)
    requires k.policy != Priority && l.policy != Priority && Blur(k) == Blur(l)
    requires e != Some(KernelEvent.QuantumExpired)
    ensures Blur(HandleEvent(k, e)) == Blur(HandleEvent(l, e))
  {
    if e.Some? {
      SameVacating(k, l, e);
      var v, w := Vacate(k, e), Vacate(l, e);
      BlurDispatch(v);
      BlurDispatch(w);
      BlurHasActive(DispatchNext(v), DispatchNext(w));
      SameAnnouncement(DispatchNext(v), DispatchNext(w));
    }
  }

  lemma SameAnnouncement(d: System, f: System)
    requires Blur(d) == Blur(f)
    ensures Blur(Notify(d, Completed)) == Blur(Notify(f, Completed))
  {
    assert Blur(Notify(d, Completed)) == Notify(Blur(d), Completed);
  }

  lemma SameVacating(k: System, l: System, e: Option<KernelEvent>)
    requires k.policy != Priority && l.policy != Priority && Blur(k) == Blur(l)
    requires e.Some? && e != Some(KernelEvent.QuantumExpired)
    ensures Blur(Vacate(k, e)) == Blur(Vacate(l, e))
    ensures Vacate(k, e).policy == k.policy && Vacate(l, e).policy == l.policy
  {
    if k.cpu.Executing? {
      match e.value {
        case SyscallBlock =>
          BlurBlock(k);
          BlurBlock(l);
        case ProcessExit =>
          BlurExit(k);
          BlurExit(l);
        case CpuIdle =>
      }
    }
  }

  // Every program admitted so far fits into the quantum of its kernel.
  ghost predicate AllFit(k: System) {
    forall p | p in k.meta :: Fits(k.meta[p], Slice(k))
  }

  // For a life: the tick after a short enough burst so far is not an expiry.
  lemma LifeDoesNotExpire(g: Program, slice: int, v: Life)
    requires slice >= 1 && OnCourse(g, slice, v) && StateOf(v) == Running && Fits(g, slice)
    ensures NextState(g, v.used + 1, v.left - 1) != Ready
  {
    ExitPoint(g, v.used + 1);
    if v.used + 1 < Finish(g) {
      FitsMeansNoExpiry(g, slice, v.used + 1);
    }
  }

  lemma NoExpiryNext(k: System, now: int, pending: seq<Entry>, completed: seq<Entry>)
    requires Inv(k) && Lively(k) && AllFit(k) && Legal(k, Elapse(now, pending, completed))
    ensures RaisedEvent(ExecuteTick(Roused(k, now, pending, completed))) != Some(KernelEvent.QuantumExpired)
  {
    var w := Roused(k, now, pending, completed);
    RousedStep(k, now, pending, completed);
    if w.cpu.Executing? {
      RetiredLater(k, now, pending, completed);
      NoExpiryRaised(w);
    }
  }

  // The running process does not go back to READY in its next CPU tick.
  lemma NextNotReady(k: System, p: Pid)
    requires Inv(k) && Lively(k) && AllFit(k) && k.cpu.Executing? && k.cpu.pid == p
    ensures p in k.procs && p in k.meta
    ensures NextState(k.meta[p], k.procs[p].used + 1, LeftOf(k, p) - 1) != Ready
  {
    LifeState(k, k.blocked, p);
    assert Sound(k.meta[p], Slice(k), k.now, LifeOf(k, p));
    LifeDoesNotExpire(k.meta[p], Slice(k), LifeOf(k, p));
  }

  lemma RetiredLater(k: System, now: int, pending: seq<Entry>, completed: seq<Entry>)
    requires Inv(k) && Lively(k) && AllFit(k) && Legal(k, Elapse(now, pending, completed))
    requires k.cpu.Executing?
    ensures var w := Roused(k, now, pending, completed);
      w.cpu == k.cpu && w.cpu.pid in w.procs && w.cpu.pid in w.meta && Retired(w) != Ready
  {
    var p := k.cpu.pid;
    NextNotReady(k, p);
    RousedStep(k, now, pending, completed);
    RousedLife(k, now, pending, completed, p);
    RetiredNotReady(k, Roused(k, now, pending, completed), p);
  }

  lemma RetiredNotReady(k: System, w: System, p: Pid)
    requires w.cpu.Executing? && w.cpu == k.cpu && w.meta == k.meta && p == w.cpu.pid && p in w.procs && p in w.meta
    requires p in k.procs && k.procs[p].used == w.procs[p].used
    requires NextState(k.meta[p], k.procs[p].used + 1, LeftOf(k, p) - 1) != Ready
    ensures Retired(w) != Ready
  {
  }

  lemma NoExpiryRaised(w: System)
    requires Consistent(w, w.blocked) && w.cpu.Executing? && Retired(w) != Ready
    ensures RaisedEvent(ExecuteTick(w)) != Some(KernelEvent.QuantumExpired)
  {
    ExecuteEffect(w);
  }

  lemma SameTick(k: System, l: System, now: int, pending: seq<Entry>, completed: seq<Entry>)
    requires k.policy != Priority && l.policy != Priority && Blur(k) == Blur(l)
    requires RaisedEvent(ExecuteTick(Roused(k, now, pending, completed))) != Some(KernelEvent.QuantumExpired)
    requires RaisedEvent(ExecuteTick(Roused(l, now, pending, completed))) != Some(KernelEvent.QuantumExpired)
    ensures Blur(Tick(k, now, pending, completed)) == Blur(Tick(l, now, pending, completed))
  {
    var v, w := Roused(k, now, pending, completed), Roused(l, now, pending, completed);
    SameWaking(k, l, now, pending, completed);
    BlurExecute(v);
    BlurExecute(w);
    SameEvent(ExecuteTick(v), ExecuteTick(w));
    SameHandling(ExecuteTick(v), ExecuteTick(w), RaisedEvent(ExecuteTick(v)));
    SameEnd(Turn(v), Turn(w), now);
  }

  lemma SameWaking(k: System, l: System, now: int, pending: seq<Entry>, completed: seq<Entry>)
    requires k.policy != Priority && l.policy != Priority && Blur(k) == Blur(l)
    ensures var v, w := Roused(k, now, pending, completed), Roused(l, now, pending, completed);
      Blur(v) == Blur(w) && v.policy != Priority && w.policy != Priority
  {
    var a, b := k.(now := now, blocked := pending), l.(now := now, blocked := pending);
    assert Blur(a) == Blur(k).(now := now, blocked := pending) == Blur(b);
    BlurWakeAll(a, completed);
    BlurWakeAll(b, completed);
  }

  lemma SameEnd(v: System, w: System, now: int)
    requires Blur(v) == Blur(w)
    ensures Blur(Notify(v, TickDone(now))) == Blur(Notify(w, TickDone(now)))
  {
    assert Blur(Notify(v, TickDone(now))) == Notify(Blur(v), TickDone(now));
  }

  lemma SameAdmission(k: System, l: System, g: Program)
    requires k.policy != Priority && l.policy != Priority && Blur(k) == Blur(l)
    ensures Blur(RunProgram(k, g)) == Blur(RunProgram(l, g))
  {
    BlurAdmission(k, g);
    BlurAdmission(l, g);
  }

  lemma BlurAdmission(k: System, g: Program)
    requires k.policy != Priority
    ensures Blur(RunProgram(k, g)) == RunProgram(Blur(k), g)
  {
  }

  // Both kernels can take the next input, and still agree afterwards.
  lemma SameStep(k: System, l: System, i: Input)
    requires Inv(k) && Lively(k) && AllFit(k) && Inv(l) && Lively(l) && AllFit(l)
    requires k.policy != Priority && l.policy != Priority && Blur(k) == Blur(l) && Legal(k, i)
    ensures Legal(l, i) && Blur(Apply(k, i)) == Blur(Apply(l, i))
  {
    assert k.now == Blur(k).now == l.now && k.blocked == Blur(k).blocked == l.blocked;
    match i {
      case Run(g) => SameAdmission(k, l, g);
      case Prioritize(p, priority) =>
        assert Blur(SetPriority(k, p, priority)) == SetPriority(Blur(k), p, priority);
        assert Blur(SetPriority(l, p, priority)) == SetPriority(Blur(l), p, priority);
      case Elapse(now, pending, completed) =>
        NoExpiryNext(k, now, pending, completed);
        NoExpiryNext(l, now, pending, completed);
        SameTick(k, l, now, pending, completed);
    }
  }

  // Every program the inputs admit fits into both quanta.
  ghost predicate InputsFit(inputs: seq<Input>, a: int, b: int) {
    forall i | i in inputs && i.Run? :: Fits(i.program, a) && Fits(i.program, b)
  }

  lemma FitAfter(k: System, i: Input)
    requires Inv(k) && AllFit(k) && Legal(k, i) && (i.Run? ==> Fits(i.program, Slice(k)))
    ensures AllFit(Apply(k, i)) && Slice(Apply(k, i)) == Slice(k)
  {
    var k' := Apply(k, i);
    ApplyStep(k, i);
    forall p | p in k'.meta
      ensures Fits(k'.meta[p], Slice(k'))
    {
      ApplyLife(k, i, p);
    }
  }

  lemma {:induction false} SameRun(k: System, l: System, inputs: seq<Input>)
    requires Inv(k) && Lively(k) && AllFit(k) && Inv(l) && Lively(l) && AllFit(l)
    requires k.policy != Priority && l.policy != Priority && Blur(k) == Blur(l)
    requires LegalRun(k, inputs) && InputsFit(inputs, Slice(k), Slice(l))
    ensures LegalRun(l, inputs) && Blur(Exec(k, inputs)) == Blur(Exec(l, inputs))
    decreases inputs
  {
    if inputs != [] {
      var i := inputs[0];
      SameStep(k, l, i);
      ApplyStep(k, i);
      ApplyStep(l, i);
      ApplyLively(k, i);
      ApplyLively(l, i);
      FitAfter(k, i);
      FitAfter(l, i);
      assert forall j | j in inputs[1..] :: j in inputs;
      SameRun(Apply(k, i), Apply(l, i), inputs[1..]);
    }
  }

  /** Round Robin is FCFS as long as every burst fits into the quantum: after the same inputs the two
      kernels have the same queues, running process, process control blocks and log, and differ in the
      remaining quantum alone. */
  lemma RoundRobinIsFcfs(quantum: int, inputs: seq<Input>)
    requires LegalRun(Init(RoundRobin, quantum), inputs) && InputsFit(inputs, Max(1, quantum), INT_MAX)
    ensures LegalRun(Init(FCFS, quantum), inputs)
    ensures Blur(Exec(Init(RoundRobin, quantum), inputs)) == Blur(Exec(Init(FCFS, quantum), inputs))
  {
    InitInv(RoundRobin, quantum);
    InitInv(FCFS, quantum);
    SameRun(Init(RoundRobin, quantum), Init(FCFS, quantum), inputs);
  }

  /** And no longer: if a process terminated in a Round Robin and in an FCFS run with the same log, its
      bursts fit into the quantum. */
  lemma RoundRobinIsFcfsOnlyIf(k: System, l: System, p: Pid)
    requires Reachable(k) && Reachable(l) && k.policy == RoundRobin && l.policy == FCFS && k.log == l.log
    requires p in k.procs && p in l.procs && k.procs[p].state == l.procs[p].state == Terminated
    requires p in k.meta && p in l.meta && k.meta[p] == l.meta[p] && Fits(l.meta[p], INT_MAX)
    ensures Fits(k.meta[p], Max(1, k.quantum))
  {
    NeverPreemptedIff(k, p);
    NeverPreemptedIff(l, p);
  }
}
