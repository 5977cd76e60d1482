/** What the kernel announces and services: the end of the simulation once, and the syscall that was
    detected; and that it never idles while somebody is ready. */
module Completion {
  import opened Types
  import opened Machine
  import opened Consistency
  import opened Turns
  import opened Projection
  import opened Runs
  import opened Outcomes
  import opened Termination

  function Completions(log: seq<Notice>): nat {
    if log == [] then 0 else Completions(log[..|log| - 1]) + Bit(log[|log| - 1].Completed?)
  }

  lemma CompletionsGrow(log: seq<Notice>, e: Notice)
    ensures Completions(log + [e]) == Completions(log) + Bit(e.Completed?)
  {
    assert (log + [e])[..|log|] == log;
  }

  lemma MoveAnnouncesNothing(k: System, p: Pid, t: StateTransition)
    ensures Completions(Move(k, p, t).log) == Completions(k.log)
  {
    if p in k.procs {
      CompletionsGrow(k.log, Transitioned(p, k.procs[p].state, TargetState(t)));
    }
  }

  lemma {:induction false} WakingAnnouncesNothing(k: System, completed: seq<Entry>)
    ensures Completions(WakeAll(k, completed).log) == Completions(k.log)
    decreases |completed|
  {
    if completed != [] {
      var n := |completed| - 1;
      WakingAnnouncesNothing(k, completed[..n]);
      MoveAnnouncesNothing(WakeAll(k, completed[..n]), completed[n].pid, IoComplete);
    }
  }

  lemma LeavingAnnouncesNothing(x: System, k': System, p: Pid, s: ProcessState, reason: KernelEvent)
    requires p in x.procs && Left(x, k', p, s, reason)
    ensures Completions(k'.log) == Completions(x.log)
  {
    var moved := x.log + [Transitioned(p, Running, s)];
    CompletionsGrow(x.log, Transitioned(p, Running, s));
    CompletionsGrow(moved, SchedulerInvoked(reason));
    assert k'.log == moved + [SchedulerInvoked(reason)];
  }

  lemma RetiringAnnouncesNothing(k: System)
    requires Consistent(k, k.blocked)
    ensures Completions(Retire(k).log) == Completions(k.log)
  {
    if k.cpu.Executing? {
      var p := k.cpu.pid;
      assert Progressed(k, p);
      ExecuteEffect(k);
      var x := ExecuteTick(k);
      match Retired(k) {
        case Blocked =>
          BlockEffect(x);
          LeavingAnnouncesNothing(x, Retire(k), p, Blocked, SyscallBlock);
        case Terminated =>
          ExitEffect(x);
          LeavingAnnouncesNothing(x, Retire(k), p, Terminated, ProcessExit);
        case Ready =>
          ExpireEffect(x);
          LeavingAnnouncesNothing(x, Retire(k), p, Ready, KernelEvent.QuantumExpired);
        case _ =>
      }
    }
  }

  lemma SettlingAnnouncesNothing(k: System)
    requires Consistent(k, k.blocked)
    ensures Completions(Settled(k).log) == Completions(k.log)
  {
    var v := Retire(k);
    RetiringAnnouncesNothing(k);
    SettledEffect(k);
    if v.cpu.Idle? && v.ready != [] {
      CompletionsGrow(v.log, Transitioned(v.ready[Selected(v)], Ready, Running));
    }
  }

  lemma TickCompletions(k: System, now: int, pending: seq<Entry>, completed: seq<Entry>)
    requires Inv(k) && Legal(k, Elapse(now, pending, completed))
    ensures Completions(Tick(k, now, pending, completed).log) ==
            Completions(k.log) + Bit(Finishes(Roused(k, now, pending, completed)))
    ensures Tick(k, now, pending, completed).procs == Settled(Roused(k, now, pending, completed)).procs
  {
    var w := Roused(k, now, pending, completed);
    WakingAnnouncesNothing(k.(now := now, blocked := pending), completed);
    RousedStep(k, now, pending, completed);
    SettlingAnnouncesNothing(w);
    TurnShape(w);
    TickStep(k, now, pending, completed);
    CompletionsGrow(Settled(w).log, Completed);
    CompletionsGrow(Turn(w).log, TickDone(now));
  }

  // A process of a settled turn terminated only if the turn raised an exit.
  lemma ExitNeedsEvent(k: System)
    requires Consistent(k, k.blocked) && HasActive(k) && !HasActive(Settled(k))
    ensures Finishes(k)
  {
    var p :| p in k.procs && k.procs[p].state != Terminated;
    ExitOfLast(k, p);
    assert Progressed(k, p);
    RetireStep(k);
    RetiredByExit(k, p);
  }

  // Only the running process can terminate in a tick.
  lemma ExitOfLast(k: System, p: Pid)
    requires Consistent(k, k.blocked) && p in k.procs && k.procs[p].state != Terminated && !HasActive(Settled(k))
    ensures k.cpu.Executing? && k.cpu.pid == p && Retire(k).cpu.Idle? && Retired(k) == Terminated
  {
    EndedBySettling(k, p);
    RetireStep(k);
    SettledEffect(k);
    EndedAs(k, Retire(k), Settled(k), p);
  }

  lemma EndedAs(k: System, v: System, d: System, p: Pid)
    requires k.cpu.Executing? && k.cpu.pid == p && p in k.procs && p in k.meta && RetiredAs(k, v, p, Retired(k))
    requires d == v || exists x | x in v.procs :: d.procs == v.procs[x := v.procs[x].(state := Running)]
    requires p in d.procs && d.procs[p].state == Terminated
    ensures Retired(k) == Terminated
  {
  }

  lemma EndedBySettling(k: System, p: Pid)
    requires Consistent(k, k.blocked) && p in k.procs && k.procs[p].state != Terminated && !HasActive(Settled(k))
    ensures k.cpu.Executing? && k.cpu.pid == p
    ensures p in Settled(k).procs && Settled(k).procs[p].state == Terminated
  {
    var d := Settled(k);
    SettledStep(k);
    LifeState(k, k.blocked, p);
    SettledLife(k, p);
    LifeState(d, d.blocked, p);
  }

  lemma RetiredByExit(k: System, p: Pid)
    requires Consistent(k, k.blocked) && k.cpu.Executing? && k.cpu.pid == p && p in k.procs && p in k.meta
    requires Progressed(k, p) && Retired(k) == Terminated
    ensures RaisedEvent(ExecuteTick(k)) == Some(ProcessExit)
  {
    ExecuteEffect(k);
  }

  lemma RousedActive(k: System, now: int, pending: seq<Entry>, completed: seq<Entry>)
    requires Inv(k) && Legal(k, Elapse(now, pending, completed))
    ensures HasActive(Roused(k, now, pending, completed)) <==> HasActive(k)
  {
    var w := Roused(k, now, pending, completed);
    RousedStep(k, now, pending, completed);
    forall p | p in k.procs
      ensures p in w.procs && (w.procs[p].state == Terminated <==> k.procs[p].state == Terminated)
    {
      RousedLife(k, now, pending, completed, p);
      LifeState(k, k.blocked, p);
      LifeState(w, w.blocked, p);
    }
    assert forall p :: p in w.procs <==> p in k.procs;
  }

  lemma FinishingIsLastExit(k: System)
    requires Consistent(k, k.blocked)
    ensures Finishes(k) <==> HasActive(k) && !HasActive(Settled(k))
  {
    if Finishes(k) {
      assert k.procs[k.cpu.pid].state == Running;
    } else if HasActive(k) && !HasActive(Settled(k)) {
      ExitNeedsEvent(k);
    }
  }

  // With nobody active the machine is at rest.
  lemma AtRest(k: System)
    requires Inv(k)
    ensures HasActive(k) || (k.cpu.Idle? && k.ready == [] && k.blocked == [])
  {
    if k.ready != [] {
      var p := k.ready[0];
      assert p in k.ready && p in k.procs && k.procs[p].state == Ready;
    }
    if k.blocked != [] {
      var e := k.blocked[0];
      assert e in k.blocked && e.pid in k.procs && k.procs[e.pid].state == Blocked;
    }
    if k.cpu.Executing? {
      assert k.procs[k.cpu.pid].state == Running;
    }
  }

  /** The end is announced in exactly the tick in which the last active process exits, and then the
      CPU is idle and both queues are empty. */
  lemma AnnouncedWhenLastExits(k: System, now: int, pending: seq<Entry>, completed: seq<Entry>)
    requires Inv(k) && Legal(k, Elapse(now, pending, completed))
    ensures var k' := Tick(k, now, pending, completed);
      && Completions(k'.log) == Completions(k.log) + Bit(HasActive(k) && !HasActive(k'))
      && (!HasActive(k') ==> k'.cpu.Idle? && k'.ready == [] && k'.blocked == [])
  {
    TickCompletions(k, now, pending, completed);
    RousedStep(k, now, pending, completed);
    RousedActive(k, now, pending, completed);
    FinishingIsLastExit(Roused(k, now, pending, completed));
    TickStep(k, now, pending, completed);
    AtRest(Tick(k, now, pending, completed));
  }

  lemma NextAnnouncement(k: System, i: Input)
    requires Inv(k) && Legal(k, i) && i.Elapse?
    ensures var k' := Apply(k, i);
      && Inv(k') && Completions(k'.log) == Completions(k.log) + Bit(HasActive(k) && !HasActive(k'))
      && (!HasActive(k) ==> !HasActive(k'))
  {
    ApplyStep(k, i);
    AnnouncedWhenLastExits(k, i.now, i.pending, i.completed);
    if !HasActive(k) {
      StaysDone(k, [i]);
      assert Exec(k, [i]) == Apply(k, i);
    }
  }

  /** Over a run of a fixed set of processes the end is announced exactly once if all of them
      terminate, and not at all before. */
  lemma {:induction false} AnnouncedOnce(k: System, inputs: seq<Input>)
    requires Inv(k) && LegalRun(k, inputs) && TicksOnly(inputs)
    ensures Completions(Exec(k, inputs).log) == Completions(k.log) + Bit(HasActive(k) && !HasActive(Exec(k, inputs)))
    decreases inputs
  {
    if inputs != [] {
      var k' := Apply(k, inputs[0]);
      NextAnnouncement(k, inputs[0]);
      if !HasActive(k') {
        StaysDone(k', inputs[1..]);
      }
      AnnouncedOnce(k', inputs[1..]);
    }
  }

  /** After every tick, an idle CPU means that nobody is ready. */
  lemma WorkConservation(k: System, now: int, pending: seq<Entry>, completed: seq<Entry>)
    requires Reachable(k) && Legal(k, Elapse(now, pending, completed))
    ensures var k' := Tick(k, now, pending, completed);
      k'.cpu.Idle? ==> forall p | p in k'.procs :: k'.procs[p].state == Blocked || k'.procs[p].state == Terminated
  {
    ReachableSound(k);
    TickStep(k, now, pending, completed);
    var k' := Tick(k, now, pending, completed);
    forall p | k'.cpu.Idle? && p in k'.procs
      ensures k'.procs[p].state == Blocked || k'.procs[p].state == Terminated
    {
      assert Placed(k', k'.blocked, p);
    }
  }

  /** The syscall the CPU detects in its loaded profile is the one the kernel finds in its own copy: the lookup
      succeeds and the default is never used. */
  lemma DetectedIsServiced(k: System, now: int, pending: seq<Entry>, completed: seq<Entry>)
    requires Inv(k) && Legal(k, Elapse(now, pending, completed))
    ensures var x := ExecuteTick(Roused(k, now, pending, completed));
      RaisedEvent(x) == Some(SyscallBlock) ==>
        && x.cpu.pid in x.procs
        && x.procs[x.cpu.pid].used in x.cpu.profile
        && x.cpu.pid in x.meta && x.procs[x.cpu.pid].used in x.meta[x.cpu.pid].profile
        && x.cpu.profile[x.procs[x.cpu.pid].used] == Serviced(x, x.cpu.pid)
  {
    var w := Roused(k, now, pending, completed);
    RousedStep(k, now, pending, completed);
    if w.cpu.Executing? {
      assert Progressed(w, w.cpu.pid);
      ExecuteEffect(w);
    }
  }
}
