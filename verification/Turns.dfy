/** One turn of the CPU: what it does to the running process, and what a whole tick keeps. */
module Turns {
  import opened Types
  import opened Programs
  import opened Logs
  import opened Machine
  import opened Consistency

  // Where one more CPU tick takes the running process; used and remaining are after that tick.
  function NextState(g: Program, used: int, remaining: int): ProcessState {
    if used in g.profile then Blocked
    else if used >= g.estimate then Terminated
    else if remaining <= 0 then Ready
    else Running
  }

  // The CPU part of a tick, up to the dispatch.
  function Retire(k: System): System {
    var x := ExecuteTick(k);
    Vacate(x, RaisedEvent(x))
  }

  function Retired(k: System): ProcessState
    requires k.cpu.Executing? && k.cpu.pid in k.procs && k.cpu.pid in k.meta
  {
    NextState(k.meta[k.cpu.pid], k.procs[k.cpu.pid].used + 1, k.cpu.remaining - 1)
  }

  // The running process after a tick, in state s.
  ghost predicate RetiredAs(k: System, k': System, p: Pid, s: ProcessState)
    requires k.cpu.Executing? && p in k.procs && p in k.meta
    requires s == Blocked ==> k.procs[p].used + 1 in k.meta[p].profile
  {
    var b := k.procs[p];
    && k' == k.(procs := k.procs[p := b.(state := s, used := b.used + 1, counter := b.counter + 1)],
                cpu := if s == Running then k.cpu.(remaining := k.cpu.remaining - 1) else Idle,
                ready := k'.ready,
                blocked := k'.blocked,
                log := k'.log)
    && k'.blocked == (if s == Blocked then k.blocked + [Entry(p, k.now + k.meta[p].profile[b.used + 1].duration)]
                      else k.blocked)
    && k'.ready == (if s == Ready then Enqueue(k, p).ready else k.ready)
    && Clock(k'.log) == Clock(k.log)
    && (forall q :: History(k'.log, q) ==
                    History(k.log, q) + if q == p && s != Running then [Stamp(Clock(k.log), s)] else [])
  }

  lemma ExecuteEffect(k: System)
    requires CpuLoaded(k) && k.cpu.Executing?
    requires k.procs[k.cpu.pid].estimate == k.meta[k.cpu.pid].estimate
    ensures var p := k.cpu.pid;
      var b := k.procs[p];
      var x := ExecuteTick(k);
      && x == k.(procs := k.procs[p := b.(used := b.used + 1, counter := b.counter + 1)],
                 cpu := k.cpu.(remaining := k.cpu.remaining - 1))
      && RaisedEvent(x) == match Retired(k) {
           case Blocked => Some(SyscallBlock)
           case Terminated => Some(ProcessExit)
           case Ready => Some(KernelEvent.QuantumExpired)
           case _ => None
         }
      && (Retired(k) == Blocked ==> Serviced(x, p) == k.meta[p].profile[b.used + 1])
  {
  }

  // What a handler does to the process that left the CPU; x is the state after the CPU tick.
  ghost predicate Left(x: System, k': System, p: Pid, s: ProcessState, reason: KernelEvent)
    requires p in x.procs
  {
    && k' == x.(procs := x.procs[p := x.procs[p].(state := s)], cpu := Idle,
                ready := k'.ready, blocked := k'.blocked,
                log := x.log + [Transitioned(p, Running, s), SchedulerInvoked(reason)])
    && Clock(k'.log) == Clock(x.log)
    && (forall q :: History(k'.log, q) == History(x.log, q) + if q == p then [Stamp(Clock(x.log), s)] else [])
  }

  lemma BlockEffect(x: System)
    requires x.cpu.Executing? && x.cpu.pid in x.procs && x.procs[x.cpu.pid].state == Running
    ensures var p := x.cpu.pid;
      var k' := Vacate(x, Some(SyscallBlock));
      && Left(x, k', p, Blocked, SyscallBlock)
      && k'.ready == x.ready
      && k'.blocked == x.blocked + [Entry(p, x.now + Serviced(x, p).duration)]
  {
    var m := Move(x, x.cpu.pid, BlockingSyscall);
    MoveFacts(x, x.cpu.pid, BlockingSyscall);
    LogGrows(m.log, SchedulerInvoked(SyscallBlock));
  }

  lemma ExitEffect(x: System)
    requires x.cpu.Executing? && x.cpu.pid in x.procs && x.procs[x.cpu.pid].state == Running
    ensures var p := x.cpu.pid;
      var k' := Vacate(x, Some(ProcessExit));
      Left(x, k', p, Terminated, ProcessExit) && k'.ready == x.ready && k'.blocked == x.blocked
  {
    var m := Move(x, x.cpu.pid, Exit);
    MoveFacts(x, x.cpu.pid, Exit);
    LogGrows(m.log, SchedulerInvoked(ProcessExit));
  }

  lemma ExpireEffect(x: System)
    requires x.cpu.Executing? && x.cpu.pid in x.procs && x.procs[x.cpu.pid].state == Running
    ensures var p := x.cpu.pid;
      var k' := Vacate(x, Some(KernelEvent.QuantumExpired));
      && Left(x, k', p, Ready, KernelEvent.QuantumExpired)
      && k'.ready == Enqueue(x, p).ready && k'.blocked == x.blocked
  {
    var p := x.cpu.pid;
    var m := Move(x, p, StateTransition.QuantumExpired);
    MoveFacts(x, p, StateTransition.QuantumExpired);
    EnqueueFacts(m.(cpu := Idle), p);
    EnqueueAlike(x, m.(cpu := Idle), p);
    ExpiredAs(x, m, Enqueue(m.(cpu := Idle), p), p);
  }

  // Only the queue, the policy and the priorities matter to the place of a process.
  lemma EnqueueAlike(x: System, m: System, p: Pid)
    requires m.ready == x.ready && m.policy == x.policy && p in x.procs && p in m.procs
    requires m.procs == x.procs[p := m.procs[p]] && m.procs[p].priority == x.procs[p].priority
    ensures Enqueue(m, p).ready == Enqueue(x, p).ready
  {
    SamePriorities(x.ready, x.procs, m.procs, PriorityOf(x.procs, p));
  }

  lemma ExpiredAs(x: System, m: System, e: System, p: Pid)
    requires p in x.procs && x.procs[p].state == Running
    requires m == x.(procs := x.procs[p := x.procs[p].(state := Ready)],
                     log := x.log + [Transitioned(p, Running, Ready)])
    requires Clock(m.log) == Clock(x.log)
    requires forall q :: History(m.log, q) == History(x.log, q) + if q == p then [Stamp(Clock(x.log), Ready)] else []
    requires e == m.(cpu := Idle, ready := e.ready)
    ensures var reason := KernelEvent.QuantumExpired;
      Left(x, Notify(e, SchedulerInvoked(reason)), p, Ready, reason)
  {
    LogGrows(m.log, SchedulerInvoked(KernelEvent.QuantumExpired));
  }

  lemma LeftAfterTick(k: System, x: System, k': System, p: Pid, s: ProcessState, reason: KernelEvent)
    requires k.cpu.Executing? && p in k.procs && p in k.meta && s != Running
    requires x == k.(procs := k.procs[p := k.procs[p].(used := k.procs[p].used + 1, counter := k.procs[p].counter + 1)],
                     cpu := x.cpu)
    requires Left(x, k', p, s, reason)
    requires s == Blocked ==> k.procs[p].used + 1 in k.meta[p].profile
    requires k'.blocked ==
      if s == Blocked then k.blocked + [Entry(p, k.now + k.meta[p].profile[k.procs[p].used + 1].duration)]
      else k.blocked
    requires k'.ready == if s == Ready then Enqueue(k, p).ready else k.ready
    ensures RetiredAs(k, k', p, s)
  {
  }

  lemma RetireEffect(k: System)
    requires CpuLoaded(k) && k.cpu.Executing?
    requires k.procs[k.cpu.pid].estimate == k.meta[k.cpu.pid].estimate
    ensures RetiredAs(k, Retire(k), k.cpu.pid, Retired(k))
  {
    ExecuteEffect(k);
    var x := ExecuteTick(k);
    var p := k.cpu.pid;
    match Retired(k) {
      case Blocked =>
        BlockEffect(x);
        LeftAfterTick(k, x, Retire(k), p, Blocked, SyscallBlock);
      case Terminated =>
        ExitEffect(x);
        LeftAfterTick(k, x, Retire(k), p, Terminated, ProcessExit);
      case Ready =>
        ExpireEffect(x);
        EnqueueAlike(k, x, p);
        LeftAfterTick(k, x, Retire(k), p, Ready, KernelEvent.QuantumExpired);
      case _ =>
    }
  }

  lemma RetireStep(k: System)
    requires Consistent(k, k.blocked) && k.cpu.Executing?
    ensures k.cpu.pid in k.procs && k.cpu.pid in k.meta && k.procs[k.cpu.pid].state == Running
    ensures RetiredAs(k, Retire(k), k.cpu.pid, Retired(k))
    ensures Consistent(Retire(k), Retire(k).blocked)
    ensures Retired(k) != Running <==> Retire(k).cpu.Idle?
  {
    var p := k.cpu.pid;
    assert Progressed(k, p);
    RetireEffect(k);
    RetireLog(k);
    RetiredKeeps(k, Retire(k), p);
  }

  lemma RetireLog(k: System)
    requires CpuLoaded(k) && k.cpu.Executing?
    requires k.procs[k.cpu.pid].estimate == k.meta[k.cpu.pid].estimate
    requires forall e | e in k.log :: Ordinary(e)
    ensures forall e | e in Retire(k).log :: Ordinary(e)
  {
    ExecuteEffect(k);
    var x := ExecuteTick(k);
    var p := k.cpu.pid;
    match Retired(k) {
      case Blocked =>
        BlockEffect(x);
        LeftOrdinary(x, Retire(k), p, Blocked, SyscallBlock);
      case Terminated =>
        ExitEffect(x);
        LeftOrdinary(x, Retire(k), p, Terminated, ProcessExit);
      case Ready =>
        ExpireEffect(x);
        LeftOrdinary(x, Retire(k), p, Ready, KernelEvent.QuantumExpired);
      case _ =>
    }
  }

  lemma LeftOrdinary(x: System, k': System, p: Pid, s: ProcessState, reason: KernelEvent)
    requires p in x.procs && Left(x, k', p, s, reason) && s != New
    requires forall e | e in x.log :: Ordinary(e)
    ensures forall e | e in k'.log :: Ordinary(e)
  {
  }

  lemma RetiredProgress(k: System, k': System, p: Pid)
    requires Located(k, k.blocked) && k.cpu.Executing? && p == k.cpu.pid && p in k.procs && p in k.meta
    requires RetiredAs(k, k', p, Retired(k))
    ensures Progressed(k', p) && CpuLoaded(k') && CpuMoved(k, k', p, Retired(k) == Running)
  {
    assert Progressed(k, p);
    ExitPoint(k.meta[p], k.procs[p].used + 1);
  }

  lemma RetiredQueues(k: System, k': System, p: Pid)
    requires Located(k, k.blocked) && k.cpu.Executing? && p == k.cpu.pid && p in k.procs && p in k.meta
    requires RetiredAs(k, k', p, Retired(k))
    ensures ReadyMoved(k.ready, k'.ready, p, Retired(k) == Ready)
    ensures EntriesMoved(k.blocked, k'.blocked, p, Retired(k) == Blocked)
  {
    assert !Waits(k.blocked, p);
    if Retired(k) == Blocked {
      EntryJoins(k.blocked, Entry(p, k.now + k.meta[p].profile[k.procs[p].used + 1].duration));
    }
    if Retired(k) == Ready {
      EnqueueFacts(k, p);
    }
  }

  lemma RetiredKeeps(k: System, k': System, p: Pid)
    requires Consistent(k, k.blocked) && k.cpu.Executing? && p == k.cpu.pid && p in k.procs && p in k.meta
    requires RetiredAs(k, k', p, Retired(k))
    requires forall e | e in k'.log :: Ordinary(e)
    ensures Consistent(k', k'.blocked)
  {
    RetiredProgress(k, k', p);
    RetiredQueues(k, k', p);
    var s := Retired(k);
    OneProcessMoves(k, k.blocked, k', k'.blocked, p, if s == Running then [] else [Stamp(Clock(k.log), s)]);
  }

  lemma EntryJoins(entries: seq<Entry>, e: Entry)
    requires UniqueEntries(entries) && !Waits(entries, e.pid)
    ensures EntriesMoved(entries, entries + [e], e.pid, true)
  {
    forall i | 0 <= i < |entries|
      ensures entries[i].pid != e.pid
    {
      assert Entry(entries[i].pid, entries[i].wakeup) in entries;
    }
    assert Entry(e.pid, e.wakeup) in entries + [e];
  }

  // ---------- waking ----------

  lemma TwicePresent<T>(s: seq<T>, i: nat, j: nat)
    requires i < j < |s| && s[i] == s[j]
    ensures multiset(s)[s[i]] >= 2
  {
    assert s == s[..j] + s[j..];
    assert s[..j][i] == s[i] && s[j..][0] == s[i];
    assert s[i] in multiset(s[..j]) && s[i] in multiset(s[j..]);
  }

  lemma UniqueReordered(a: seq<Entry>, b: seq<Entry>)
    requires UniqueEntries(a) && multiset(a) == multiset(b)
    ensures UniqueEntries(b)
  {
    forall i, j | 0 <= i < j < |b|
      ensures b[i].pid != b[j].pid
    {
      assert b[i] in multiset(b) && b[j] in multiset(b);
      var x :| 0 <= x < |a| && a[x] == b[i];
      var y :| 0 <= y < |a| && a[y] == b[j];
      if b[i] == b[j] {
        TwicePresent(b, i, j);
        OncePresent(a, x);
      }
    }
  }

  lemma OncePresent(a: seq<Entry>, x: nat)
    requires UniqueEntries(a) && x < |a|
    ensures multiset(a)[a[x]] == 1
  {
    assert a == a[..x] + [a[x]] + a[x + 1..];
    assert a[x] !in a[..x] && a[x] !in a[x + 1..];
  }

  lemma Reordered(k: System, a: seq<Entry>, b: seq<Entry>)
    requires Consistent(k, a) && multiset(a) == multiset(b)
    ensures Consistent(k, b)
  {
    UniqueReordered(a, b);
    assert forall e :: e in a <==> e in multiset(a);
    assert forall e :: e in b <==> e in multiset(b);
    forall p | p in k.procs
      ensures Placed(k, b, p)
    {
      assert Placed(k, a, p);
      if k.procs[p].state == Blocked {
        var w: int :| Entry(p, w) in a;
        assert Entry(p, w) in b;
      }
    }
  }

  lemma LastAside(rest: seq<Entry>, completed: seq<Entry>)
    requires completed != []
    ensures var n := |completed| - 1;
      multiset(rest + completed) == multiset((rest + [completed[n]]) + completed[..n])
  {
    var n := |completed| - 1;
    assert rest + completed == rest + (completed[..n] + [completed[n]]);
  }

  lemma {:induction false} WakeAllStep(k: System, rest: seq<Entry>, completed: seq<Entry>)
    requires Consistent(k, rest + completed)
    ensures Consistent(WakeAll(k, completed), rest)
    decreases |completed|
  {
    if completed == [] {
      assert rest + completed == rest;
    } else {
      var n := |completed| - 1;
      var last := completed[n];
      LastAside(rest, completed);
      Reordered(k, rest + completed, (rest + [last]) + completed[..n]);
      WakeAllStep(k, rest + [last], completed[..n]);
      WakeStep(WakeAll(k, completed[..n]), rest, last);
    }
  }

  // What waking leaves alone.
  lemma {:induction false} WakeAllFrame(k: System, completed: seq<Entry>)
    ensures var w := WakeAll(k, completed);
      w == k.(procs := w.procs, ready := w.ready, log := w.log, thrown := w.thrown)
      && Clock(w.log) == Clock(k.log)
    decreases |completed|
  {
    if completed != [] {
      var n := |completed| - 1;
      WakeAllFrame(k, completed[..n]);
      var w := WakeAll(k, completed[..n]);
      var p := completed[n].pid;
      if p in w.procs {
        LogGrows(w.log, Transitioned(p, w.procs[p].state, Ready));
      }
    }
  }
}
