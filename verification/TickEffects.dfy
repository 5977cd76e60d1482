/** A whole tick, in the order in which it happens: what the observers are told, in what order it leaves the ready
    queue, and who of two processes woken in it is served first. */
module TickEffects {
  import opened Types
  import opened Machine
  import opened Consistency
  import opened Turns
  import opened Projection
  import opened Outcomes
  import opened Fifo
  import opened Priorities
  import opened Overtaking
  import opened Joining

  // ---------- what becomes of the running process ----------

  ghost predicate Occupied(k: System) {
    k.cpu.Executing? && k.cpu.pid in k.procs && k.cpu.pid in k.meta
  }

  // The CPU ticks of the running process, the next one included.
  ghost function NextUsed(k: System): int
    requires Occupied(k)
  {
    k.procs[k.cpu.pid].used + 1
  }

  ghost predicate Blocks(k: System) {
    Occupied(k) && NextUsed(k) in k.meta[k.cpu.pid].profile
  }

  ghost predicate Exits(k: System) {
    Occupied(k) && !Blocks(k) && NextUsed(k) >= k.meta[k.cpu.pid].estimate
  }

  ghost predicate Expires(k: System) {
    Occupied(k) && !Blocks(k) && !Exits(k) && k.cpu.remaining <= 1
  }

  ghost predicate GoesOn(k: System) {
    Occupied(k) && !Blocks(k) && !Exits(k) && !Expires(k)
  }

  lemma WhatRetires(w: System)
    requires Consistent(w, w.blocked)
    ensures w.cpu.Executing? ==> Occupied(w) && w.procs[w.cpu.pid].state == Running && Progressed(w, w.cpu.pid)
    ensures Occupied(w) ==> Retired(w) == if Blocks(w) then Blocked else if Exits(w) then Terminated
                                          else if Expires(w) then Ready else Running
  {
  }

  // Waking does not touch the CPU and its process.
  lemma RousedCpu(k: System, now: int, pending: seq<Entry>, completed: seq<Entry>)
    requires Inv(k) && Legal(k, Elapse(now, pending, completed))
    ensures var w := Roused(k, now, pending, completed);
      && Consistent(w, w.blocked) && w.cpu == k.cpu && w.meta == k.meta && Quantum(w) == Quantum(k)
      && (Blocks(w) <==> Blocks(k)) && (Exits(w) <==> Exits(k)) && (Expires(w) <==> Expires(k))
      && (GoesOn(w) <==> GoesOn(k))
  {
    RousedStep(k, now, pending, completed);
    if k.cpu.Executing? {
      RousedUsed(k, now, pending, completed, k.cpu.pid);
    }
    SameCpu(k, Roused(k, now, pending, completed));
  }

  lemma RousedUsed(k: System, now: int, pending: seq<Entry>, completed: seq<Entry>, p: Pid)
    requires Inv(k) && Legal(k, Elapse(now, pending, completed)) && p in k.procs
    ensures var w := Roused(k, now, pending, completed);
      p in w.procs && w.procs[p].used == k.procs[p].used
  {
    RousedLife(k, now, pending, completed, p);
    assert LifeOf(Roused(k, now, pending, completed), p).used == LifeOf(k, p).used;
  }

  lemma SameCpu(k: System, w: System)
    requires w.cpu == k.cpu && w.meta == k.meta
    requires k.cpu.Executing? ==>
      k.cpu.pid in k.procs && k.cpu.pid in w.procs && w.procs[k.cpu.pid].used == k.procs[k.cpu.pid].used
    ensures (Blocks(w) <==> Blocks(k)) && (Exits(w) <==> Exits(k)) && (Expires(w) <==> Expires(k))
    ensures GoesOn(w) <==> GoesOn(k)
  {
  }

  // ---------- what the observers are told ----------

  function WokenNotices(completed: seq<Entry>): seq<Notice> {
    seq(|completed|, i requires 0 <= i < |completed| => Transitioned(completed[i].pid, Blocked, Ready))
  }

  ghost function RetiredNotices(k: System): seq<Notice> {
    if Blocks(k) then [Transitioned(k.cpu.pid, Running, Blocked), SchedulerInvoked(SyscallBlock)]
    else if Exits(k) then [Transitioned(k.cpu.pid, Running, Terminated), SchedulerInvoked(ProcessExit)]
    else if Expires(k) then [Transitioned(k.cpu.pid, Running, Ready), SchedulerInvoked(KernelEvent.QuantumExpired)]
    else []
  }

  ghost function DispatchNotices(k: System, k': System): seq<Notice> {
    if !GoesOn(k) && k'.cpu.Executing? then [Transitioned(k'.cpu.pid, Ready, Running)] else []
  }

  ghost function EndNotices(k: System, k': System): seq<Notice> {
    if Exits(k) && forall p | p in k'.procs :: k'.procs[p].state == Terminated then [Completed] else []
  }

  lemma {:induction false} WakingTells(k: System, rest: seq<Entry>, completed: seq<Entry>)
    requires Consistent(k, rest + completed)
    ensures WakeAll(k, completed).log == k.log + WokenNotices(completed)
    decreases |completed|
  {
    if completed != [] {
      var n := |completed| - 1;
      var last := completed[n];
      LastAside(rest, completed);
      Reordered(k, rest + completed, (rest + [last]) + completed[..n]);
      WakingTells(k, rest + [last], completed[..n]);
      WakeAllStep(k, rest + [last], completed[..n]);
      WakeTells(WakeAll(k, completed[..n]), rest, last);
      OneMoreNotice(k.log, completed);
    }
  }

  lemma OneMoreNotice(log: seq<Notice>, completed: seq<Entry>)
    requires completed != []
    ensures var n := |completed| - 1;
      log + WokenNotices(completed) ==
      (log + WokenNotices(completed[..n])) + [Transitioned(completed[n].pid, Blocked, Ready)]
  {
  }

  lemma WakeTells(k: System, rest: seq<Entry>, e: Entry)
    requires Consistent(k, rest + [e])
    ensures Wake(k, e.pid).log == k.log + [Transitioned(e.pid, Blocked, Ready)]
  {
    WakeStep(k, rest, e);
    WakeEffect(k, e.pid);
  }

  lemma RousedTells(k: System, now: int, pending: seq<Entry>, completed: seq<Entry>)
    requires Inv(k) && Legal(k, Elapse(now, pending, completed))
    ensures Roused(k, now, pending, completed).log == k.log + WokenNotices(completed)
  {
    var c := k.(now := now, blocked := pending);
    Reordered(k, k.blocked, pending + completed);
    ConsistentFrame(k, c, pending + completed);
    WakingTells(c, pending, completed);
  }

  lemma RetiringTells(w: System)
    requires Consistent(w, w.blocked)
    ensures Retire(w).log == w.log + RetiredNotices(w)
  {
    WhatRetires(w);
    if w.cpu.Executing? {
      ExecuteEffect(w);
      var x := ExecuteTick(w);
      match Retired(w) {
        case Blocked => BlockEffect(x);
        case Terminated => ExitEffect(x);
        case Ready => ExpireEffect(x);
        case _ =>
      }
    }
  }

  lemma SettlingTells(w: System)
    requires Consistent(w, w.blocked)
    ensures Settled(w).log == (w.log + RetiredNotices(w)) + DispatchNotices(w, Settled(w))
  {
    RetiringTells(w);
    RetiringFrees(w);
    SettledEffect(w);
    DispatchTells(w, Retire(w), Settled(w));
  }

  lemma RetiringFrees(w: System)
    requires Consistent(w, w.blocked)
    ensures Retire(w).cpu.Executing? <==> GoesOn(w)
  {
    WhatRetires(w);
    if w.cpu.Executing? {
      RetireStep(w);
    }
  }

  lemma DispatchTells(w: System, v: System, d: System)
    requires v.cpu.Executing? <==> GoesOn(w)
    requires if v.cpu.Idle? && v.ready != [] then
               d.cpu.Executing? && d.log == v.log + [Transitioned(d.cpu.pid, Ready, Running)]
             else d == v
    ensures d.log == v.log + DispatchNotices(w, d)
  {
  }

  lemma TurnTells(w: System)
    requires Consistent(w, w.blocked)
    ensures var d := Settled(w);
      && Turn(w) == d.(log := Turn(w).log)
      && Turn(w).log == ((w.log + RetiredNotices(w)) + DispatchNotices(w, d)) + EndNotices(w, d)
  {
    TurnShape(w);
    SettlingTells(w);
    WhatRetires(w);
    if w.cpu.Executing? {
      ExecuteEffect(w);
    }
  }

  /** The notices of a tick, in their order: the processes woken, then the event of the running process, then the
      dispatch, then the end of the simulation if its last process has just exited, then the end of the tick. There
      are no others. */
  lemma TickNotices(k: System, now: int, pending: seq<Entry>, completed: seq<Entry>)
    requires Inv(k) && Legal(k, Elapse(now, pending, completed))
    ensures var k' := Tick(k, now, pending, completed);
      k'.log == ((((k.log + WokenNotices(completed)) + RetiredNotices(k)) + DispatchNotices(k, k')) + EndNotices(k, k'))
                + [TickDone(now)]
  {
    var w := Roused(k, now, pending, completed);
    RousedCpu(k, now, pending, completed);
    RousedTells(k, now, pending, completed);
    TurnTells(w);
  }

  // ---------- the order of the queue ----------

  /** Under FCFS and Round Robin the queue follows the notices: whoever is woken joins in the order of the notices,
      then the preempted process; a freed CPU takes the first of all of them, for a whole quantum. */
  lemma TickQueue(k: System, now: int, pending: seq<Entry>, completed: seq<Entry>)
    requires Inv(k) && Legal(k, Elapse(now, pending, completed)) && k.policy != Priority
    ensures var k' := Tick(k, now, pending, completed);
      var q := k.ready + Waiting(completed) + if Expires(k) then [k.cpu.pid] else [];
      if GoesOn(k) then k'.ready == q && k'.cpu == k.cpu.(remaining := k.cpu.remaining - 1)
      else if q == [] then k'.ready == [] && k'.cpu.Idle?
      else
        && q[0] in k.meta && k'.ready == q[1..]
        && k'.cpu == Executing(q[0], k.meta[q[0]].profile, if k.policy == FCFS then 2147483647 else k.quantum)
  {
    var w := Roused(k, now, pending, completed);
    RousedCpu(k, now, pending, completed);
    WakingAppends(k.(now := now, blocked := pending), completed);
    SettledQueue(w);
    TickStep(k, now, pending, completed);
    QueueAfter(k, w, Tick(k, now, pending, completed), Waiting(completed));
  }

  lemma QueueAfter(k: System, w: System, k': System, woken: seq<Pid>)
    requires w.ready == k.ready + woken && w.cpu == k.cpu && w.meta == k.meta && Quantum(w) == Quantum(k)
    requires (Expires(w) <==> Expires(k)) && (GoesOn(w) <==> GoesOn(k))
    requires var q := w.ready + if Expires(w) then [w.cpu.pid] else [];
      if GoesOn(w) then k'.ready == q && k'.cpu == w.cpu.(remaining := w.cpu.remaining - 1)
      else if q == [] then k'.ready == [] && k'.cpu.Idle?
      else
        && q[0] in w.meta && k'.ready == q[1..]
        && k'.cpu == Executing(q[0], w.meta[q[0]].profile, Quantum(w))
    ensures var q := k.ready + woken + if Expires(k) then [k.cpu.pid] else [];
      if GoesOn(k) then k'.ready == q && k'.cpu == k.cpu.(remaining := k.cpu.remaining - 1)
      else if q == [] then k'.ready == [] && k'.cpu.Idle?
      else
        && q[0] in k.meta && k'.ready == q[1..]
        && k'.cpu == Executing(q[0], k.meta[q[0]].profile, if k.policy == FCFS then 2147483647 else k.quantum)
  {
  }

  lemma SettledQueue(w: System)
    requires Consistent(w, w.blocked) && w.policy != Priority
    ensures var d := Settled(w);
      var q := w.ready + if Expires(w) then [w.cpu.pid] else [];
      if GoesOn(w) then d.ready == q && d.cpu == w.cpu.(remaining := w.cpu.remaining - 1)
      else if q == [] then d.ready == [] && d.cpu.Idle?
      else
        && q[0] in w.meta && d.ready == q[1..]
        && d.cpu == Executing(q[0], w.meta[q[0]].profile, Quantum(w))
  {
    RetiredQueue(w);
    SettledEffect(w);
    SettledQueueFrom(w, Retire(w), Settled(w));
  }

  lemma SettledQueueFrom(w: System, v: System, d: System)
    requires v.ready == w.ready + (if Expires(w) then [w.cpu.pid] else [])
    requires v.meta == w.meta && v.policy == w.policy && w.policy != Priority && Quantum(v) == Quantum(w)
    requires v.cpu == if GoesOn(w) then w.cpu.(remaining := w.cpu.remaining - 1) else Idle
    requires if v.cpu.Idle? && v.ready != [] then
               && v.ready[0] in v.meta && d.ready == Without(v.ready, 0)
               && d.cpu == Executing(v.ready[0], v.meta[v.ready[0]].profile, Quantum(v))
             else d == v
    ensures var q := w.ready + if Expires(w) then [w.cpu.pid] else [];
      if GoesOn(w) then d.ready == q && d.cpu == w.cpu.(remaining := w.cpu.remaining - 1)
      else if q == [] then d.ready == [] && d.cpu.Idle?
      else
        && q[0] in w.meta && d.ready == q[1..]
        && d.cpu == Executing(q[0], w.meta[q[0]].profile, Quantum(w))
  {
  }

  lemma RetiredQueue(w: System)
    requires Consistent(w, w.blocked) && w.policy != Priority
    ensures var v := Retire(w);
      && v.ready == w.ready + (if Expires(w) then [w.cpu.pid] else [])
      && v.meta == w.meta && v.policy == w.policy && Quantum(v) == Quantum(w)
      && v.cpu == if GoesOn(w) then w.cpu.(remaining := w.cpu.remaining - 1) else Idle
  {
    WhatRetires(w);
    if w.cpu.Executing? {
      RetireStep(w);
      RetiredQueueFrom(w, Retire(w));
    }
  }

  lemma RetiredQueueFrom(w: System, v: System)
    requires Occupied(w) && w.policy != Priority && RetiredAs(w, v, w.cpu.pid, Retired(w))
    requires Retired(w) == if Blocks(w) then Blocked else if Exits(w) then Terminated
                           else if Expires(w) then Ready else Running
    ensures v.ready == w.ready + (if Expires(w) then [w.cpu.pid] else [])
    ensures v.meta == w.meta && v.policy == w.policy && Quantum(v) == Quantum(w)
    ensures v.cpu == if GoesOn(w) then w.cpu.(remaining := w.cpu.remaining - 1) else Idle
  {
  }

  /** Under every policy a process is dispatched with its own profile and a whole quantum: the configured one, or
      2147483647 under FCFS. */
  lemma TickLoads(k: System, now: int, pending: seq<Entry>, completed: seq<Entry>)
    requires Inv(k) && Legal(k, Elapse(now, pending, completed)) && !GoesOn(k)
    ensures var c := Tick(k, now, pending, completed).cpu;
      c.Executing? ==>
        && c.pid in k.meta && c.profile == k.meta[c.pid].profile
        && c.remaining == if k.policy == FCFS then 2147483647 else k.quantum
  {
    var w := Roused(k, now, pending, completed);
    RousedCpu(k, now, pending, completed);
    SettledLoads(w);
    TickStep(k, now, pending, completed);
  }

  lemma SettledLoads(w: System)
    requires Consistent(w, w.blocked) && !GoesOn(w)
    ensures var c := Settled(w).cpu;
      c.Executing? ==> c.pid in w.meta && c.profile == w.meta[c.pid].profile && c.remaining == Quantum(w)
  {
    RetiringFrees(w);
    if w.cpu.Executing? {
      RetireStep(w);
    }
    SettledEffect(w);
  }

  // The dispatch takes one process out and keeps the order of the others.
  lemma SettledOrder(w: System, x: Pid, y: Pid)
    requires Consistent(w, w.blocked) && x in Settled(w).ready && y in Settled(w).ready
    ensures x in Retire(w).ready && y in Retire(w).ready
    ensures Before(Settled(w).ready, x, y) <==> Before(Retire(w).ready, x, y)
  {
    var v := Retire(w);
    if w.cpu.Executing? {
      RetireStep(w);
    }
    SettledEffect(w);
    if v.cpu.Idle? && v.ready != [] {
      WithoutFacts(v.ready, Selected(v));
      BeforeWithoutIff(v.ready, Selected(v), x, y);
    }
  }

  // Of those who were ready when the CPU ran.
  lemma RetiredOrder(w: System, x: Pid, y: Pid)
    requires Consistent(w, w.blocked) && x in w.ready && y in w.ready
    ensures Before(Retire(w).ready, x, y) <==> Before(w.ready, x, y)
  {
    WhatRetires(w);
    if Expires(w) {
      PreemptedBehindIff(w, x, y);
    } else if w.cpu.Executing? {
      RetireStep(w);
    }
  }

  lemma TickKeepsRetired(k: System, now: int, pending: seq<Entry>, completed: seq<Entry>, x: Pid, y: Pid)
    requires Inv(k) && Legal(k, Elapse(now, pending, completed))
    requires x in Tick(k, now, pending, completed).ready && y in Tick(k, now, pending, completed).ready
    ensures var w := Roused(k, now, pending, completed);
      && Consistent(w, w.blocked)
      && (Before(Tick(k, now, pending, completed).ready, x, y) <==> Before(Retire(w).ready, x, y))
  {
    RousedStep(k, now, pending, completed);
    TickStep(k, now, pending, completed);
    SettledOrder(Roused(k, now, pending, completed), x, y);
  }

  lemma TickKeepsRoused(k: System, now: int, pending: seq<Entry>, completed: seq<Entry>, x: Pid, y: Pid)
    requires Inv(k) && Legal(k, Elapse(now, pending, completed))
    requires x in Tick(k, now, pending, completed).ready && y in Tick(k, now, pending, completed).ready
    requires x in Roused(k, now, pending, completed).ready && y in Roused(k, now, pending, completed).ready
    ensures Before(Tick(k, now, pending, completed).ready, x, y) <==>
            Before(Roused(k, now, pending, completed).ready, x, y)
  {
    TickKeepsRetired(k, now, pending, completed, x, y);
    RetiredOrder(Roused(k, now, pending, completed), x, y);
  }

  lemma RousedFrom(k: System, now: int, pending: seq<Entry>, completed: seq<Entry>)
    requires Inv(k) && Legal(k, Elapse(now, pending, completed))
    ensures Consistent(k.(now := now, blocked := pending), pending + completed)
  {
    Reordered(k, k.blocked, pending + completed);
    ConsistentFrame(k, k.(now := now, blocked := pending), pending + completed);
  }

  /** The order in which a tick leaves two processes that were ready before: as it was. */
  lemma TickKeepsOrder(k: System, now: int, pending: seq<Entry>, completed: seq<Entry>, x: Pid, y: Pid)
    requires Inv(k) && Legal(k, Elapse(now, pending, completed)) && x in k.ready && y in k.ready
    requires x in Tick(k, now, pending, completed).ready && y in Tick(k, now, pending, completed).ready
    ensures Before(Tick(k, now, pending, completed).ready, x, y) <==> Before(k.ready, x, y)
  {
    RousedFrom(k, now, pending, completed);
    WakingOrder(k.(now := now, blocked := pending), pending, completed, x, y, 0);
    TickKeepsRoused(k, now, pending, completed, x, y);
  }

  /** A process that was ready before the tick and one woken in it, the j-th. */
  lemma TickWokenBehindIff(k: System, now: int, pending: seq<Entry>, completed: seq<Entry>, x: Pid, j: nat)
    requires Inv(k) && Legal(k, Elapse(now, pending, completed)) && x in k.ready && j < |completed|
    requires x in Tick(k, now, pending, completed).ready && completed[j].pid in Tick(k, now, pending, completed).ready
    ensures var y := completed[j].pid;
      Before(Tick(k, now, pending, completed).ready, x, y) <==> Precedes(k, x, PriorityOf(k.procs, y))
  {
    var c := k.(now := now, blocked := pending);
    var y := completed[j].pid;
    RousedFrom(k, now, pending, completed);
    WokenAreReady(c, pending, completed, x, j);
    WokenBehindIff(c, pending, completed, j, x);
    TickKeepsRoused(k, now, pending, completed, x, y);
    PrecedesAgrees(k, c, x, PriorityOf(k.procs, y));
  }

  lemma WokenAreReady(k: System, rest: seq<Entry>, completed: seq<Entry>, x: Pid, j: nat)
    requires Consistent(k, rest + completed) && j < |completed|
    ensures x in k.ready ==> x in WakeAll(k, completed).ready
    ensures completed[j].pid in WakeAll(k, completed).ready
  {
    AllWoken(k, completed, x, j);
  }

  lemma {:induction false} AllWoken(k: System, completed: seq<Entry>, x: Pid, j: nat)
    ensures x in k.ready ==> x in WakeAll(k, completed).ready
    ensures j < |completed| ==> completed[j].pid in WakeAll(k, completed).ready
    decreases |completed|
  {
    if completed != [] {
      var n := |completed| - 1;
      AllWoken(k, completed[..n], x, j);
      WokenKeepsMember(WakeAll(k, completed[..n]), completed[n].pid, x);
      if j < n {
        WokenKeepsMember(WakeAll(k, completed[..n]), completed[n].pid, completed[j].pid);
      }
    }
  }

  /** Two processes woken in the tick, the i-th and the j-th by their notices. */
  lemma TickWokenInTurn(k: System, now: int, pending: seq<Entry>, completed: seq<Entry>, i: nat, j: nat)
    requires Inv(k) && Legal(k, Elapse(now, pending, completed)) && i < j < |completed|
    requires completed[i].pid in Tick(k, now, pending, completed).ready
    requires completed[j].pid in Tick(k, now, pending, completed).ready
    ensures var x, y := completed[i].pid, completed[j].pid;
      var w := Roused(k, now, pending, completed);
      Before(Tick(k, now, pending, completed).ready, x, y) <==> Precedes(w, x, PriorityOf(k.procs, y))
  {
    var c := k.(now := now, blocked := pending);
    RousedFrom(k, now, pending, completed);
    AllWoken(c, completed, 0, i);
    AllWoken(c, completed, 0, j);
    WokenInTurn(c, pending, completed, i, j);
    WakingKeepsPriorities(c, completed);
    TickKeepsRoused(k, now, pending, completed, completed[i].pid, completed[j].pid);
  }

  /** Whoever is ready when the CPU has run, woken ones included, and the process preempted in the tick. */
  lemma TickPreemptedBehindIff(k: System, now: int, pending: seq<Entry>, completed: seq<Entry>, x: Pid)
    requires Inv(k) && Legal(k, Elapse(now, pending, completed)) && Expires(k)
    requires x in Roused(k, now, pending, completed).ready && x in Tick(k, now, pending, completed).ready
    requires k.cpu.pid in Tick(k, now, pending, completed).ready
    ensures Before(Tick(k, now, pending, completed).ready, x, k.cpu.pid) <==>
            Precedes(Roused(k, now, pending, completed), x, PriorityOf(k.procs, k.cpu.pid))
  {
    var w := Roused(k, now, pending, completed);
    RousedPreempts(k, now, pending, completed);
    TickStep(k, now, pending, completed);
    SettledPreempts(w, x);
  }

  lemma SettledPreempts(w: System, x: Pid)
    requires Consistent(w, w.blocked) && Expires(w) && x in w.ready
    requires x in Settled(w).ready && w.cpu.pid in Settled(w).ready
    ensures Before(Settled(w).ready, x, w.cpu.pid) <==> Precedes(w, x, w.procs[w.cpu.pid].priority)
  {
    RetiredPreempts(w, x);
    SettledOrder(w, x, w.cpu.pid);
  }

  lemma RetiredPreempts(w: System, x: Pid)
    requires Consistent(w, w.blocked) && Expires(w) && x in w.ready
    ensures Before(Retire(w).ready, x, w.cpu.pid) <==> Precedes(w, x, w.procs[w.cpu.pid].priority)
  {
    PreemptedBehindIff(w, x, x);
  }

  lemma RousedPreempts(k: System, now: int, pending: seq<Entry>, completed: seq<Entry>)
    requires Inv(k) && Legal(k, Elapse(now, pending, completed)) && Expires(k)
    ensures var w := Roused(k, now, pending, completed);
      && Consistent(w, w.blocked) && Expires(w) && w.cpu.pid == k.cpu.pid
      && w.procs[k.cpu.pid].priority == PriorityOf(k.procs, k.cpu.pid)
  {
    var w := Roused(k, now, pending, completed);
    RousedCpu(k, now, pending, completed);
    WakingKeepsPriorities(k.(now := now, blocked := pending), completed);
    assert PriorityOf(w.procs, k.cpu.pid) == PriorityOf(k.procs, k.cpu.pid);
  }

  // ---------- served in the order of the notices ----------

  /** First come, first served among those woken in the same tick: the one whose notice comes second does not get the
      CPU before the other; under Priority, if nobody of lower priority than the second stands before the first, or is
      the first, when all are woken and after each later change of priority. */
  lemma FirstWokenFirstServed(k: System, now: int, pending: seq<Entry>, completed: seq<Entry>, i: nat, j: nat,
                              inputs: seq<Input>)
    requires Inv(k) && Legal(k, Elapse(now, pending, completed)) && i < j < |completed|
    requires LegalRun(Tick(k, now, pending, completed), inputs)
    requires Precedes(Roused(k, now, pending, completed), completed[i].pid, PriorityOf(k.procs, completed[j].pid))
    requires k.policy == Priority ==>
      StaysFair(Tick(k, now, pending, completed), inputs, completed[i].pid, completed[j].pid)
    ensures !Overtakes(Tick(k, now, pending, completed), inputs, completed[j].pid, completed[i].pid)
  {
    var a, b := completed[i].pid, completed[j].pid;
    WokenAheadOf(k, now, pending, completed, i, j);
    var w, k' := Roused(k, now, pending, completed), Tick(k, now, pending, completed);
    SettledAhead(w, a, b);
    TickStep(k, now, pending, completed);
    CpuIsOnCpu(k', a);
    CpuIsOnCpu(k', b);
    SameAhead(Settled(w), k', a, b);
    if !OnCpu(k', a) {
      FirstReadyFirstServed(k', inputs, a, b);
    }
  }

  lemma WokenAheadOf(k: System, now: int, pending: seq<Entry>, completed: seq<Entry>, i: nat, j: nat)
    requires Inv(k) && Legal(k, Elapse(now, pending, completed)) && i < j < |completed|
    requires Precedes(Roused(k, now, pending, completed), completed[i].pid, PriorityOf(k.procs, completed[j].pid))
    ensures var w := Roused(k, now, pending, completed);
      var a, b := completed[i].pid, completed[j].pid;
      && Consistent(w, w.blocked) && Ahead(w, a, b) && a != b && (w.cpu.Executing? ==> w.cpu.pid != b)
  {
    var c := k.(now := now, blocked := pending);
    var w := Roused(k, now, pending, completed);
    var a, b := completed[i].pid, completed[j].pid;
    RousedStep(k, now, pending, completed);
    RousedFrom(k, now, pending, completed);
    WokenInTurn(c, pending, completed, i, j);
    AllWoken(c, completed, 0, j);
    WakingKeepsPriorities(c, completed);
    assert PriorityOf(w.procs, b) == PriorityOf(k.procs, b);
    DifferentPids(pending, completed, i, j);
    InTurnIsAhead(w, a, b);
  }

  lemma DifferentPids(pending: seq<Entry>, completed: seq<Entry>, i: nat, j: nat)
    requires UniqueEntries(pending + completed) && i < j < |completed|
    ensures completed[i].pid != completed[j].pid
  {
    var all := pending + completed;
    assert all[|pending| + i] == completed[i] && all[|pending| + j] == completed[j];
  }

  lemma InTurnIsAhead(w: System, a: Pid, b: Pid)
    requires Queued(w, w.blocked) && CpuLoaded(w) && b in w.ready && StandsInTurn(w, a, b)
    requires Precedes(w, a, PriorityOf(w.procs, b))
    ensures Ahead(w, a, b) && (w.cpu.Executing? ==> w.cpu.pid != b)
  {
    if w.policy == Priority {
      ShelteredIn(w.ready, w.procs, a, PriorityOf(w.procs, b));
    }
    assert w.procs[b].state == Ready;
  }
}
