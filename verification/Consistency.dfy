/** What every reachable state of the kernel satisfies: where each process is, how far it has got,
    and that its recorded history ends in its state. */
module Consistency {
  import opened Types
  import opened Programs
  import opened Logs
  import opened Machine

  ghost predicate Unique(q: seq<Pid>) {
    forall i, j | 0 <= i < j < |q| :: q[i] != q[j]
  }

  ghost predicate UniqueEntries(entries: seq<Entry>) {
    forall i, j | 0 <= i < j < |entries| :: entries[i].pid != entries[j].pid
  }

  ghost predicate Waits(entries: seq<Entry>, p: Pid) {
    exists w: int :: Entry(p, w) in entries
  }

  // Process p is where its state says. During a tick, `entries` also holds the blocked entries
  // that were taken out of the queue but whose processes were not woken yet.
  ghost predicate Placed(k: System, entries: seq<Entry>, p: Pid)
    requires p in k.procs
  {
    match k.procs[p].state
    case New => false
    case Ready => p in k.ready
    case Running => k.cpu.Executing? && k.cpu.pid == p
    case Blocked => Waits(entries, p)
    case Terminated => true
  }

  // A live process has not reached its exit point, a terminated one is exactly there, and the
  // program counter survived every context switch.
  ghost predicate Progressed(k: System, p: Pid)
    requires p in k.procs && p in k.meta
  {
    var b := k.procs[p];
    && b.counter == b.used >= 0
    && b.estimate == k.meta[p].estimate
    && (if b.state == Terminated then b.used == Finish(k.meta[p]) else b.used < Finish(k.meta[p]))
  }

  ghost predicate Recorded(k: System, p: Pid)
    requires p in k.procs
  {
    var h := History(k.log, p);
    h != [] && h[|h| - 1].state == k.procs[p].state
  }

  ghost predicate CpuLoaded(k: System) {
    k.cpu.Executing? ==>
      && k.cpu.pid in k.procs && k.cpu.pid in k.meta
      && k.procs[k.cpu.pid].state == Running
      && k.cpu.profile == k.meta[k.cpu.pid].profile
      && (k.cpu.remaining == Quantum(k) || 1 <= k.cpu.remaining <= Quantum(k))
  }

  ghost predicate Queued(k: System, entries: seq<Entry>) {
    && Unique(k.ready) && UniqueEntries(entries)
    && (forall p | p in k.ready :: p in k.procs && k.procs[p].state == Ready)
    && (forall e | e in entries :: e.pid in k.procs && k.procs[e.pid].state == Blocked)
  }

  ghost predicate Registered(k: System) {
    && k.next >= 1
    && (forall p :: p in k.procs <==> 1 <= p < k.next)
    && (forall p :: p in k.meta <==> 1 <= p < k.next)
  }

  // Where everything is.
  ghost predicate Located(k: System, entries: seq<Entry>) {
    && Registered(k)
    && CpuLoaded(k)
    && Queued(k, entries)
    && (forall p | p in k.procs :: Placed(k, entries, p))
    && (forall p | p in k.procs :: Progressed(k, p))
  }

  // The notices a kernel really sends: never a context switch, never a change back to NEW.
  predicate Ordinary(e: Notice) {
    !e.SwitchedContext? && (e.Transitioned? ==> e.to != New)
  }

  // What has been told about it.
  ghost predicate Told(k: System) {
    && (forall e | e in k.log :: Ordinary(e))
    && (forall p | p !in k.procs :: History(k.log, p) == [])
    && (forall p | p in k.procs :: Recorded(k, p))
  }

  ghost predicate Consistent(k: System, entries: seq<Entry>) {
    !k.thrown && Located(k, entries) && Told(k)
  }

  /** The invariant between two calls into the kernel. */
  ghost predicate Inv(k: System) {
    && Consistent(k, k.blocked)
    && Clock(k.log) == k.now >= 0
  }

  // ---------- sequences ----------

  lemma InsertFacts(q: seq<Pid>, i: nat, p: Pid)
    requires i <= |q|
    ensures forall x :: x in Insert(q, i, p) <==> x in q || x == p
    ensures Unique(q) && p !in q ==> Unique(Insert(q, i, p))
  {
    var r := Insert(q, i, p);
    assert forall j :: 0 <= j < |r| ==> r[j] == if j < i then q[j] else if j == i then p else q[j - 1];
    forall x | x in q
      ensures x in r
    {
      var j :| 0 <= j < |q| && q[j] == x;
      assert r[if j < i then j else j + 1] == x;
    }
    assert r[i] == p;
  }

  lemma WithoutFacts(q: seq<Pid>, i: nat)
    requires i < |q| && Unique(q)
    ensures forall x :: x in Without(q, i) <==> x in q && x != q[i]
    ensures Unique(Without(q, i))
  {
    var r := Without(q, i);
    assert forall j :: 0 <= j < |r| ==> r[j] == if j < i then q[j] else q[j + 1];
    forall x | x in q && x != q[i]
      ensures x in r
    {
      var j :| 0 <= j < |q| && q[j] == x;
      assert r[if j < i then j else j - 1] == x;
    }
  }

  lemma EnqueueFacts(k: System, p: Pid)
    ensures var k' := Enqueue(k, p);
      && k' == k.(ready := k'.ready)
      && (forall x :: x in k'.ready <==> x in k.ready || x == p)
      && (Unique(k.ready) && p !in k.ready ==> Unique(k'.ready))
  {
    if k.policy == Priority {
      InsertFacts(k.ready, InsertionPoint(k.ready, k.procs, PriorityOf(k.procs, p)), p);
    } else {
      InsertFacts(k.ready, |k.ready|, p);
      assert Insert(k.ready, |k.ready|, p) == k.ready + [p];
    }
  }

  // ---------- single steps ----------

  // A legal transition changes one state and records it.
  lemma MoveFacts(k: System, p: Pid, t: StateTransition)
    requires p in k.procs && IsValidTransition(k.procs[p].state, t)
    ensures var k' := Move(k, p, t);
      && k' == k.(procs := k.procs[p := k.procs[p].(state := TargetState(t))], log := k'.log)
      && Clock(k'.log) == Clock(k.log)
      && k'.log == k.log + [Transitioned(p, k.procs[p].state, TargetState(t))]
      && (forall q :: History(k'.log, q) ==
                      History(k.log, q) + if q == p then [Stamp(Clock(k.log), TargetState(t))] else [])
  {
    LogGrows(k.log, Transitioned(p, k.procs[p].state, TargetState(t)));
  }

  lemma LocatedFrame(k: System, k': System, entries: seq<Entry>)
    requires Located(k, entries)
    requires k' == k.(blocked := k'.blocked, now := k'.now, log := k'.log)
    ensures Located(k', entries)
  {
    forall p | p in k'.procs
      ensures Placed(k', entries, p) && Progressed(k', p)
    {
      assert Placed(k, entries, p) && Progressed(k, p);
    }
  }

  lemma ToldFrame(k: System, k': System)
    requires Told(k)
    requires k'.procs == k.procs
    requires forall e | e in k'.log :: Ordinary(e)
    requires forall p :: History(k'.log, p) == History(k.log, p)
    ensures Told(k')
  {
    forall p | p in k'.procs
      ensures Recorded(k', p)
    {
      assert Recorded(k, p);
    }
  }

  lemma NotifyKeeps(k: System, entries: seq<Entry>, e: Notice)
    requires Consistent(k, entries) && !e.Created? && !e.Transitioned? && !e.SwitchedContext?
    ensures Consistent(Notify(k, e), entries)
    ensures !e.TickDone? ==> Clock(Notify(k, e).log) == Clock(k.log)
    ensures forall p :: History(Notify(k, e).log, p) == History(k.log, p)
  {
    LogGrows(k.log, e);
    LocatedFrame(k, Notify(k, e), entries);
    ToldFrame(k, Notify(k, e));
  }

  // What one step does to the recorded histories: process p enters a state, nobody else is affected.
  ghost predicate Entered(k: System, k': System, p: Pid, s: ProcessState) {
    && Clock(k'.log) == Clock(k.log)
    && (forall q :: History(k'.log, q) == History(k.log, q) + if q == p then [Stamp(Clock(k.log), s)] else [])
  }

  lemma WakeEffect(k: System, p: Pid)
    requires p in k.procs && k.procs[p].state == Blocked
    ensures var k' := Wake(k, p);
      && k' == k.(procs := k.procs[p := k.procs[p].(state := Ready)], ready := k'.ready, log := k'.log)
      && Entered(k, k', p, Ready)
      && k'.log == k.log + [Transitioned(p, Blocked, Ready)]
      && k'.ready == Enqueue(k, p).ready
      && (forall x :: x in k'.ready <==> x in k.ready || x == p)
      && (Unique(k.ready) && p !in k.ready ==> Unique(k'.ready))
  {
    var m := Move(k, p, IoComplete);
    MoveFacts(k, p, IoComplete);
    EnqueueFacts(m, p);
    SamePriorities(k.ready, k.procs, m.procs, PriorityOf(k.procs, p));
  }

  // The entries after process p has left or joined the blocked queue.
  ghost predicate EntriesMoved(entries: seq<Entry>, entries': seq<Entry>, p: Pid, blocked: bool) {
    && UniqueEntries(entries')
    && (forall e | e in entries' :: e.pid == p || e in entries)
    && (forall e | e in entries && e.pid != p :: e in entries')
    && (Waits(entries', p) <==> blocked)
  }

  ghost predicate ReadyMoved(q: seq<Pid>, q': seq<Pid>, p: Pid, ready: bool) {
    && Unique(q')
    && (forall x | x != p :: x in q <==> x in q')
    && (p in q' <==> ready)
  }

  ghost predicate CpuMoved(k: System, k': System, p: Pid, running: bool) {
    if running then k'.cpu.Executing? && k'.cpu.pid == p && (k.cpu.Executing? ==> k.cpu.pid == p)
    else if k.cpu.Executing? && k.cpu.pid != p then k'.cpu == k.cpu
    else k'.cpu.Idle?
  }

  lemma PlacesKept(k: System, entries: seq<Entry>, k': System, entries': seq<Entry>, p: Pid)
    requires Located(k, entries)
    requires p in k.procs && p in k'.procs
    requires k' == k.(procs := k.procs[p := k'.procs[p]], ready := k'.ready, blocked := k'.blocked,
                      cpu := k'.cpu, log := k'.log, now := k'.now)
    requires Progressed(k', p) && CpuLoaded(k') && k'.procs[p].state != New
    requires ReadyMoved(k.ready, k'.ready, p, k'.procs[p].state == Ready)
    requires EntriesMoved(entries, entries', p, k'.procs[p].state == Blocked)
    requires CpuMoved(k, k', p, k'.procs[p].state == Running)
    ensures Located(k', entries')
  {
    forall e | e in entries'
      ensures e.pid in k'.procs && k'.procs[e.pid].state == Blocked
    {
      if e.pid == p {
        assert Entry(e.pid, e.wakeup) in entries';
      }
    }
    forall q | q in k'.procs
      ensures Placed(k', entries', q) && Progressed(k', q)
    {
      assert Placed(k, entries, q) && Progressed(k, q);
      if q != p && k.procs[q].state == Blocked {
        var w: int :| Entry(q, w) in entries;
        assert Entry(q, w) in entries';
      }
    }
  }

  lemma RecordKept(k: System, k': System, q: Pid, h: seq<Stamp>)
    requires q in k.procs && q in k'.procs && Recorded(k, q)
    requires History(k'.log, q) == History(k.log, q) + h
    requires if h == [] then k'.procs[q].state == k.procs[q].state else h[|h| - 1].state == k'.procs[q].state
    ensures Recorded(k', q)
  {
  }

  lemma RecordsKept(k: System, k': System, p: Pid, h: seq<Stamp>)
    requires Told(k)
    requires p in k.procs && p in k'.procs
    requires k'.procs == k.procs[p := k'.procs[p]]
    requires forall e | e in k'.log :: Ordinary(e)
    requires forall q :: History(k'.log, q) == History(k.log, q) + if q == p then h else []
    requires if h == [] then k'.procs[p].state == k.procs[p].state else h[|h| - 1].state == k'.procs[p].state
    ensures Told(k')
  {
    forall q | q in k'.procs
      ensures Recorded(k', q)
    {
      assert Recorded(k, q);
      RecordKept(k, k', q, if q == p then h else []);
    }
  }

  /** One process changes, everything else stays as it is: the shape of every step of a tick. */
  lemma OneProcessMoves(k: System, entries: seq<Entry>, k': System, entries': seq<Entry>, p: Pid, h: seq<Stamp>)
    requires Consistent(k, entries)
    requires p in k.procs && p in k'.procs
    requires k' == k.(procs := k.procs[p := k'.procs[p]], ready := k'.ready, blocked := k'.blocked,
                      cpu := k'.cpu, log := k'.log, now := k'.now)
    requires forall e | e in k'.log :: Ordinary(e)
    requires forall q :: History(k'.log, q) == History(k.log, q) + if q == p then h else []
    requires if h == [] then k'.procs[p].state == k.procs[p].state else h[|h| - 1].state == k'.procs[p].state
    requires Progressed(k', p) && CpuLoaded(k') && k'.procs[p].state != New
    requires ReadyMoved(k.ready, k'.ready, p, k'.procs[p].state == Ready)
    requires EntriesMoved(entries, entries', p, k'.procs[p].state == Blocked)
    requires CpuMoved(k, k', p, k'.procs[p].state == Running)
    ensures Consistent(k', entries')
  {
    PlacesKept(k, entries, k', entries', p);
    RecordsKept(k, k', p, h);
  }

  lemma WakeStep(k: System, rest: seq<Entry>, e: Entry)
    requires Consistent(k, rest + [e])
    ensures e.pid in k.procs && k.procs[e.pid].state == Blocked
    ensures Consistent(Wake(k, e.pid), rest)
  {
    var entries := rest + [e];
    assert entries[|rest|] == e;
    assert e in entries;
    WakeEffect(k, e.pid);
    LastEntryLeaves(rest, e);
    WokenMoves(k, entries, Wake(k, e.pid), rest, e.pid);
  }

  lemma WokenMoves(k: System, entries: seq<Entry>, k': System, rest: seq<Entry>, p: Pid)
    requires Consistent(k, entries) && EntriesMoved(entries, rest, p, false)
    requires p in k.procs && k.procs[p].state == Blocked
    requires k' == k.(procs := k.procs[p := k.procs[p].(state := Ready)], ready := k'.ready, log := k'.log)
    requires Entered(k, k', p, Ready) && k'.log == k.log + [Transitioned(p, Blocked, Ready)]
    requires forall x :: x in k'.ready <==> x in k.ready || x == p
    requires Unique(k.ready) && p !in k.ready ==> Unique(k'.ready)
    ensures Consistent(k', rest)
  {
    OneProcessMoves(k, entries, k', rest, p, [Stamp(Clock(k.log), Ready)]);
  }

  lemma LastEntryLeaves(rest: seq<Entry>, e: Entry)
    requires UniqueEntries(rest + [e])
    ensures EntriesMoved(rest + [e], rest, e.pid, false)
  {
    var entries := rest + [e];
    assert entries[|rest|] == e && forall j | 0 <= j < |rest| :: entries[j] == rest[j];
  }

  lemma {:induction false} SamePriorities(q: seq<Pid>, procs: map<Pid, Pcb>, procs': map<Pid, Pcb>, priority: int)
    requires forall p :: PriorityOf(procs, p) == PriorityOf(procs', p)
    ensures InsertionPoint(q, procs, priority) == InsertionPoint(q, procs', priority)
    ensures q != [] ==> FirstMax(q, procs) == FirstMax(q, procs')
  {
  }

  // Dispatching from an idle CPU: the selected process becomes the running one.
  lemma DispatchEffect(k: System)
    requires k.cpu.Idle? && k.ready != []
    requires var p := k.ready[Selected(k)]; p in k.procs && p in k.meta && k.procs[p].state == Ready
    ensures var p := k.ready[Selected(k)];
      var k' := DispatchNext(k);
      && k' == k.(procs := k.procs[p := k.procs[p].(state := Running)],
                  ready := Without(k.ready, Selected(k)),
                  cpu := Executing(p, k.meta[p].profile, Quantum(k)),
                  log := k.log + [Transitioned(p, Ready, Running)])
      && Entered(k, k', p, Running)
  {
    MoveFacts(k.(ready := Without(k.ready, Selected(k))), k.ready[Selected(k)], Dispatch);
  }

  lemma DispatchStep(k: System)
    requires Consistent(k, k.blocked) && k.cpu.Idle? && k.ready != []
    ensures var p := k.ready[Selected(k)]; p in k.procs && p in k.meta && k.procs[p].state == Ready
    ensures Consistent(DispatchNext(k), k.blocked)
  {
    var p := k.ready[Selected(k)];
    assert p in k.ready;
    DispatchEffect(k);
    WithoutFacts(k.ready, Selected(k));
    var k' := DispatchNext(k);
    assert EntriesMoved(k.blocked, k.blocked, p, false);
    OneProcessMoves(k, k.blocked, k', k.blocked, p, [Stamp(Clock(k.log), Running)]);
  }
}
