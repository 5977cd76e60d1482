/** Every tick of the kernel is, for each process, one step of its own life. */
module Projection {
  import opened Types
  import opened Logs
  import opened Machine
  import opened Consistency
  import opened Turns
  import opened Lives

  // The ticks a dispatched process can run before it is preempted: the CPU checks for expiry only
  // after a tick, so a quantum below 1 acts as 1.
  function Slice(k: System): int {
    Max(1, Quantum(k))
  }

  function LeftOf(k: System, p: Pid): int {
    if k.cpu.Executing? && k.cpu.pid == p then Max(1, k.cpu.remaining) else 0
  }

  ghost function WakeOf(entries: seq<Entry>, p: Pid): int {
    if Waits(entries, p) then var w: int :| Entry(p, w) in entries; w else 0
  }

  ghost function LifeIn(k: System, entries: seq<Entry>, p: Pid): Life
    requires p in k.procs
  {
    Life(History(k.log, p), k.procs[p].used, LeftOf(k, p), WakeOf(entries, p))
  }

  ghost function LifeOf(k: System, p: Pid): Life
    requires p in k.procs
  {
    LifeIn(k, k.blocked, p)
  }

  lemma WakeOfEntry(entries: seq<Entry>, e: Entry)
    requires UniqueEntries(entries) && e in entries
    ensures Waits(entries, e.pid) && WakeOf(entries, e.pid) == e.wakeup
  {
    assert Entry(e.pid, e.wakeup) in entries;
  }

  // The same entries for p give the same wake-up tick.
  lemma WakeOfAgrees(a: seq<Entry>, b: seq<Entry>, p: Pid)
    requires UniqueEntries(a) && UniqueEntries(b)
    requires forall e: Entry | e.pid == p :: e in a <==> e in b
    ensures WakeOf(a, p) == WakeOf(b, p)
    ensures Waits(a, p) <==> Waits(b, p)
  {
    if Waits(a, p) {
      var w: int :| Entry(p, w) in a;
      WakeOfEntry(a, Entry(p, w));
      WakeOfEntry(b, Entry(p, w));
    } else {
      forall w: int
        ensures Entry(p, w) !in b
      {
        assert Entry(p, w) !in a;
      }
    }
  }

  lemma WakeLife(k: System, rest: seq<Entry>, e: Entry, p: Pid)
    requires Consistent(k, rest + [e]) && p in k.procs
    ensures p in Wake(k, e.pid).procs
    ensures LifeIn(Wake(k, e.pid), rest, p) ==
            if p == e.pid then Woken(LifeIn(k, rest + [e], p), Clock(k.log)) else LifeIn(k, rest + [e], p)
  {
    var entries := rest + [e];
    assert entries[|rest|] == e && forall j | 0 <= j < |rest| :: entries[j] == rest[j];
    assert e in entries;
    WakeEffect(k, e.pid);
    if p != e.pid {
      WakeOfAgrees(entries, rest, p);
    }
  }

  lemma {:induction false} WakeAllLife(k: System, rest: seq<Entry>, completed: seq<Entry>, p: Pid)
    requires Consistent(k, rest + completed) && p in k.procs
    ensures p in WakeAll(k, completed).procs
    ensures LifeIn(WakeAll(k, completed), rest, p) ==
            if Waits(completed, p) then Woken(LifeIn(k, rest + completed, p), Clock(k.log))
            else LifeIn(k, rest + completed, p)
    decreases |completed|
  {
    if completed == [] {
      assert rest + completed == rest;
      assert !Waits(completed, p);
    } else {
      var n := |completed| - 1;
      var last := completed[n];
      var all := (rest + [last]) + completed[..n];
      assert rest + completed == rest + (completed[..n] + [last]);
      Reordered(k, rest + completed, all);
      assert forall e :: e in rest + completed <==> e in all;
      WakeOfAgrees(rest + completed, all, p);
      WakeAllLife(k, rest + [last], completed[..n], p);
      WakeAllStep(k, rest + [last], completed[..n]);
      WakeAllFrame(k, completed[..n]);
      WakeLife(WakeAll(k, completed[..n]), rest, last, p);
      LastWaits(rest, completed, p);
    }
  }

  lemma LastWaits(rest: seq<Entry>, completed: seq<Entry>, p: Pid)
    requires completed != [] && UniqueEntries(rest + completed)
    ensures var last := completed[|completed| - 1];
      var before := completed[..|completed| - 1];
      && (Waits(completed, p) <==> Waits(before, p) || last.pid == p)
      && (last.pid == p ==> !Waits(before, p))
  {
    var n := |completed| - 1;
    var last := completed[n];
    assert Entry(last.pid, last.wakeup) in completed;
    forall w: int | Entry(p, w) in completed[..n]
      ensures last.pid != p
    {
      var i :| 0 <= i < n && completed[i] == Entry(p, w);
      assert (rest + completed)[|rest| + i] == completed[i] && (rest + completed)[|rest| + n] == last;
    }
    if Waits(completed, p) && last.pid != p {
      var w: int :| Entry(p, w) in completed;
      assert Entry(p, w) in completed[..n];
    }
    if Waits(completed[..n], p) {
      var w: int :| Entry(p, w) in completed[..n];
      assert Entry(p, w) in completed;
    }
  }

  // The life of the running process follows its program and its remaining quantum.
  lemma RetireLife(k: System, p: Pid)
    requires Consistent(k, k.blocked) && k.cpu.Executing? && p in k.procs && p in k.meta
    ensures p in Retire(k).procs
    ensures LifeOf(Retire(k), p) ==
            if p == k.cpu.pid then Ran(k.meta[p], LifeOf(k, p), Clock(k.log), k.now) else LifeOf(k, p)
  {
    RetireStep(k);
    RetiredLife(k, Retire(k), p);
  }

  lemma RetiredLife(k: System, k': System, p: Pid)
    requires Located(k, k.blocked) && k.cpu.Executing? && k.cpu.pid in k.procs && k.cpu.pid in k.meta
    requires RetiredAs(k, k', k.cpu.pid, Retired(k))
    requires UniqueEntries(k'.blocked)
    requires p in k.procs && p in k.meta
    ensures p in k'.procs
    ensures LifeOf(k', p) ==
            if p == k.cpu.pid then Ran(k.meta[p], LifeOf(k, p), Clock(k.log), k.now) else LifeOf(k, p)
  {
    assert Progressed(k, p) && !Waits(k.blocked, k.cpu.pid);
    if p != k.cpu.pid {
      RetiredOther(k, k', p);
    } else {
      RetiredSelf(k, k', p);
    }
  }

  lemma RetiredOther(k: System, k': System, p: Pid)
    requires k.cpu.Executing? && k.cpu.pid in k.procs && k.cpu.pid in k.meta
    requires RetiredAs(k, k', k.cpu.pid, Retired(k))
    requires UniqueEntries(k.blocked) && UniqueEntries(k'.blocked)
    requires p in k.procs && p != k.cpu.pid
    ensures p in k'.procs && LifeOf(k', p) == LifeOf(k, p)
  {
    WakeOfAgrees(k.blocked, k'.blocked, p);
  }

  lemma RetiredSelf(k: System, k': System, p: Pid)
    requires k.cpu.Executing? && p == k.cpu.pid && p in k.procs && p in k.meta
    requires Progressed(k, p) && !Waits(k.blocked, p) && CpuLoaded(k)
    requires RetiredAs(k, k', p, Retired(k))
    requires UniqueEntries(k'.blocked)
    ensures p in k'.procs && LifeOf(k', p) == Ran(k.meta[p], LifeOf(k, p), Clock(k.log), k.now)
  {
    RetiredWake(k, k', p);
    RetiredLeft(k, k', p);
    RanInState(k.meta[p], LifeOf(k, p), Clock(k.log), k.now, k.cpu.remaining);
  }

  // One CPU tick of a life, by the state it leads to.
  lemma RanInState(g: Program, v: Life, clock: int, now: int, remaining: int)
    requires v.left <= 1 <==> remaining <= 1
    ensures var s := NextState(g, v.used + 1, remaining - 1);
      Ran(g, v, clock, now) ==
      Life(v.hist + if s == Running then [] else [Stamp(clock, s)],
           v.used + 1,
           if s == Running then v.left - 1 else 0,
           if s == Blocked then now + g.profile[v.used + 1].duration else v.wake)
  {
  }

  lemma RetiredWake(k: System, k': System, p: Pid)
    requires k.cpu.Executing? && p == k.cpu.pid && p in k.procs && p in k.meta && !Waits(k.blocked, p)
    requires RetiredAs(k, k', p, Retired(k)) && UniqueEntries(k'.blocked)
    ensures WakeOf(k.blocked, p) == 0
    ensures WakeOf(k'.blocked, p) ==
            if Retired(k) == Blocked then k.now + k.meta[p].profile[k.procs[p].used + 1].duration else 0
  {
    if Retired(k) == Blocked {
      WakeOfEntry(k'.blocked, k'.blocked[|k.blocked|]);
    }
  }

  lemma RetiredLeft(k: System, k': System, p: Pid)
    requires k.cpu.Executing? && p == k.cpu.pid && p in k.procs && p in k.meta && CpuLoaded(k)
    requires k'.cpu == if Retired(k) == Running then k.cpu.(remaining := k.cpu.remaining - 1) else Idle
    ensures LeftOf(k', p) == if Retired(k) == Running then LeftOf(k, p) - 1 else 0
    ensures Retired(k) == Running ==> LeftOf(k, p) > 1
    ensures Retired(k) == Ready ==> LeftOf(k, p) <= 1
  {
  }

  lemma DispatchLife(k: System, p: Pid)
    requires Consistent(k, k.blocked) && k.cpu.Idle? && k.ready != [] && p in k.procs
    ensures p in DispatchNext(k).procs
    ensures LifeOf(DispatchNext(k), p) ==
            if p == k.ready[Selected(k)] then Chosen(LifeOf(k, p), Clock(k.log), Slice(k)) else LifeOf(k, p)
    ensures p == k.ready[Selected(k)] ==> StateOf(LifeOf(k, p)) == Ready
  {
    SelectedIsReady(k);
    SelectedLife(k, p);
  }

  lemma SelectedIsReady(k: System)
    requires Consistent(k, k.blocked) && k.ready != []
    ensures var p := k.ready[Selected(k)];
      p in k.procs && p in k.meta && k.procs[p].state == Ready && Recorded(k, p)
  {
    var p := k.ready[Selected(k)];
    assert p in k.ready;
  }

  lemma SelectedLife(k: System, p: Pid)
    requires k.cpu.Idle? && k.ready != [] && p in k.procs
    requires var chosen := k.ready[Selected(k)];
      chosen in k.procs && chosen in k.meta && k.procs[chosen].state == Ready && Recorded(k, chosen)
    ensures p in DispatchNext(k).procs
    ensures LifeOf(DispatchNext(k), p) ==
            if p == k.ready[Selected(k)] then Chosen(LifeOf(k, p), Clock(k.log), Slice(k)) else LifeOf(k, p)
    ensures p == k.ready[Selected(k)] ==> StateOf(LifeOf(k, p)) == Ready
  {
    DispatchEffect(k);
    DispatchedLife(k, DispatchNext(k), k.ready[Selected(k)], p);
  }

  lemma DispatchedLife(k: System, k': System, chosen: Pid, p: Pid)
    requires k.cpu.Idle? && chosen in k.procs && chosen in k.meta && p in k.procs
    requires k' == k.(procs := k.procs[chosen := k.procs[chosen].(state := Running)], ready := k'.ready,
                      cpu := Executing(chosen, k.meta[chosen].profile, Quantum(k)), log := k'.log)
    requires Entered(k, k', chosen, Running)
    ensures p in k'.procs
    ensures LifeOf(k', p) == if p == chosen then Chosen(LifeOf(k, p), Clock(k.log), Slice(k)) else LifeOf(k, p)
  {
  }

  // ---------- a whole tick ----------

  // The kernel after waking, before the CPU runs.
  function Roused(k: System, now: int, pending: seq<Entry>, completed: seq<Entry>): System {
    WakeAll(k.(now := now, blocked := pending), completed)
  }

  lemma RousedStep(k: System, now: int, pending: seq<Entry>, completed: seq<Entry>)
    requires Inv(k) && Legal(k, Elapse(now, pending, completed))
    ensures var w := Roused(k, now, pending, completed);
      && Consistent(w, w.blocked)
      && w == k.(now := now, procs := w.procs, ready := w.ready, blocked := pending, log := w.log)
      && Clock(w.log) == k.now
  {
    var c := k.(now := now, blocked := pending);
    Reordered(k, k.blocked, pending + completed);
    LocatedFrame(k, c, pending + completed);
    WakeAllStep(c, pending, completed);
    WakeAllFrame(c, completed);
  }

  // Partitioning neither loses nor duplicates an entry, and completes exactly those that are due.
  lemma PartitionSplits(entries: seq<Entry>, now: int, pending: seq<Entry>, completed: seq<Entry>, p: Pid)
    requires UniqueEntries(entries) && IsPartition(entries, now, pending, completed)
    ensures UniqueEntries(pending + completed)
    ensures WakeOf(pending + completed, p) == WakeOf(entries, p)
    ensures Waits(completed, p) <==> Waits(entries, p) && WakeOf(entries, p) <= now
  {
    var all := pending + completed;
    UniqueReordered(entries, all);
    assert forall e: Entry :: e in entries <==> e in multiset(entries);
    assert forall e: Entry :: e in all <==> e in multiset(all);
    WakeOfAgrees(entries, all, p);
    if Waits(all, p) {
      var w: int :| Entry(p, w) in all;
      WakeOfEntry(all, Entry(p, w));
      if Waits(completed, p) {
        var c: int :| Entry(p, c) in completed;
        WakeOfEntry(all, Entry(p, c));
      } else {
        assert Entry(p, w) in pending;
      }
    }
    assert forall c: int | Entry(p, c) in completed :: Entry(p, c) in all;
  }

  lemma RousedLife(k: System, now: int, pending: seq<Entry>, completed: seq<Entry>, p: Pid)
    requires Inv(k) && Legal(k, Elapse(now, pending, completed)) && p in k.procs
    ensures var w := Roused(k, now, pending, completed);
      && p in w.procs
      && LifeOf(w, p) == if k.procs[p].state == Blocked && LifeOf(k, p).wake <= now then Woken(LifeOf(k, p), k.now)
                         else LifeOf(k, p)
  {
    var c := k.(now := now, blocked := pending);
    var all := pending + completed;
    Reordered(k, k.blocked, all);
    LocatedFrame(k, c, all);
    WakeAllLife(c, pending, completed, p);
    WakeAllFrame(c, completed);
    PartitionSplits(k.blocked, now, pending, completed, p);
    assert Placed(k, k.blocked, p);
  }

  // The CPU part of a tick: retire, then dispatch if the CPU is free.
  function Settled(k: System): System {
    var v := Retire(k);
    if v.cpu.Idle? then DispatchNext(v) else v
  }

  // The simulation is announced complete when an exit leaves nobody active.
  predicate Finishes(k: System) {
    k.cpu.Executing? && RaisedEvent(ExecuteTick(k)) == Some(ProcessExit) && !HasActive(Settled(k))
  }

  lemma TurnShape(k: System)
    requires Consistent(k, k.blocked)
    ensures Turn(k) == if Finishes(k) then Notify(Settled(k), Completed) else Settled(k)
  {
    if k.cpu.Executing? {
      assert Progressed(k, k.cpu.pid);
      ExecuteEffect(k);
      RetireStep(k);
    }
  }

  // What the dispatch at the end of a turn does.
  lemma SettledEffect(k: System)
    requires Consistent(k, k.blocked)
    ensures var v := Retire(k);
      var d := Settled(k);
      if v.cpu.Idle? && v.ready != [] then
        var p := v.ready[Selected(v)];
        && p in v.procs && p in v.meta && v.procs[p].state == Ready
        && d == v.(procs := v.procs[p := v.procs[p].(state := Running)],
                   ready := Without(v.ready, Selected(v)),
                   cpu := Executing(p, v.meta[p].profile, Quantum(v)),
                   log := v.log + [Transitioned(p, Ready, Running)])
      else d == v
  {
    var v := Retire(k);
    if k.cpu.Executing? {
      RetireStep(k);
    }
    if v.cpu.Idle? && v.ready != [] {
      DispatchStep(v);
      DispatchEffect(v);
    }
  }

  lemma SettledStep(k: System)
    requires Consistent(k, k.blocked)
    ensures var d := Settled(k);
      && Consistent(d, d.blocked)
      && d == k.(procs := d.procs, ready := d.ready, blocked := d.blocked, cpu := d.cpu, log := d.log)
      && Clock(d.log) == Clock(k.log)
      && (d.cpu.Idle? ==> d.ready == [])
  {
    var v := Retire(k);
    if k.cpu.Executing? {
      RetireStep(k);
    }
    if v.cpu.Idle? && v.ready != [] {
      DispatchStep(v);
      DispatchEffect(v);
    }
  }

  lemma SettledLife(k: System, p: Pid)
    requires Consistent(k, k.blocked) && p in k.procs && p in k.meta
    ensures p in Settled(k).procs
    ensures var u := if k.cpu.Executing? && k.cpu.pid == p then Ran(k.meta[p], LifeOf(k, p), Clock(k.log), k.now)
                     else LifeOf(k, p);
      var v' := LifeOf(Settled(k), p);
      v' == u || (StateOf(u) == Ready && v' == Chosen(u, Clock(k.log), Slice(k)))
  {
    var v := Retire(k);
    if k.cpu.Executing? {
      RetireStep(k);
      RetireLife(k, p);
    }
    if v.cpu.Idle? && v.ready != [] {
      DispatchLife(v, p);
    }
  }

  /** A tick keeps the invariant, and leaves the CPU idle only if nobody is ready. */
  lemma TickStep(k: System, now: int, pending: seq<Entry>, completed: seq<Entry>)
    requires Inv(k) && Legal(k, Elapse(now, pending, completed))
    ensures var k' := Tick(k, now, pending, completed);
      && Inv(k')
      && k' == k.(now := now, procs := k'.procs, ready := k'.ready, blocked := k'.blocked, cpu := k'.cpu, log := k'.log)
      && (k'.cpu.Idle? ==> k'.ready == [])
      && var d := Settled(Roused(k, now, pending, completed));
         k' == d.(log := k'.log) && forall p :: History(k'.log, p) == History(d.log, p)
  {
    var w := Roused(k, now, pending, completed);
    RousedStep(k, now, pending, completed);
    TurnShape(w);
    SettledStep(w);
    var d := Settled(w);
    if Finishes(w) {
      NotifyKeeps(d, d.blocked, Completed);
    }
    var t := Turn(w);
    NotifyKeeps(t, t.blocked, TickDone(now));
    LogGrows(t.log, TickDone(now));
  }

  lemma LifeState(k: System, entries: seq<Entry>, p: Pid)
    requires Consistent(k, entries) && p in k.procs
    ensures p in k.meta && StateOf(LifeIn(k, entries, p)) == k.procs[p].state
    ensures k.procs[p].state == Running <==> k.cpu.Executing? && k.cpu.pid == p
    ensures k.procs[p].state == Blocked <==> Waits(entries, p)
  {
    assert Recorded(k, p) && Placed(k, entries, p);
  }

  // Waking and running are the two parts of Moved.
  lemma MovedInParts(g: Program, v: Life, clock: int, now: int, w: Life, u: Life)
    requires w == if StateOf(v) == Blocked && v.wake <= now then Woken(v, clock) else v
    requires u == if StateOf(w) == Running then Ran(g, w, clock, now) else w
    ensures u == Moved(g, v, clock, now)
  {
  }

  // Waking and the turn of the CPU, seen from one process.
  lemma RousedSettledLife(k: System, now: int, pending: seq<Entry>, completed: seq<Entry>, p: Pid)
    requires Inv(k) && Legal(k, Elapse(now, pending, completed)) && p in k.procs
    ensures var d := Settled(Roused(k, now, pending, completed));
      p in d.procs && p in k.meta && LifeStep(k.meta[p], Slice(k), k.now, now, LifeOf(k, p), LifeOf(d, p))
  {
    var w := Roused(k, now, pending, completed);
    RousedStep(k, now, pending, completed);
    RousedLife(k, now, pending, completed, p);
    LifeState(k, k.blocked, p);
    LifeState(w, w.blocked, p);
    SettledLife(w, p);
    var u := if w.cpu.Executing? && w.cpu.pid == p then Ran(k.meta[p], LifeOf(w, p), k.now, now) else LifeOf(w, p);
    MovedInParts(k.meta[p], LifeOf(k, p), k.now, now, LifeOf(w, p), u);
  }

  /** What a tick does to one process depends on the others only through the choice to dispatch it. */
  lemma TickLife(k: System, now: int, pending: seq<Entry>, completed: seq<Entry>, p: Pid)
    requires Inv(k) && Legal(k, Elapse(now, pending, completed)) && p in k.procs
    ensures var k' := Tick(k, now, pending, completed);
      p in k'.procs && p in k.meta && LifeStep(k.meta[p], Slice(k), k.now, now, LifeOf(k, p), LifeOf(k', p))
  {
    RousedSettledLife(k, now, pending, completed, p);
    TickStep(k, now, pending, completed);
    SameLife(Settled(Roused(k, now, pending, completed)), Tick(k, now, pending, completed), p);
  }

  lemma SameLife(k: System, k': System, p: Pid)
    requires p in k.procs && p in k'.procs
    requires k' == k.(log := k'.log) && History(k'.log, p) == History(k.log, p)
    ensures LifeOf(k', p) == LifeOf(k, p)
  {
  }
}
