/** Time, when the clock advances by one per tick: how long each process runs and stays blocked, and
    when exactly it wakes. */
module Timing {
  import opened Types
  import opened Programs
  import opened Logs
  import opened Machine
  import opened Consistency
  import opened Turns
  import opened Lives
  import opened Projection
  import opened Runs
  import opened Outcomes

  // Every tick of the run advances the clock by c.
  ghost predicate Spaced(k: System, inputs: seq<Input>, c: int)
    decreases inputs
  {
    inputs == [] ||
    ((inputs[0].Elapse? ==> inputs[0].now == k.now + c) && Spaced(Apply(k, inputs[0]), inputs[1..], c))
  }

  ghost predicate Punctual(k: System) {
    forall p | p in k.procs :: p in k.meta && Timed(k.meta[p], k.now, LifeOf(k, p))
  }

  lemma ApplyTimed(k: System, i: Input, p: Pid)
    requires Inv(k) && Punctual(k) && Legal(k, i) && (i.Elapse? ==> i.now == k.now + 1) && p in Apply(k, i).procs
    ensures var k' := Apply(k, i);
      p in k'.meta && Timed(k'.meta[p], k'.now, LifeOf(k', p))
  {
    var k' := Apply(k, i);
    ApplyStep(k, i);
    ApplyLife(k, i, p);
    if p !in k.procs {
      AdmittedSound(k'.meta[p], Slice(k), k.now);
    } else {
      TimedOn(k.meta[p], Slice(k), k.now, k'.now, LifeOf(k, p), LifeOf(k', p), i.Elapse?);
    }
  }

  lemma TimedOn(g: Program, slice: int, clock: int, now: int, v: Life, v': Life, elapsed: bool)
    requires Timed(g, clock, v)
    requires if elapsed then now == clock + 1 && LifeStep(g, slice, clock, now, v, v') else now == clock && v' == v
    ensures Timed(g, now, v')
  {
    if elapsed {
      StepTimed(g, slice, clock, v, v');
    }
  }

  lemma ApplyPunctual(k: System, i: Input)
    requires Inv(k) && Punctual(k) && Legal(k, i) && (i.Elapse? ==> i.now == k.now + 1)
    ensures Punctual(Apply(k, i))
  {
    var k' := Apply(k, i);
    ApplyStep(k, i);
    forall p | p in k'.procs
      ensures p in k'.meta && Timed(k'.meta[p], k'.now, LifeOf(k', p))
    {
      ApplyTimed(k, i, p);
    }
  }

  lemma {:induction false} RunKeepsPunctual(k: System, inputs: seq<Input>)
    requires Inv(k) && Punctual(k) && LegalRun(k, inputs) && Spaced(k, inputs, 1)
    ensures Punctual(Exec(k, inputs))
    decreases inputs
  {
    if inputs != [] {
      ApplyStep(k, inputs[0]);
      ApplyPunctual(k, inputs[0]);
      RunKeepsPunctual(Apply(k, inputs[0]), inputs[1..]);
    }
  }

  // A state a fresh kernel gets into when every tick advances the clock by one.
  ghost predicate ReachableByUnitTicks(k: System) {
    exists policy, quantum, inputs ::
      && LegalRun(Init(policy, quantum), inputs) && Spaced(Init(policy, quantum), inputs, 1)
      && k == Exec(Init(policy, quantum), inputs)
  }

  lemma ReachablePunctual(k: System)
    requires ReachableByUnitTicks(k)
    ensures Reachable(k) && Punctual(k)
  {
    var policy, quantum, inputs :|
      && LegalRun(Init(policy, quantum), inputs) && Spaced(Init(policy, quantum), inputs, 1)
      && k == Exec(Init(policy, quantum), inputs);
    InitInv(policy, quantum);
    RunKeepsPunctual(Init(policy, quantum), inputs);
  }

  /** The recorded stays of a terminated process add up to its CPU time and to the pauses of its
      fired syscalls, although each transition is stamped with the previous tick. */
  lemma RecordedTimes(k: System, p: Pid)
    requires ReachableByUnitTicks(k) && p in k.procs && k.procs[p].state == Terminated
    ensures p in k.meta
    ensures TimeIn(History(k.log, p), Running) == k.procs[p].used == Finish(k.meta[p])
    ensures TimeIn(History(k.log, p), Blocked) == IoTime(k.meta[p].profile, Finish(k.meta[p]))
  {
    ReachablePunctual(k);
    ReachableSound(k);
    LifeState(k, k.blocked, p);
    ScheduleIndependentProgress(k, p);
  }

  // The tick during which a blocked process issued its syscall.
  function BlockedAt(k: System, p: Pid): int {
    var h := History(k.log, p);
    if h == [] then 0 else h[|h| - 1].tick + 1
  }

  // For a life: blocked until the pause of its syscall is over, ready in that very tick.
  lemma LifeWakes(g: Program, slice: int, clock: int, v: Life, v': Life)
    requires Timed(g, clock, v) && StateOf(v) == Blocked && LifeStep(g, slice, clock, clock + 1, v, v')
    ensures var due := v.hist[|v.hist| - 1].tick + 1 + Pause(g.profile[v.used]);
      && clock < due
      && (clock + 1 < due ==> v'.hist == v.hist)
      && (clock + 1 == due ==>
            || v'.hist == v.hist + [Stamp(clock, Ready)]
            || v'.hist == v.hist + [Stamp(clock, Ready)] + [Stamp(clock, Running)])
  {
  }

  /** A process that blocked during tick c for duration d is woken during tick c + max(1, d) and in
      no earlier one. */
  lemma ExactWakeup(k: System, pending: seq<Entry>, completed: seq<Entry>, p: Pid)
    requires ReachableByUnitTicks(k) && Legal(k, Elapse(k.now + 1, pending, completed))
    requires p in k.procs && k.procs[p].state == Blocked
    ensures p in k.meta && k.procs[p].used in k.meta[p].profile
    ensures var due := BlockedAt(k, p) + Pause(k.meta[p].profile[k.procs[p].used]);
      var h := History(k.log, p);
      var h' := History(Tick(k, k.now + 1, pending, completed).log, p);
      && k.now < due
      && (k.now + 1 < due ==> h' == h)
      && (k.now + 1 == due ==>
            || h' == h + [Stamp(k.now, Ready)]
            || h' == h + [Stamp(k.now, Ready)] + [Stamp(k.now, Running)])
  {
    ReachablePunctual(k);
    ReachableSound(k);
    WakeupInState(k, pending, completed, p);
  }

  lemma WakeupBetween(k: System, k': System, p: Pid, v: Life, v': Life)
    requires p in k.procs && p in k.meta
    requires v.hist == History(k.log, p) && v.used == k.procs[p].used && v'.hist == History(k'.log, p)
    requires Timed(k.meta[p], k.now, v) && StateOf(v) == Blocked
    requires LifeStep(k.meta[p], Slice(k), k.now, k.now + 1, v, v')
    ensures k.procs[p].used in k.meta[p].profile
    ensures var due := BlockedAt(k, p) + Pause(k.meta[p].profile[k.procs[p].used]);
      var h, h' := History(k.log, p), History(k'.log, p);
      && k.now < due
      && (k.now + 1 < due ==> h' == h)
      && (k.now + 1 == due ==>
            || h' == h + [Stamp(k.now, Ready)]
            || h' == h + [Stamp(k.now, Ready)] + [Stamp(k.now, Running)])
  {
    LifeWakes(k.meta[p], Slice(k), k.now, v, v');
  }

  lemma WakeupInState(k: System, pending: seq<Entry>, completed: seq<Entry>, p: Pid)
    requires Inv(k) && Punctual(k) && Legal(k, Elapse(k.now + 1, pending, completed))
    requires p in k.procs && k.procs[p].state == Blocked
    ensures p in k.meta && k.procs[p].used in k.meta[p].profile
    ensures var due := BlockedAt(k, p) + Pause(k.meta[p].profile[k.procs[p].used]);
      var h := History(k.log, p);
      var h' := History(Tick(k, k.now + 1, pending, completed).log, p);
      && k.now < due
      && (k.now + 1 < due ==> h' == h)
      && (k.now + 1 == due ==>
            || h' == h + [Stamp(k.now, Ready)]
            || h' == h + [Stamp(k.now, Ready)] + [Stamp(k.now, Running)])
  {
    TickLife(k, k.now + 1, pending, completed, p);
    LifeState(k, k.blocked, p);
    var k' := Tick(k, k.now + 1, pending, completed);
    WakeupBetween(k, k', p, LifeOf(k, p), LifeOf(k', p));
  }

  lemma LifeEntry(g: Program, clock: int, v: Life)
    requires Timed(g, clock, v) && StateOf(v) == Blocked
    ensures v.used in g.profile && v.wake == v.hist[|v.hist| - 1].tick + 1 + g.profile[v.used].duration
  {
  }

  lemma EntryInState(k: System, p: Pid)
    requires Inv(k) && Punctual(k) && p in k.procs && k.procs[p].state == Blocked
    ensures p in k.meta && k.procs[p].used in k.meta[p].profile
    ensures Entry(p, BlockedAt(k, p) + k.meta[p].profile[k.procs[p].used].duration) in k.blocked
  {
    LifeState(k, k.blocked, p);
    EntryOfLife(k, p, LifeOf(k, p));
  }

  lemma EntryOfLife(k: System, p: Pid, v: Life)
    requires p in k.procs && p in k.meta && UniqueEntries(k.blocked) && Waits(k.blocked, p)
    requires v.hist == History(k.log, p) && v.used == k.procs[p].used && v.wake == WakeOf(k.blocked, p)
    requires Timed(k.meta[p], k.now, v) && StateOf(v) == Blocked
    ensures k.procs[p].used in k.meta[p].profile
    ensures Entry(p, BlockedAt(k, p) + k.meta[p].profile[k.procs[p].used].duration) in k.blocked
  {
    LifeEntry(k.meta[p], k.now, v);
    EntryWaiting(k.blocked, p);
  }

  /** The entry of a blocked process holds the tick of its syscall plus the duration. */
  lemma EntryOfBlocked(k: System, p: Pid)
    requires ReachableByUnitTicks(k) && p in k.procs && k.procs[p].state == Blocked
    ensures p in k.meta && k.procs[p].used in k.meta[p].profile
    ensures Entry(p, BlockedAt(k, p) + k.meta[p].profile[k.procs[p].used].duration) in k.blocked
  {
    ReachablePunctual(k);
    ReachableSound(k);
    EntryInState(k, p);
  }

  lemma EntryWaiting(entries: seq<Entry>, p: Pid)
    requires UniqueEntries(entries) && Waits(entries, p)
    ensures Entry(p, WakeOf(entries, p)) in entries
  {
  }

  /** After any tick, an entry that was there before is not due yet, and an entry that was not
      is the one of the process that ran, stamped with this tick and its syscall's duration. */
  lemma NoOverdueEntries(k: System, now: int, pending: seq<Entry>, completed: seq<Entry>, e: Entry)
    requires Inv(k) && Legal(k, Elapse(now, pending, completed))
    requires e in Tick(k, now, pending, completed).blocked
    ensures if e in pending then e in k.blocked && e.wakeup > now else AddedBy(k, now, e)
  {
    if e in pending {
      PendingWasThere(k.blocked, now, pending, completed, e);
    } else {
      NewEntry(k, now, pending, completed, e);
    }
  }

  lemma PendingWasThere(entries: seq<Entry>, now: int, pending: seq<Entry>, completed: seq<Entry>, e: Entry)
    requires IsPartition(entries, now, pending, completed) && e in pending
    ensures e in entries && e.wakeup > now
  {
    assert e in multiset(pending) && e in multiset(entries);
  }

  lemma NewEntry(k: System, now: int, pending: seq<Entry>, completed: seq<Entry>, e: Entry)
    requires Inv(k) && Legal(k, Elapse(now, pending, completed))
    requires e in Tick(k, now, pending, completed).blocked && e !in pending
    ensures AddedBy(k, now, e)
  {
    var w := Roused(k, now, pending, completed);
    RousedStep(k, now, pending, completed);
    TickStep(k, now, pending, completed);
    SettledEffect(w);
    if w.cpu.Executing? {
      RetireStep(w);
      AddedByTurn(w, Retire(w), e);
      RousedUsed(k, now, pending, completed, e.pid);
      AddedByBefore(k, w, now, e);
    }
  }

  lemma AddedByBefore(k: System, w: System, now: int, e: Entry)
    requires AddedBy(w, now, e) && w.cpu == k.cpu && w.meta == k.meta
    requires e.pid in k.procs && k.procs[e.pid].used == w.procs[e.pid].used
    ensures AddedBy(k, now, e)
  {
  }

  lemma RousedUsed(k: System, now: int, pending: seq<Entry>, completed: seq<Entry>, p: Pid)
    requires Inv(k) && Legal(k, Elapse(now, pending, completed))
    requires p in Roused(k, now, pending, completed).procs
    ensures p in k.procs && k.procs[p].used == Roused(k, now, pending, completed).procs[p].used
  {
    RousedStep(k, now, pending, completed);
    assert p in k.procs;
    RousedLife(k, now, pending, completed, p);
  }

  ghost predicate AddedBy(k: System, now: int, e: Entry) {
    && k.cpu.Executing? && e.pid == k.cpu.pid && e.pid in k.procs && e.pid in k.meta
    && k.procs[e.pid].used + 1 in k.meta[e.pid].profile
    && e.wakeup == now + k.meta[e.pid].profile[k.procs[e.pid].used + 1].duration
  }

  lemma AddedByTurn(k: System, k': System, e: Entry)
    requires k.cpu.Executing? && k.cpu.pid in k.procs && k.cpu.pid in k.meta
    requires RetiredAs(k, k', k.cpu.pid, Retired(k))
    requires e in k'.blocked && e !in k.blocked
    ensures AddedBy(k, k.now, e)
  {
  }
}
