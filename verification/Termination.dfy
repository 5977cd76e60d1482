/** Every tick brings the whole system closer to its end, under every policy and every wake order. */
module Termination {
  import opened Types
  import opened Sums
  import opened Machine
  import opened Consistency
  import opened Lives
  import opened Projection
  import opened Runs

  ghost function AheadOf(k: System, p: Pid): int {
    if p in k.procs && p in k.meta then Ahead(k.meta[p], k.now, LifeOf(k, p)) else 0
  }

  /** The work ahead of all processes: CPU ticks to run, pauses to come, rests of current pauses; and
      one tick to dispatch when the CPU is idle although somebody is ready. */
  ghost function Potential(k: System): int {
    Sum(p => AheadOf(k, p), k.next) + if k.cpu.Idle? && k.ready != [] then 1 else 0
  }

  lemma AheadKept(k: System, p: Pid)
    requires Inv(k) && p in k.procs
    ensures AheadOf(k, p) >= 0
    ensures k.procs[p].state != Terminated ==> AheadOf(k, p) >= 1
  {
    assert Progressed(k, p);
    LifeState(k, k.blocked, p);
    AheadPositive(k.meta[p], k.now, LifeOf(k, p));
  }

  lemma AheadAfter(k: System, now: int, pending: seq<Entry>, completed: seq<Entry>, p: Pid)
    requires Inv(k) && Legal(k, Elapse(now, pending, completed)) && p in k.procs
    ensures var k' := Tick(k, now, pending, completed);
      && AheadOf(k', p) <= AheadOf(k, p)
      && (k.procs[p].state == Running || k.procs[p].state == Blocked ==> AheadOf(k', p) < AheadOf(k, p))
  {
    assert Progressed(k, p);
    LifeState(k, k.blocked, p);
    TickStep(k, now, pending, completed);
    TickLife(k, now, pending, completed, p);
    StepAhead(k.meta[p], Slice(k), k.now, now, LifeOf(k, p), LifeOf(Tick(k, now, pending, completed), p));
  }

  lemma PotentialPositive(k: System)
    requires Inv(k)
    ensures Potential(k) >= 0
    ensures HasActive(k) ==> Potential(k) >= 1
  {
    forall p | 1 <= p < k.next
      ensures AheadOf(k, p) >= 0
    {
      AheadKept(k, p);
    }
    SumNonNegative(p => AheadOf(k, p), k.next);
    if HasActive(k) {
      var p :| p in k.procs && k.procs[p].state != Terminated;
      AheadKept(k, p);
      SumLess(_ => 0, p => AheadOf(k, p), k.next, p);
      SumNonNegative(_ => 0, k.next);
    }
  }

  // With nobody ready, an active process is on the CPU or blocked.
  lemma ActiveSomewhere(k: System)
    requires Inv(k) && HasActive(k) && (k.cpu.Idle? ==> k.ready == [])
    ensures exists p | p in k.procs :: k.procs[p].state == Running || k.procs[p].state == Blocked
  {
    if k.cpu.Executing? {
      assert k.procs[k.cpu.pid].state == Running;
    } else {
      var p :| p in k.procs && k.procs[p].state != Terminated;
      assert Placed(k, k.blocked, p);
      assert k.procs[p].state == Blocked;
    }
  }

  lemma PotentialDrops(k: System, k': System, q: Pid)
    requires k'.next == k.next && (k'.cpu.Idle? ==> k'.ready == [])
    requires forall p | 1 <= p < k.next :: AheadOf(k', p) <= AheadOf(k, p)
    requires (k.cpu.Idle? && k.ready != []) || (1 <= q < k.next && AheadOf(k', q) < AheadOf(k, q))
    ensures Potential(k') < Potential(k)
  {
    SumAtMost(p => AheadOf(k', p), p => AheadOf(k, p), k.next);
    if !(k.cpu.Idle? && k.ready != []) {
      SumLess(p => AheadOf(k', p), p => AheadOf(k, p), k.next, q);
    }
  }

  /** The potential drops with every tick while anybody is active. */
  lemma TickLowersPotential(k: System, now: int, pending: seq<Entry>, completed: seq<Entry>)
    requires Inv(k) && Legal(k, Elapse(now, pending, completed)) && HasActive(k)
    ensures Potential(Tick(k, now, pending, completed)) < Potential(k)
  {
    var k' := Tick(k, now, pending, completed);
    TickStep(k, now, pending, completed);
    forall p | 1 <= p < k.next
      ensures AheadOf(k', p) <= AheadOf(k, p)
    {
      AheadAfter(k, now, pending, completed, p);
    }
    var q := 0;
    if !(k.cpu.Idle? && k.ready != []) {
      ActiveSomewhere(k);
      q :| q in k.procs && (k.procs[q].state == Running || k.procs[q].state == Blocked);
      AheadAfter(k, now, pending, completed, q);
    }
    PotentialDrops(k, k', q);
  }

  // A run without admissions or changes of priority.
  ghost predicate TicksOnly(inputs: seq<Input>) {
    forall i | i in inputs :: i.Elapse?
  }

  /** A run of ticks alone: after as many ticks as the potential, everybody has terminated. */
  lemma {:induction false} TicksTerminate(k: System, inputs: seq<Input>)
    requires Inv(k) && LegalRun(k, inputs) && TicksOnly(inputs)
    requires |inputs| >= Potential(k)
    ensures !HasActive(Exec(k, inputs))
    decreases inputs
  {
    PotentialPositive(k);
    if inputs == [] {
    } else {
      ApplyStep(k, inputs[0]);
      var k' := Apply(k, inputs[0]);
      if HasActive(k) {
        TickLowersPotential(k, inputs[0].now, inputs[0].pending, inputs[0].completed);
        TicksTerminate(k', inputs[1..]);
      } else {
        StaysDone(k, inputs);
      }
    }
  }

  lemma {:induction false} StaysDone(k: System, inputs: seq<Input>)
    requires Inv(k) && LegalRun(k, inputs) && TicksOnly(inputs) && !HasActive(k)
    ensures !HasActive(Exec(k, inputs))
    decreases inputs
  {
    if inputs != [] {
      var k' := Apply(k, inputs[0]);
      ApplyStep(k, inputs[0]);
      forall p | p in k'.procs
        ensures k'.procs[p].state == Terminated
      {
        ApplyLife(k, inputs[0], p);
        LifeState(k, k.blocked, p);
        LifeState(k', k'.blocked, p);
      }
      StaysDone(k', inputs[1..]);
    }
  }
}
