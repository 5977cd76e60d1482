/** Whole runs: the invariant holds in every reachable state, whatever is admitted, re-prioritised
    or woken in between and in whatever order std::partition leaves the entries. */
module Runs {
  import opened Types
  import opened Logs
  import opened Machine
  import opened Consistency
  import opened Lives
  import opened Projection

  function Newcomer(g: Program): Pcb {
    Pcb(Ready, 0, 0, g.estimate, 0)
  }

  lemma AdmitHistory(log: seq<Notice>, p: Pid)
    ensures var log' := (log + [Created(p)]) + [Transitioned(p, New, Ready)];
      && Clock(log') == Clock(log)
      && (forall q :: History(log', q) ==
                      History(log, q) + if q == p then [Stamp(Clock(log), New), Stamp(Clock(log), Ready)] else [])
  {
    LogGrows(log, Created(p));
    LogGrows(log + [Created(p)], Transitioned(p, New, Ready));
  }

  lemma AdmitEffect(k: System, g: Program)
    ensures var k' := RunProgram(k, g);
      var p := k.next;
      && k' == k.(next := p + 1, procs := k.procs[p := Newcomer(g)], meta := k.meta[p := g], ready := k'.ready,
                  log := (k.log + [Created(p)]) + [Transitioned(p, New, Ready)])
      && (forall x :: x in k'.ready <==> x in k.ready || x == p)
      && (Unique(k.ready) && p !in k.ready ==> Unique(k'.ready))
      && k'.ready == Enqueue(k.(procs := k.procs[p := Newcomer(g)]), p).ready
  {
    var p := k.next;
    var created := Notify(k.(next := p + 1,
                             procs := k.procs[p := Pcb(New, 0, 0, g.estimate, 0)],
                             meta := k.meta[p := g]),
                          Created(p));
    assert created.procs[p := created.procs[p].(state := Ready)] == k.procs[p := Newcomer(g)];
    EnqueueFacts(Move(created, p, Admit), p);
  }

  lemma AdmitKeeps(k: System, k': System, g: Program)
    requires Inv(k)
    requires var p := k.next;
      k' == k.(next := p + 1, procs := k.procs[p := Newcomer(g)], meta := k.meta[p := g],
               ready := k'.ready, log := k'.log)
    requires Clock(k'.log) == Clock(k.log)
    requires forall e | e in k'.log :: Ordinary(e)
    requires forall q :: History(k'.log, q) == History(k.log, q) +
               if q == k.next then [Stamp(Clock(k.log), New), Stamp(Clock(k.log), Ready)] else []
    requires forall x :: x in k'.ready <==> x in k.ready || x == k.next
    requires Unique(k.ready) && k.next !in k.ready ==> Unique(k'.ready)
    ensures Inv(k')
  {
    AdmitLocated(k, k', g);
    forall q | q in k'.procs
      ensures Recorded(k', q)
    {
      assert q != k.next ==> Recorded(k, q);
    }
  }

  lemma AdmitLives(k: System, k': System, g: Program)
    requires Inv(k)
    requires var p := k.next;
      k' == k.(next := p + 1, procs := k.procs[p := Newcomer(g)], meta := k.meta[p := g],
               ready := k'.ready, log := k'.log)
    requires forall q :: History(k'.log, q) == History(k.log, q) +
               if q == k.next then [Stamp(Clock(k.log), New), Stamp(Clock(k.log), Ready)] else []
    ensures LifeOf(k', k.next) == Admitted(k.now)
    ensures forall p | p in k.procs :: p in k'.procs && LifeOf(k', p) == LifeOf(k, p)
  {
    assert !Waits(k.blocked, k.next);
    assert k.next !in k.procs;
  }

  lemma AdmitLocated(k: System, k': System, g: Program)
    requires Located(k, k.blocked)
    requires var p := k.next;
      k' == k.(next := p + 1, procs := k.procs[p := Newcomer(g)], meta := k.meta[p := g],
               ready := k'.ready, log := k'.log)
    requires forall x :: x in k'.ready <==> x in k.ready || x == k.next
    requires Unique(k.ready) && k.next !in k.ready ==> Unique(k'.ready)
    ensures Located(k', k'.blocked)
  {
    assert k.next !in k.procs;
    forall q | q in k'.procs
      ensures Placed(k', k'.blocked, q) && Progressed(k', q)
    {
      assert q != k.next ==> Placed(k, k.blocked, q) && Progressed(k, q);
    }
  }

  lemma AdmitNotices(k: System, k': System)
    requires Told(k) && k'.log == (k.log + [Created(k.next)]) + [Transitioned(k.next, New, Ready)]
    ensures Clock(k'.log) == Clock(k.log)
    ensures forall e | e in k'.log :: Ordinary(e)
    ensures forall q :: History(k'.log, q) == History(k.log, q) +
              if q == k.next then [Stamp(Clock(k.log), New), Stamp(Clock(k.log), Ready)] else []
  {
    AdmitHistory(k.log, k.next);
  }

  lemma AdmitStep(k: System, g: Program)
    requires Inv(k)
    ensures var k' := RunProgram(k, g);
      && Inv(k')
      && k.next in k'.procs && LifeOf(k', k.next) == Admitted(k.now)
      && (forall p | p in k.procs :: p in k'.procs && LifeOf(k', p) == LifeOf(k, p))
  {
    AdmitEffect(k, g);
    AdmitNotices(k, RunProgram(k, g));
    AdmitKeeps(k, RunProgram(k, g), g);
    AdmitLives(k, RunProgram(k, g), g);
  }

  lemma PrioritizeLocated(k: System, k': System, p: Pid)
    requires Located(k, k.blocked)
    requires p in k.procs && p in k'.procs
    requires k' == k.(procs := k.procs[p := k.procs[p].(priority := k'.procs[p].priority)])
    ensures Located(k', k.blocked)
  {
    forall q | q in k'.procs
      ensures Placed(k', k.blocked, q) && Progressed(k', q)
    {
      assert Placed(k, k.blocked, q) && Progressed(k, q);
    }
  }

  lemma PrioritizeStep(k: System, p: Pid, priority: int)
    requires Inv(k)
    ensures var k' := SetPriority(k, p, priority);
      && Inv(k')
      && (forall q | q in k.procs :: q in k'.procs && LifeOf(k', q) == LifeOf(k, q))
  {
    if p in k.procs {
      PrioritizeLocated(k, SetPriority(k, p, priority), p);
      RecordsKept(k, SetPriority(k, p, priority), p, []);
    }
  }

  lemma ApplyStep(k: System, i: Input)
    requires Inv(k) && Legal(k, i)
    ensures Inv(Apply(k, i))
    ensures Apply(k, i).policy == k.policy && Apply(k, i).quantum == k.quantum
    ensures var k' := Apply(k, i);
      forall p | p in k.procs :: p in k'.procs && p in k.meta && p in k'.meta && k'.meta[p] == k.meta[p]
    ensures i.Elapse? ==> Apply(k, i).now == i.now
    ensures !i.Elapse? ==> Apply(k, i).now == k.now && Apply(k, i).cpu == k.cpu && Apply(k, i).blocked == k.blocked
  {
    match i {
      case Run(g) =>
        AdmitEffect(k, g);
        AdmitStep(k, g);
      case Prioritize(p, priority) => PrioritizeStep(k, p, priority);
      case Elapse(now, pending, completed) => TickStep(k, now, pending, completed);
    }
  }

  lemma AdmissionLife(k: System, g: Program, p: Pid)
    requires Inv(k) && p in RunProgram(k, g).procs
    ensures var k' := RunProgram(k, g);
      && p in k'.meta && Slice(k') == Slice(k)
      && if p in k.procs then p in k.meta && k'.meta[p] == k.meta[p] && LifeOf(k', p) == LifeOf(k, p)
         else k'.meta[p] == g && LifeOf(k', p) == Admitted(k.now)
  {
    AdmitStep(k, g);
    AdmitEffect(k, g);
  }

  lemma ElapseLife(k: System, now: int, pending: seq<Entry>, completed: seq<Entry>, p: Pid)
    requires Inv(k) && Legal(k, Elapse(now, pending, completed)) && p in Tick(k, now, pending, completed).procs
    ensures var k' := Tick(k, now, pending, completed);
      && p in k'.meta && Slice(k') == Slice(k) && p in k.procs && p in k.meta && k'.meta[p] == k.meta[p]
      && LifeStep(k.meta[p], Slice(k), k.now, now, LifeOf(k, p), LifeOf(k', p))
  {
    TickStep(k, now, pending, completed);
    TickLife(k, now, pending, completed, p);
  }

  /** One process after one input: it is new, or untouched, or one step further in its own life. */
  lemma ApplyLife(k: System, i: Input, p: Pid)
    requires Inv(k) && Legal(k, i) && p in Apply(k, i).procs
    ensures var k' := Apply(k, i);
      && p in k'.meta && Slice(k') == Slice(k)
      && if p in k.procs then
           && p in k.meta && k'.meta[p] == k.meta[p]
           && (i.Elapse? ==> LifeStep(k.meta[p], Slice(k), k.now, i.now, LifeOf(k, p), LifeOf(k', p)))
           && (!i.Elapse? ==> LifeOf(k', p) == LifeOf(k, p))
         else
           i.Run? && k'.meta[p] == i.program && LifeOf(k', p) == Admitted(k.now)
  {
    match i {
      case Run(g) => AdmissionLife(k, g, p);
      case Prioritize(q, priority) => PrioritizeStep(k, q, priority);
      case Elapse(now, pending, completed) => ElapseLife(k, now, pending, completed, p);
    }
  }

  lemma InitInv(policy: SchedulingPolicy, quantum: int)
    ensures Inv(Init(policy, quantum))
  {
  }

  /** Every reachable state is consistent: no exception was ever thrown, every process is where its
      state says, the context-switch notice was never sent. */
  lemma {:induction false} RunKeepsInv(k: System, inputs: seq<Input>)
    requires Inv(k) && LegalRun(k, inputs)
    ensures Inv(Exec(k, inputs))
    decreases inputs
  {
    if inputs != [] {
      ApplyStep(k, inputs[0]);
      RunKeepsInv(Apply(k, inputs[0]), inputs[1..]);
    }
  }
}
