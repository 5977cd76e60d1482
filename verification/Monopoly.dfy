/** The other side of priority scheduling: when exactly a process of highest priority keeps the CPU although its
    quantum is over, and how long everybody else waits. */
module Monopoly {
  import opened Types
  import opened Machine
  import opened Consistency
  import opened Turns
  import opened Lives
  import opened Projection
  import opened Runs
  import opened Fifo
  import opened Priorities
  import opened Overtaking

  // Seen from the process: still running or preempted after its next CPU tick, or gone.
  lemma LifeStaysOrLeaves(g: Program, slice: int, clock: int, now: int, v: Life, v': Life)
    requires StateOf(v) == Running && LifeStep(g, slice, clock, now, v, v')
    ensures var u := v.used + 1;
      && v'.used == u
      && (u in g.profile || u >= g.estimate ==> StateOf(v') == Blocked || StateOf(v') == Terminated)
  {
  }

  // The running process of highest priority keeps the CPU in this turn, by what is ready when its quantum ends.
  ghost predicate Unchallenged(w: System, p: Pid) {
    || (w.cpu.Executing? && w.cpu.remaining > 1)
    || w.ready == []
    || PriorityOf(w.procs, w.ready[0]) < PriorityOf(w.procs, p)
  }

  ghost predicate NobodyReadyAbove(w: System, p: Pid) {
    forall r | r in w.ready :: PriorityOf(w.procs, r) <= PriorityOf(w.procs, p)
  }

  // A preempted process comes first exactly if the front of the queue has lower priority.
  lemma PutBackFirstIff(q: seq<Pid>, procs: map<Pid, Pcb>, p: Pid)
    requires forall r | r in q :: PriorityOf(procs, r) <= PriorityOf(procs, p)
    ensures var q' := Insert(q, InsertionPoint(q, procs, PriorityOf(procs, p)), p);
      && FirstMax(q', procs) == 0
      && (p !in q ==> (q'[0] == p <==> q == [] || PriorityOf(procs, q[0]) < PriorityOf(procs, p)))
  {
    var i := InsertionPoint(q, procs, PriorityOf(procs, p));
    var q' := Insert(q, i, p);
    InsertFacts(q, i, p);
    var m := FirstMax(q', procs);
    assert q'[m] in q' && q'[0] == if i == 0 then p else q[0];
    assert i > 0 ==> q[0] in q && PriorityOf(procs, q[0]) >= PriorityOf(procs, p);
  }

  lemma TiedRetired(w: System, v: System, p: Pid)
    requires Queued(w, w.blocked) && w.policy == Priority && w.cpu.Executing? && w.cpu.pid == p
    requires NobodyReadyAbove(w, p) && p in w.procs && p in w.meta && w.procs[p].state == Running
    requires w.procs[p].used + 1 !in w.meta[p].profile && w.procs[p].used + 1 < w.meta[p].estimate
    requires RetiredAs(w, v, p, Retired(w))
    ensures w.cpu.remaining > 1 ==> v.cpu.Executing? && v.cpu.pid == p
    ensures w.cpu.remaining <= 1 ==>
      v.cpu.Idle? && v.ready != [] && Selected(v) == 0 && (v.ready[0] == p <==> Unchallenged(w, p))
  {
    if w.cpu.remaining <= 1 {
      PutBackFirstIff(w.ready, w.procs, p);
      SameFirstMax(v.ready, w.procs, v.procs);
    }
  }

  lemma SameFirstMax(q: seq<Pid>, procs: map<Pid, Pcb>, procs': map<Pid, Pcb>)
    requires q != [] && SamePriorityMap(procs, procs')
    ensures FirstMax(q, procs) == FirstMax(q, procs')
  {
    SamePriorities(q, procs, procs', 0);
  }

  /** The CPU part of a tick with ties: with nobody ready above the running process p, and neither a syscall nor
      the exit at this CPU tick of its program, p is on the CPU afterwards if and only if its quantum is not over,
      or nobody is ready, or the front of the ready queue has lower priority. */
  lemma KeepsWithTies(w: System, p: Pid)
    requires Consistent(w, w.blocked) && w.policy == Priority && w.cpu.Executing? && w.cpu.pid == p
    requires p in w.procs && p in w.meta && NobodyReadyAbove(w, p)
    requires w.procs[p].used + 1 !in w.meta[p].profile && w.procs[p].used + 1 < w.meta[p].estimate
    ensures var d := Settled(w);
      d.cpu.Executing? && (d.cpu.pid == p <==> Unchallenged(w, p))
  {
    var v := Retire(w);
    RetireStep(w);
    TiedRetired(w, v, p);
    SettledEffect(w);
  }

  lemma RousedUnder(k: System, now: int, pending: seq<Entry>, completed: seq<Entry>, p: Pid)
    requires Inv(k) && Legal(k, Elapse(now, pending, completed)) && OnCpu(k, p) && AtMost(k, k.procs[p].priority)
    ensures var w := Roused(k, now, pending, completed);
      && Consistent(w, w.blocked) && w.cpu == k.cpu && w.meta == k.meta && w.policy == k.policy
      && p in w.procs && w.procs[p].used == k.procs[p].used && w.procs[p].priority == k.procs[p].priority
      && NobodyReadyAbove(w, p)
  {
    var w := Roused(k, now, pending, completed);
    RousedStep(k, now, pending, completed);
    RousedAlike(k, now, pending, completed);
    RousedLife(k, now, pending, completed, p);
    RunningIsLoaded(k, p);
    forall r | r in w.ready
      ensures PriorityOf(w.procs, r) <= PriorityOf(w.procs, p)
    {
      assert w.procs[r].state == Ready;
    }
  }

  lemma RunningIsLoaded(k: System, p: Pid)
    requires Inv(k) && OnCpu(k, p)
    ensures k.cpu.Executing? && k.cpu.pid == p && p in k.meta
  {
    assert Placed(k, k.blocked, p);
  }

  lemma TiedSettles(k: System, now: int, pending: seq<Entry>, completed: seq<Entry>, p: Pid)
    requires Inv(k) && k.policy == Priority && Legal(k, Elapse(now, pending, completed))
    requires OnCpu(k, p) && AtMost(k, k.procs[p].priority) && p in k.meta && k.cpu.Executing? && k.cpu.pid == p
    requires k.procs[p].used + 1 !in k.meta[p].profile && k.procs[p].used + 1 < k.meta[p].estimate
    ensures var d := Settled(Roused(k, now, pending, completed));
      d.cpu.Executing? && (d.cpu.pid == p <==> Unchallenged(Roused(k, now, pending, completed), p))
  {
    RousedUnder(k, now, pending, completed, p);
    KeepsWithTies(Roused(k, now, pending, completed), p);
  }

  lemma TiedTick(k: System, now: int, pending: seq<Entry>, completed: seq<Entry>, p: Pid)
    requires Inv(k) && k.policy == Priority && Legal(k, Elapse(now, pending, completed))
    requires OnCpu(k, p) && AtMost(k, k.procs[p].priority) && p in k.meta
    requires k.procs[p].used + 1 !in k.meta[p].profile && k.procs[p].used + 1 < k.meta[p].estimate
    ensures OnCpu(Tick(k, now, pending, completed), p) <==> Unchallenged(Roused(k, now, pending, completed), p)
  {
    RunningIsLoaded(k, p);
    TiedSettles(k, now, pending, completed, p);
    TiedOnCpu(k, now, pending, completed, p);
  }

  lemma TiedOnCpu(k: System, now: int, pending: seq<Entry>, completed: seq<Entry>, p: Pid)
    requires Inv(k) && Legal(k, Elapse(now, pending, completed))
    ensures var d := Settled(Roused(k, now, pending, completed));
      OnCpu(Tick(k, now, pending, completed), p) <==> d.cpu.Executing? && d.cpu.pid == p
  {
    TickStep(k, now, pending, completed);
    CpuIsOnCpu(Tick(k, now, pending, completed), p);
  }

  // One CPU tick of the running process, from the states before and after.
  lemma OneCpuTick(k: System, k': System, p: Pid)
    requires Inv(k) && Inv(k') && OnCpu(k, p) && p in k'.procs && p in k.meta
    requires LifeStep(k.meta[p], Slice(k), k.now, k'.now, LifeOf(k, p), LifeOf(k', p))
    ensures k'.procs[p].used == k.procs[p].used + 1
    ensures var u := k.procs[p].used + 1;
      u in k.meta[p].profile || u >= k.meta[p].estimate ==> !OnCpu(k', p)
  {
    LifeState(k, k.blocked, p);
    LifeState(k', k'.blocked, p);
    LifeStaysOrLeaves(k.meta[p], Slice(k), k.now, k'.now, LifeOf(k, p), LifeOf(k', p));
  }

  /** A running process that nobody alive is above is on the CPU after a tick if and only if this CPU tick of its
      program is neither a syscall nor its exit, and its quantum is not over, or nobody is ready when it ends, or the
      front of the ready queue then has lower priority, whoever of the same priority stands behind the front. */
  lemma KeepsCpuIff(k: System, now: int, pending: seq<Entry>, completed: seq<Entry>, p: Pid)
    requires Inv(k) && k.policy == Priority && Legal(k, Elapse(now, pending, completed))
    requires OnCpu(k, p) && AtMost(k, k.procs[p].priority)
    ensures p in k.meta && p in Tick(k, now, pending, completed).procs
    ensures Tick(k, now, pending, completed).procs[p].used == k.procs[p].used + 1
    ensures var u := k.procs[p].used + 1;
      OnCpu(Tick(k, now, pending, completed), p) <==>
      && u !in k.meta[p].profile && u < k.meta[p].estimate
      && Unchallenged(Roused(k, now, pending, completed), p)
  {
    RunningIsLoaded(k, p);
    TickStep(k, now, pending, completed);
    TickLife(k, now, pending, completed, p);
    OneCpuTick(k, Tick(k, now, pending, completed), p);
    var u := k.procs[p].used + 1;
    if u !in k.meta[p].profile && u < k.meta[p].estimate {
      TiedTick(k, now, pending, completed, p);
    }
  }

  lemma HighestUnchallenged(k: System, now: int, pending: seq<Entry>, completed: seq<Entry>, p: Pid)
    requires Inv(k) && Legal(k, Elapse(now, pending, completed)) && Highest(k, p) && OnCpu(k, p)
    ensures Unchallenged(Roused(k, now, pending, completed), p)
  {
    var w := Roused(k, now, pending, completed);
    RousedStep(k, now, pending, completed);
    RousedAlike(k, now, pending, completed);
    if w.ready != [] {
      var r := w.ready[0];
      assert r in w.ready && w.procs[r].state == Ready;
    }
  }

  /** A running process of strictly highest priority is on the CPU after a tick exactly if this CPU tick of its
      program is neither a syscall nor its exit: an expired quantum does not take the CPU away. */
  lemma KeepsCpu(k: System, now: int, pending: seq<Entry>, completed: seq<Entry>, p: Pid)
    requires Inv(k) && k.policy == Priority && Legal(k, Elapse(now, pending, completed))
    requires Highest(k, p) && OnCpu(k, p)
    ensures p in k.meta && p in Tick(k, now, pending, completed).procs
    ensures Tick(k, now, pending, completed).procs[p].used == k.procs[p].used + 1
    ensures var u := k.procs[p].used + 1;
      OnCpu(Tick(k, now, pending, completed), p) <==> u !in k.meta[p].profile && u < k.meta[p].estimate
  {
    KeepsCpuIff(k, now, pending, completed, p);
    HighestUnchallenged(k, now, pending, completed, p);
  }

  lemma OnlyOneOnCpu(k: System, p: Pid, q: Pid)
    requires Inv(k) && OnCpu(k, p) && q != p
    ensures !OnCpu(k, q)
  {
    LifeState(k, k.blocked, p);
    if q in k.procs {
      LifeState(k, k.blocked, q);
    }
  }

  lemma OtherInput(k: System, i: Input, p: Pid)
    requires Inv(k) && Legal(k, i) && !i.Elapse? && OnCpu(k, p)
    ensures var k' := Apply(k, i);
      OnCpu(k', p) && p in k.meta && p in k'.meta && k'.meta[p] == k.meta[p] && k'.procs[p].used == k.procs[p].used
  {
    var k' := Apply(k, i);
    ApplyStep(k, i);
    ApplyLife(k, i, p);
    LifeState(k, k.blocked, p);
    LifeState(k', k'.blocked, p);
  }

  /** Starvation under Priority has no bound: while a process of highest priority computes, nobody else
      gets the CPU, for as many ticks as its program has before the next syscall or its exit, whoever is
      admitted or woken meanwhile. */
  lemma {:induction false} OthersStarve(k: System, inputs: seq<Input>, p: Pid, q: Pid)
    requires Inv(k) && k.policy == Priority && LegalRun(k, inputs) && StaysHighest(k, inputs, p)
    requires OnCpu(k, p) && p in k.meta && q != p
    requires k.procs[p].used + Ticks(inputs) < k.meta[p].estimate || Ticks(inputs) == 0
    requires forall u | k.procs[p].used < u <= k.procs[p].used + Ticks(inputs) :: u !in k.meta[p].profile
    ensures OnCpu(Exec(k, inputs), p) && !GetsCpu(k, inputs, q)
    decreases inputs
  {
    OnlyOneOnCpu(k, p, q);
    if inputs != [] {
      var i := inputs[0];
      ApplyStep(k, i);
      if i.Elapse? {
        KeepsCpu(k, i.now, i.pending, i.completed, p);
      } else {
        OtherInput(k, i, p);
      }
      OthersStarve(Apply(k, i), inputs[1..], p, q);
    }
  }
}
