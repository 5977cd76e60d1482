/** What becomes of each process in any run: its CPU time, its blocks, its dispatches and the time it
    spends in each state depend on its program and the quantum, not on the schedule. */
module Outcomes {
  import opened Types
  import opened Programs
  import opened Slices
  import opened Logs
  import opened Machine
  import opened Consistency
  import opened Lives
  import opened Projection
  import opened Runs

  ghost predicate Sound(g: Program, slice: int, clock: int, v: Life)
    requires slice >= 1
  {
    Chronicled(v, clock) && OnCourse(g, slice, v) && Tallied(g, slice, v)
  }

  ghost predicate Lively(k: System) {
    forall p | p in k.procs :: p in k.meta && Sound(k.meta[p], Slice(k), k.now, LifeOf(k, p))
  }

  lemma StepSound(g: Program, slice: int, clock: int, now: int, v: Life, v': Life)
    requires slice >= 1 && clock <= now && Sound(g, slice, clock, v) && LifeStep(g, slice, clock, now, v, v')
    ensures Sound(g, slice, now, v')
  {
    StepChronicled(g, slice, clock, now, v, v');
    StepOnCourse(g, slice, clock, now, v, v');
    StepTallied(g, slice, clock, now, v, v');
  }

  lemma ApplySound(k: System, i: Input, p: Pid)
    requires Inv(k) && Lively(k) && Legal(k, i) && p in Apply(k, i).procs
    ensures var k' := Apply(k, i);
      p in k'.meta && Sound(k'.meta[p], Slice(k'), k'.now, LifeOf(k', p))
  {
    var k' := Apply(k, i);
    ApplyStep(k, i);
    ApplyLife(k, i, p);
    if p !in k.procs {
      AdmittedSound(k'.meta[p], Slice(k), k.now);
    } else if i.Elapse? {
      StepSound(k.meta[p], Slice(k), k.now, i.now, LifeOf(k, p), LifeOf(k', p));
    }
  }

  lemma ApplyLively(k: System, i: Input)
    requires Inv(k) && Lively(k) && Legal(k, i)
    ensures Lively(Apply(k, i))
  {
    var k' := Apply(k, i);
    ApplyStep(k, i);
    forall p | p in k'.procs
      ensures p in k'.meta && Sound(k'.meta[p], Slice(k'), k'.now, LifeOf(k', p))
    {
      ApplySound(k, i, p);
    }
  }

  lemma {:induction false} RunKeepsLively(k: System, inputs: seq<Input>)
    requires Inv(k) && Lively(k) && LegalRun(k, inputs)
    ensures Inv(Exec(k, inputs)) && Lively(Exec(k, inputs))
    decreases inputs
  {
    if inputs != [] {
      ApplyStep(k, inputs[0]);
      ApplyLively(k, inputs[0]);
      RunKeepsLively(Apply(k, inputs[0]), inputs[1..]);
    }
  }

  // ---------- reachable states ----------

  // A state a fresh kernel can get into: any policy and quantum, any admissions and changes of
  // priority between ticks, any forward-moving clock, any order std::partition may produce.
  ghost predicate Reachable(k: System) {
    exists policy, quantum, inputs ::
      LegalRun(Init(policy, quantum), inputs) && k == Exec(Init(policy, quantum), inputs)
  }

  lemma ReachableLife(k: System, p: Pid)
    requires Reachable(k) && p in k.procs
    ensures p in k.meta && Sound(k.meta[p], Slice(k), k.now, LifeOf(k, p))
    ensures StateOf(LifeOf(k, p)) == k.procs[p].state
  {
    ReachableSound(k);
    LifeState(k, k.blocked, p);
  }

  lemma ReachableSound(k: System)
    requires Reachable(k)
    ensures Inv(k) && Lively(k)
  {
    var policy, quantum, inputs :|
      LegalRun(Init(policy, quantum), inputs) && k == Exec(Init(policy, quantum), inputs);
    InitInv(policy, quantum);
    RunKeepsLively(Init(policy, quantum), inputs);
  }

  function Occurrences(q: seq<Pid>, p: Pid): nat {
    multiset(q)[p]
  }

  function Waiting(entries: seq<Entry>): seq<Pid> {
    seq(|entries|, i requires 0 <= i < |entries| => entries[i].pid)
  }

  function Bit(b: bool): nat {
    if b then 1 else 0
  }

  lemma OccurrencesOfUnique(q: seq<Pid>, p: Pid)
    requires Unique(q)
    ensures Occurrences(q, p) == Bit(p in q)
  {
    if p in q {
      var i :| 0 <= i < |q| && q[i] == p;
      assert q == q[..i] + [p] + q[i + 1..];
      assert p !in q[..i] && p !in q[i + 1..];
    }
  }

  lemma OccurrencesOfWaiting(entries: seq<Entry>, p: Pid)
    requires UniqueEntries(entries)
    ensures Occurrences(Waiting(entries), p) == Bit(Waits(entries, p))
  {
    var q := Waiting(entries);
    OccurrencesOfUnique(q, p);
    if p in q {
      var i :| 0 <= i < |q| && q[i] == p;
      assert Entry(entries[i].pid, entries[i].wakeup) in entries;
    }
    if Waits(entries, p) {
      var w: int :| Entry(p, w) in entries;
      var i :| 0 <= i < |entries| && entries[i] == Entry(p, w);
      assert q[i] == p;
    }
  }

  /** Each process is in exactly one place, once, and it is the place its state names. Nothing was
      thrown and no notice of a context switch was ever sent. */
  lemma LocationInvariant(k: System, p: Pid)
    requires Reachable(k) && p in k.procs
    ensures !k.thrown
    ensures SwitchNotices(k.log) == 0
    ensures Occurrences(k.ready, p) == Bit(k.procs[p].state == Ready)
    ensures Occurrences(Waiting(k.blocked), p) == Bit(k.procs[p].state == Blocked)
    ensures Bit(k.cpu.Executing? && k.cpu.pid == p) == Bit(k.procs[p].state == Running)
    ensures Occurrences(k.ready, p) + Occurrences(Waiting(k.blocked), p)
            + Bit(k.cpu.Executing? && k.cpu.pid == p) + Bit(k.procs[p].state == Terminated) == 1
  {
    ReachableSound(k);
    OccurrencesOfUnique(k.ready, p);
    OccurrencesOfWaiting(k.blocked, p);
    assert Placed(k, k.blocked, p);
    NoSwitchNotices(k.log);
  }

  function SwitchNotices(log: seq<Notice>): nat {
    if log == [] then 0
    else SwitchNotices(log[..|log| - 1]) + Bit(log[|log| - 1].SwitchedContext?)
  }

  lemma {:induction false} NoSwitchNotices(log: seq<Notice>)
    requires forall e | e in log :: Ordinary(e)
    ensures SwitchNotices(log) == 0
    decreases |log|
  {
    if log != [] {
      assert Ordinary(log[|log| - 1]);
      NoSwitchNotices(log[..|log| - 1]);
    }
  }

  // ---------- the flow through the states ----------

  lemma FollowsOnly(from: ProcessState, to: ProcessState)
    requires Follows(from, to)
    ensures || (from == New && to == Ready) || (from == Ready && to == Running) || (from == Running && to == Ready)
            || (from == Running && to == Blocked) || (from == Running && to == Terminated)
            || (from == Blocked && to == Ready)
  {
  }

  // Whoever enters a state came from a state that leads there, and leaves it before entering again.
  ghost predicate Flows(h: seq<Stamp>) {
    h != [] && var last := h[|h| - 1].state;
      && Count(h, Running) == Passages(h, Running, Ready) + Passages(h, Running, Blocked)
                              + Passages(h, Running, Terminated) + Bit(last == Running)
      && Passages(h, New, Ready) + Passages(h, Running, Ready) + Passages(h, Blocked, Ready)
         == Passages(h, Ready, Running) + Bit(last == Ready)
      && Passages(h, Ready, Running) == Count(h, Running)
      && Passages(h, Running, Blocked) == Count(h, Blocked)
      && Passages(h, Running, Terminated) == Count(h, Terminated)
      && Passages(h, Running, Blocked) == Passages(h, Blocked, Ready) + Bit(last == Blocked)
      && Count(h, New) == Passages(h, New, Ready) + Bit(last == New) == 1
  }

  lemma FlowStep(h: seq<Stamp>, x: Stamp)
    requires Flows(h) && Follows(h[|h| - 1].state, x.state)
    ensures Flows(h + [x])
  {
    FollowsOnly(h[|h| - 1].state, x.state);
    HistoryGrows(h, x);
  }

  lemma {:induction false} FlowOfHistory(h: seq<Stamp>)
    requires Linked(h)
    ensures Flows(h)
    decreases |h|
  {
    var n := |h| - 1;
    if n == 0 {
      assert h[..0] == [];
    } else {
      var b := h[..n];
      assert forall i | 0 <= i < n - 1 :: Follows(h[i].state, h[i + 1].state);
      assert Follows(h[n - 1].state, h[n].state);
      FlowOfHistory(b);
      FlowStep(b, h[n]);
      assert b + [h[n]] == h;
    }
  }

  /** Conservation in every reachable state: what a process entered it left, or is still in. */
  lemma FlowConservation(k: System, p: Pid)
    requires Reachable(k) && p in k.procs
    ensures var h := History(k.log, p);
      var s := k.procs[p].state;
      && Passages(h, Ready, Running) ==
         Passages(h, Running, Ready) + Passages(h, Running, Blocked) + Passages(h, Running, Terminated)
         + Bit(s == Running)
      && Passages(h, New, Ready) + Passages(h, Running, Ready) + Passages(h, Blocked, Ready) ==
         Passages(h, Ready, Running) + Bit(s == Ready)
      && Passages(h, Running, Blocked) == Passages(h, Blocked, Ready) + Bit(s == Blocked)
      && Passages(h, New, Ready) == 1 && Passages(h, Running, Terminated) == Bit(s == Terminated)
  {
    ReachableSound(k);
    LifeState(k, k.blocked, p);
    assert Placed(k, k.blocked, p);
    FlowOfHistory(History(k.log, p));
  }

  // ---------- what does not depend on the schedule ----------

  /** A live process is short of its exit point, a terminated one exactly there; and up to any
      moment a process has blocked once for each syscall among the CPU ticks it has used. */
  lemma ScheduleIndependentProgress(k: System, p: Pid)
    requires Reachable(k) && p in k.procs
    ensures p in k.meta
    ensures k.procs[p].state != Terminated <==> k.procs[p].used < Finish(k.meta[p])
    ensures k.procs[p].state == Terminated <==> k.procs[p].used == Finish(k.meta[p])
    ensures Count(History(k.log, p), Blocked) == |Fired(k.meta[p].profile, k.procs[p].used)|
    ensures k.procs[p].counter == k.procs[p].used
  {
    ReachableSound(k);
    LifeState(k, k.blocked, p);
    assert Progressed(k, p);
  }

  /** Two processes that run the same program, in the same run or in two runs under any policies, quanta,
      competitors and wake orders: once terminated, both have used the same CPU time and blocked equally
      often; and with the same quantum they were dispatched and preempted equally often. */
  lemma SameOutcome(k: System, l: System, p: Pid, q: Pid)
    requires Reachable(k) && Reachable(l) && p in k.procs && q in l.procs
    requires p in k.meta && q in l.meta && k.meta[p] == l.meta[q]
    requires k.procs[p].state == l.procs[q].state == Terminated
    ensures k.procs[p].used == l.procs[q].used == Finish(k.meta[p])
    ensures Count(History(k.log, p), Blocked) == Count(History(l.log, q), Blocked)
    ensures Slice(k) == Slice(l) ==>
      && Passages(History(k.log, p), Ready, Running) == Passages(History(l.log, q), Ready, Running)
      && Passages(History(k.log, p), Running, Ready) == Passages(History(l.log, q), Running, Ready)
  {
    ScheduleIndependentProgress(k, p);
    ScheduleIndependentProgress(l, q);
    DispatchCount(k, p);
    DispatchCount(l, q);
    PreemptionCount(k, p);
    PreemptionCount(l, q);
  }

  /** A terminated process was dispatched once per slice of each of its CPU bursts, whoever else
      was there: the sum of ceil(burst / slice). */
  lemma DispatchCount(k: System, p: Pid)
    requires Reachable(k) && p in k.procs && k.procs[p].state == Terminated
    ensures p in k.meta
    ensures Passages(History(k.log, p), Ready, Running) == BurstSlices(Cuts(k.meta[p]), Slice(k))
  {
    ReachableSound(k);
    LifeState(k, k.blocked, p);
    ScheduleIndependentProgress(k, p);
    FlowOfHistory(History(k.log, p));
    SlicesOfProgram(k.meta[p], Slice(k));
  }

  // The ticks of its program a process has behind it, the exit not counted.
  function BeforeExit(g: Program, used: int): int {
    if used < Finish(g) then used else Finish(g) - 1
  }

  lemma LifePreemptions(g: Program, slice: int, clock: int, v: Life)
    requires slice >= 1 && Sound(g, slice, clock, v)
    ensures Passages(v.hist, Running, Ready) == Expiries(g.profile, slice, BeforeExit(g, v.used))
  {
    FlowOfHistory(v.hist);
    if StateOf(v) == Running {
      PreemptionsWhileRunning(g, slice, v);
    } else {
      PreemptionsOffCpu(g, slice, v);
    }
  }

  lemma PreemptionsWhileRunning(g: Program, slice: int, v: Life)
    requires slice >= 1 && Flows(v.hist) && OnCourse(g, slice, v) && Tallied(g, slice, v) && StateOf(v) == Running
    ensures Passages(v.hist, Running, Ready) == Expiries(g.profile, slice, BeforeExit(g, v.used))
  {
    WhySlicesStart(g.profile, slice, v.used);
  }

  lemma PreemptionsOffCpu(g: Program, slice: int, v: Life)
    requires slice >= 1 && Flows(v.hist) && OnCourse(g, slice, v) && Tallied(g, slice, v) && StateOf(v) != Running
    ensures Passages(v.hist, Running, Ready) == Expiries(g.profile, slice, BeforeExit(g, v.used))
  {
    if v.used > 0 {
      WhySlicesStart(g.profile, slice, v.used - 1);
    }
  }

  /** A process has been preempted once for each tick of its program so far at which the quantum
      expires, whoever else was there. */
  lemma PreemptionCount(k: System, p: Pid)
    requires Reachable(k) && p in k.procs
    ensures p in k.meta
    ensures Passages(History(k.log, p), Running, Ready) ==
            Expiries(k.meta[p].profile, Slice(k), BeforeExit(k.meta[p], k.procs[p].used))
  {
    ReachableLife(k, p);
    LifePreemptions(k.meta[p], Slice(k), k.now, LifeOf(k, p));
  }

  /** A terminated process was never preempted exactly if each of its CPU bursts fits into one
      slice. For Round Robin this is the exact point where it behaves like FCFS. */
  lemma NeverPreemptedIff(k: System, p: Pid)
    requires Reachable(k) && p in k.procs && k.procs[p].state == Terminated
    ensures p in k.meta
    ensures Passages(History(k.log, p), Running, Ready) == 0 <==> Fits(k.meta[p], Slice(k))
  {
    PreemptionCount(k, p);
    ScheduleIndependentProgress(k, p);
    NoExpiryIff(k.meta[p], Slice(k), Passages(History(k.log, p), Running, Ready));
  }

  lemma NoExpiryIff(g: Program, slice: int, preempted: nat)
    requires slice >= 1 && preempted == Expiries(g.profile, slice, BeforeExit(g, Finish(g)))
    ensures preempted == 0 <==> Fits(g, slice)
  {
    FitsIffNoExpiry(g, slice);
  }

  lemma ShortFits(g: Program, slice: int)
    requires Finish(g) <= slice
    ensures Fits(g, slice)
  {
    forall a | 0 <= a < Finish(g) && IsStart(g.profile, a)
      ensures EndsWithin(g, a, slice)
    {
      assert IsEnd(g, Finish(g));
    }
  }

  /** FCFS preempts nobody whose CPU bursts stay within the largest 32-bit integer: a program that exits by then is
      never preempted, and a terminated process was never preempted exactly if none of its bursts is longer. */
  lemma FcfsNeverPreempts(k: System, p: Pid)
    requires Reachable(k) && k.policy == FCFS && p in k.procs
    ensures p in k.meta
    ensures Finish(k.meta[p]) <= 2147483647 ==> Passages(History(k.log, p), Running, Ready) == 0
    ensures k.procs[p].state == Terminated ==>
      (Passages(History(k.log, p), Running, Ready) == 0 <==> Fits(k.meta[p], 2147483647))
  {
    PreemptionCount(k, p);
    ScheduleIndependentProgress(k, p);
    if Finish(k.meta[p]) <= 2147483647 {
      ShortFits(k.meta[p], Slice(k));
      UsedUpTo(k, p);
      FitsMeansNoExpiry(k.meta[p], Slice(k), BeforeExit(k.meta[p], k.procs[p].used));
    }
    if k.procs[p].state == Terminated {
      NeverPreemptedIff(k, p);
    }
  }

  lemma UsedUpTo(k: System, p: Pid)
    requires Reachable(k) && p in k.procs && p in k.meta
    ensures 0 <= BeforeExit(k.meta[p], k.procs[p].used) < Finish(k.meta[p])
  {
    ReachableSound(k);
    assert Progressed(k, p);
  }

  // ---------- the transitions ----------

  /** No transition is valid in TERMINATED, so that a terminated process keeps its state, its CPU time and its history
      whatever happens. */
  lemma {:induction false} TerminatedForGood(k: System, inputs: seq<Input>, p: Pid)
    requires Inv(k) && LegalRun(k, inputs) && p in k.procs && k.procs[p].state == Terminated
    ensures var l := Exec(k, inputs);
      && p in l.procs && l.procs[p].state == Terminated && l.procs[p].used == k.procs[p].used
      && History(l.log, p) == History(k.log, p)
    decreases inputs
  {
    if inputs != [] {
      ApplyStep(k, inputs[0]);
      TerminatedStays(k, inputs[0], p);
      TerminatedForGood(Apply(k, inputs[0]), inputs[1..], p);
    }
  }

  lemma TerminatedStays(k: System, i: Input, p: Pid)
    requires Inv(k) && Legal(k, i) && p in k.procs && k.procs[p].state == Terminated
    ensures var k' := Apply(k, i);
      && p in k'.procs && k'.procs[p].state == Terminated && k'.procs[p].used == k.procs[p].used
      && History(k'.log, p) == History(k.log, p)
  {
    var k' := Apply(k, i);
    ApplyStep(k, i);
    ApplyLife(k, i, p);
    LifeState(k, k.blocked, p);
    LifeState(k', k'.blocked, p);
    assert LifeOf(k', p) == LifeOf(k, p);
  }
}
