/** Priority scheduling: the order of the ready queue, who is dispatched, and how long a process of
    highest priority can be kept from the CPU. */
module Priorities {
  import opened Types
  import opened Machine
  import opened Consistency
  import opened Turns
  import opened Projection
  import opened Runs
  import opened Fifo

  ghost predicate Descending(q: seq<Pid>, procs: map<Pid, Pcb>) {
    forall i, j | 0 <= i < j < |q| :: PriorityOf(procs, q[i]) >= PriorityOf(procs, q[j])
  }

  ghost predicate SamePriorityMap(procs: map<Pid, Pcb>, procs': map<Pid, Pcb>) {
    forall p :: PriorityOf(procs, p) == PriorityOf(procs', p)
  }

  ghost predicate Sorted(k: System) {
    Descending(k.ready, k.procs)
  }

  // From an ordered queue the scan selects the front.
  lemma OrderedFront(q: seq<Pid>, procs: map<Pid, Pcb>)
    requires q != [] && Descending(q, procs)
    ensures FirstMax(q, procs) == 0
  {
  }

  // ---------- the order is kept ----------

  lemma DescendingInsert(q: seq<Pid>, procs: map<Pid, Pcb>, p: Pid)
    requires Descending(q, procs)
    ensures Descending(Insert(q, InsertionPoint(q, procs, PriorityOf(procs, p)), p), procs)
  {
    var i := InsertionPoint(q, procs, PriorityOf(procs, p));
    DescendingAround(q, procs, i, p);
  }

  lemma DescendingAround(q: seq<Pid>, procs: map<Pid, Pcb>, i: nat, p: Pid)
    requires Descending(q, procs) && i <= |q|
    requires forall j | 0 <= j < i :: PriorityOf(procs, q[j]) >= PriorityOf(procs, p)
    requires i < |q| ==> PriorityOf(procs, q[i]) < PriorityOf(procs, p)
    ensures Descending(Insert(q, i, p), procs)
  {
    var r := Insert(q, i, p);
    forall a, b | 0 <= a < b < |r|
      ensures PriorityOf(procs, r[a]) >= PriorityOf(procs, r[b])
    {
      assert a < i ==> r[a] == q[a];
      assert b > i ==> r[b] == q[b - 1] && PriorityOf(procs, q[i]) >= PriorityOf(procs, q[b - 1]);
      assert a > i ==> r[a] == q[a - 1];
      assert b < i ==> r[b] == q[b];
    }
  }

  lemma DescendingWithout(q: seq<Pid>, procs: map<Pid, Pcb>, i: nat)
    requires Descending(q, procs) && i < |q|
    ensures Descending(Without(q, i), procs)
  {
    var r := Without(q, i);
    assert forall j | 0 <= j < |r| :: r[j] == if j < i then q[j] else q[j + 1];
  }

  lemma SortedMove(k: System, p: Pid, t: StateTransition)
    ensures Move(k, p, t).ready == k.ready && Move(k, p, t).policy == k.policy
    ensures SamePriorityMap(k.procs, Move(k, p, t).procs)
  {
  }

  lemma SortedWake(k: System, p: Pid)
    requires k.policy == Priority && Sorted(k)
    ensures var k' := Wake(k, p);
      k'.policy == Priority && Sorted(k') && SamePriorityMap(k.procs, k'.procs)
  {
    SortedMove(k, p, IoComplete);
    DescendingInsert(Move(k, p, IoComplete).ready, Move(k, p, IoComplete).procs, p);
  }

  lemma {:induction false} SortedWakeAll(k: System, completed: seq<Entry>)
    requires k.policy == Priority && Sorted(k)
    ensures var k' := WakeAll(k, completed);
      k'.policy == Priority && Sorted(k') && SamePriorityMap(k.procs, k'.procs)
    decreases |completed|
  {
    if completed != [] {
      var n := |completed| - 1;
      SortedWakeAll(k, completed[..n]);
      SortedWake(WakeAll(k, completed[..n]), completed[n].pid);
    }
  }

  lemma SortedExecute(k: System)
    ensures ExecuteTick(k).ready == k.ready && ExecuteTick(k).policy == k.policy
    ensures SamePriorityMap(k.procs, ExecuteTick(k).procs)
  {
  }

  lemma SortedVacate(k: System, e: Option<KernelEvent>)
    requires k.policy == Priority && Sorted(k)
    ensures var k' := Vacate(k, e);
      k'.policy == Priority && Sorted(k') && SamePriorityMap(k.procs, k'.procs)
  {
    if k.cpu.Executing? {
      match e {
        case Some(SyscallBlock) => SortedMove(k, k.cpu.pid, BlockingSyscall);
        case Some(ProcessExit) => SortedMove(k, k.cpu.pid, Exit);
        case Some(QuantumExpired) =>
          SortedMove(k, k.cpu.pid, StateTransition.QuantumExpired);
          SortedEnqueue(Move(k, k.cpu.pid, StateTransition.QuantumExpired).(cpu := Idle), k.cpu.pid);
        case _ =>
      }
    }
  }

  lemma SortedEnqueue(k: System, p: Pid)
    requires k.policy == Priority && Sorted(k)
    ensures var k' := Enqueue(k, p);
      k'.policy == Priority && Sorted(k') && k'.procs == k.procs
  {
    DescendingInsert(k.ready, k.procs, p);
  }

  lemma SortedDispatch(k: System)
    requires k.policy == Priority && Sorted(k)
    ensures var k' := DispatchNext(k);
      Sorted(k') && SamePriorityMap(k.procs, k'.procs)
  {
    if k.ready != [] {
      var i := Selected(k);
      DescendingWithout(k.ready, k.procs, i);
      SortedMove(k.(ready := Without(k.ready, i)), k.ready[i], Dispatch);
    }
  }

  lemma SortedTurn(w: System)
    requires w.policy == Priority && Sorted(w)
    ensures Sorted(Turn(w))
  {
    var x := ExecuteTick(w);
    SortedExecute(w);
    SortedVacate(x, RaisedEvent(x));
    SortedDispatch(Vacate(x, RaisedEvent(x)));
  }

  lemma SortedTick(k: System, now: int, pending: seq<Entry>, completed: seq<Entry>)
    requires k.policy == Priority && Sorted(k)
    ensures Sorted(Tick(k, now, pending, completed))
  {
    SortedWakeAll(k.(now := now, blocked := pending), completed);
    SortedTurn(Roused(k, now, pending, completed));
  }

  // No input of the run changes the priority of a process while it is ready.
  ghost predicate ReadyUntouched(k: System, inputs: seq<Input>)
    decreases inputs
  {
    inputs == [] ||
    (&& (inputs[0].Prioritize? ==> inputs[0].pid !in k.ready)
     && ReadyUntouched(Apply(k, inputs[0]), inputs[1..]))
  }

  lemma DescendingAgrees(q: seq<Pid>, procs: map<Pid, Pcb>, procs': map<Pid, Pcb>)
    requires Descending(q, procs) && forall p | p in q :: PriorityOf(procs, p) == PriorityOf(procs', p)
    ensures Descending(q, procs')
  {
    assert forall j | 0 <= j < |q| :: q[j] in q;
  }

  lemma SortedApply(k: System, i: Input)
    requires Inv(k) && k.policy == Priority && Sorted(k)
    requires i.Prioritize? ==> i.pid !in k.ready
    ensures Sorted(Apply(k, i))
  {
    match i {
      case Run(g) =>
        AdmitEffect(k, g);
        DescendingAgrees(k.ready, k.procs, k.procs[k.next := Newcomer(g)]);
        DescendingInsert(k.ready, k.procs[k.next := Newcomer(g)], k.next);
      case Prioritize(p, priority) => DescendingAgrees(k.ready, k.procs, SetPriority(k, p, priority).procs);
      case Elapse(now, pending, completed) => SortedTick(k, now, pending, completed);
    }
  }

  /** With no change of priority while a process is ready, the ready queue is in descending order in
      every state of a Priority run, so that the selection scan always finds the front. */
  lemma {:induction false} StaysSorted(k: System, inputs: seq<Input>)
    requires Inv(k) && k.policy == Priority && Sorted(k) && LegalRun(k, inputs) && ReadyUntouched(k, inputs)
    ensures var l := Exec(k, inputs);
      Sorted(l) && l.policy == Priority && (l.ready != [] ==> Selected(l) == 0)
    decreases inputs
  {
    if inputs == [] {
      if k.ready != [] {
        OrderedFront(k.ready, k.procs);
      }
    } else {
      ApplyStep(k, inputs[0]);
      SortedApply(k, inputs[0]);
      StaysSorted(Apply(k, inputs[0]), inputs[1..]);
    }
  }

  // ---------- first come, first served among equals ----------

  // The part of a queue with priority c, in order.
  function AtLevel(q: seq<Pid>, procs: map<Pid, Pcb>, c: int): seq<Pid> {
    if q == [] then []
    else (if PriorityOf(procs, q[0]) == c then [q[0]] else []) + AtLevel(q[1..], procs, c)
  }

  lemma {:induction false} AtLevelJoins(a: seq<Pid>, b: seq<Pid>, procs: map<Pid, Pcb>, c: int)
    ensures AtLevel(a + b, procs, c) == AtLevel(a, procs, c) + AtLevel(b, procs, c)
    decreases |a|
  {
    if a == [] {
      assert a + b == b;
    } else {
      AtLevelJoins(a[1..], b, procs, c);
      AtLevelFirst(a, b, procs, c);
      Associates(if PriorityOf(procs, a[0]) == c then [a[0]] else [],
                 AtLevel(a[1..], procs, c), AtLevel(b, procs, c));
    }
  }

  lemma AtLevelFirst(a: seq<Pid>, b: seq<Pid>, procs: map<Pid, Pcb>, c: int)
    requires a != []
    ensures AtLevel(a + b, procs, c) ==
            (if PriorityOf(procs, a[0]) == c then [a[0]] else []) + AtLevel(a[1..] + b, procs, c)
  {
    assert (a + b)[0] == a[0] && (a + b)[1..] == a[1..] + b;
  }

  lemma Associates(a: seq<Pid>, b: seq<Pid>, c: seq<Pid>)
    ensures a + (b + c) == (a + b) + c
  {
  }

  lemma {:induction false} NoneAtLevel(q: seq<Pid>, procs: map<Pid, Pcb>, c: int)
    requires forall p | p in q :: PriorityOf(procs, p) != c
    ensures AtLevel(q, procs, c) == []
    decreases |q|
  {
    if q != [] {
      NoneAtLevel(q[1..], procs, c);
    }
  }

  lemma LevelAround(a: seq<Pid>, x: Pid, b: seq<Pid>, procs: map<Pid, Pcb>, c: int)
    ensures AtLevel(a + [x] + b, procs, c) ==
            AtLevel(a, procs, c) + (if PriorityOf(procs, x) == c then [x] else []) + AtLevel(b, procs, c)
  {
    AtLevelJoins(a + [x], b, procs, c);
    AtLevelJoins(a, [x], procs, c);
  }

  lemma Commute(a: seq<Pid>, x: seq<Pid>, b: seq<Pid>)
    requires x == [] || b == []
    ensures a + x + b == (a + b) + x
  {
  }

  /** An ordered queue is one first come, first served queue per priority: inserting appends to the
      queue of its priority, selecting takes the front of the highest one, the others stay. */
  lemma InsertAppendsToLevel(q: seq<Pid>, procs: map<Pid, Pcb>, p: Pid, c: int)
    requires Descending(q, procs)
    ensures AtLevel(Insert(q, InsertionPoint(q, procs, PriorityOf(procs, p)), p), procs, c) ==
            AtLevel(q, procs, c) + if PriorityOf(procs, p) == c then [p] else []
  {
    var i := InsertionPoint(q, procs, PriorityOf(procs, p));
    var x := if PriorityOf(procs, p) == c then [p] else [];
    if PriorityOf(procs, p) == c {
      BelowInsertion(q, procs, i, c);
    }
    SplitLevel(q, procs, i, c);
    LevelAround(q[..i], p, q[i..], procs, c);
    Commute(AtLevel(q[..i], procs, c), x, AtLevel(q[i..], procs, c));
  }

  lemma SplitLevel(q: seq<Pid>, procs: map<Pid, Pcb>, i: nat, c: int)
    requires i <= |q|
    ensures AtLevel(q, procs, c) == AtLevel(q[..i], procs, c) + AtLevel(q[i..], procs, c)
  {
    assert q[..i] + q[i..] == q;
    AtLevelJoins(q[..i], q[i..], procs, c);
  }

  lemma BelowInsertion(q: seq<Pid>, procs: map<Pid, Pcb>, i: nat, c: int)
    requires Descending(q, procs) && i <= |q| && (i < |q| ==> PriorityOf(procs, q[i]) < c)
    ensures AtLevel(q[i..], procs, c) == []
  {
    forall p | p in q[i..]
      ensures PriorityOf(procs, p) != c
    {
      var j :| i <= j < |q| && q[j] == p;
      assert j > i ==> PriorityOf(procs, q[i]) >= PriorityOf(procs, q[j]);
    }
    NoneAtLevel(q[i..], procs, c);
  }

  lemma SelectTakesFromLevel(q: seq<Pid>, procs: map<Pid, Pcb>, c: int)
    requires q != []
    ensures var i := FirstMax(q, procs);
      AtLevel(q, procs, c) ==
      (if PriorityOf(procs, q[i]) == c then [q[i]] else []) + AtLevel(Without(q, i), procs, c)
  {
    TakeFromLevel(q, procs, FirstMax(q, procs), c);
  }

  lemma TakeFromLevel(q: seq<Pid>, procs: map<Pid, Pcb>, i: nat, c: int)
    requires i < |q| && forall j | 0 <= j < i :: PriorityOf(procs, q[j]) < PriorityOf(procs, q[i])
    ensures AtLevel(q, procs, c) ==
            (if PriorityOf(procs, q[i]) == c then [q[i]] else []) + AtLevel(Without(q, i), procs, c)
  {
    assert q[..i] + [q[i]] + q[i + 1..] == q;
    LevelAround(q[..i], q[i], q[i + 1..], procs, c);
    AtLevelJoins(q[..i], q[i + 1..], procs, c);
    if PriorityOf(procs, q[i]) == c {
      NoneAtLevel(q[..i], procs, c);
    }
  }

  // ---------- bounded inversion ----------

  // Everybody else alive has a lower priority than p.
  ghost predicate Highest(k: System, p: Pid) {
    && p in k.procs
    && forall q | q in k.procs && q != p && k.procs[q].state != Terminated :: k.procs[q].priority < k.procs[p].priority
  }

  ghost predicate Top(k: System, p: Pid) {
    Highest(k, p) && k.procs[p].state == Ready
  }

  // Nobody alive has a priority above c.
  ghost predicate AtMost(k: System, c: int) {
    forall q | q in k.procs && k.procs[q].state != Terminated :: k.procs[q].priority <= c
  }

  lemma WokenKeepsPriorities(k: System, p: Pid)
    ensures SamePriorityMap(k.procs, Wake(k, p).procs)
  {
  }

  lemma {:induction false} WakingKeepsPriorities(k: System, completed: seq<Entry>)
    ensures SamePriorityMap(k.procs, WakeAll(k, completed).procs)
    decreases |completed|
  {
    if completed != [] {
      var n := |completed| - 1;
      WakingKeepsPriorities(k, completed[..n]);
      WokenKeepsPriorities(WakeAll(k, completed[..n]), completed[n].pid);
    }
  }

  // The only process of its priority is selected.
  lemma TopIsSelected(k: System, p: Pid)
    requires Consistent(k, k.blocked) && k.policy == Priority && Top(k, p)
    ensures k.ready != [] && k.ready[Selected(k)] == p
  {
    assert Placed(k, k.blocked, p);
    var i := Selected(k);
    assert k.ready[i] in k.ready;
    var j :| 0 <= j < |k.ready| && k.ready[j] == p;
  }

  lemma TopTurn(k: System, p: Pid)
    requires Consistent(k, k.blocked) && k.policy == Priority && Top(k, p)
    ensures var d := Settled(k);
      d.cpu.Executing? && (d.cpu.pid == p || EventIn(d) < EventIn(k))
  {
    var v := Retire(k);
    if k.cpu.Executing? {
      RetireStep(k);
      TopRetired(k, v, p);
    }
    if v.cpu.Idle? {
      TopIsSelected(v, p);
    }
    SettledEffect(k);
    TopSettled(k, v, Settled(k), p);
  }

  lemma TopRetired(k: System, v: System, p: Pid)
    requires Located(k, k.blocked) && k.cpu.Executing? && k.cpu.pid in k.procs && k.cpu.pid in k.meta && Top(k, p)
    requires k.procs[k.cpu.pid].state == Running && RetiredAs(k, v, k.cpu.pid, Retired(k))
    ensures Top(v, p)
  {
  }

  lemma TopSettled(k: System, v: System, d: System, p: Pid)
    requires k.cpu.Idle? ==> v.cpu.Idle?
    requires k.cpu.Executing? && v.cpu.Executing? ==>
               v.cpu == k.cpu.(remaining := k.cpu.remaining - 1) && v.cpu.remaining >= 1
    requires if v.cpu.Idle? then d.cpu.Executing? && d.cpu.pid == p else d.cpu == v.cpu
    ensures d.cpu.Executing? && (d.cpu.pid == p || EventIn(d) < EventIn(k))
  {
  }

  // Waking changes nobody's priority and leaves the terminated terminated.
  lemma RousedAlike(k: System, now: int, pending: seq<Entry>, completed: seq<Entry>)
    requires Inv(k) && Legal(k, Elapse(now, pending, completed))
    ensures var w := Roused(k, now, pending, completed);
      forall q | q in w.procs :: q in k.procs && w.procs[q].priority == k.procs[q].priority
        && (k.procs[q].state != Blocked ==> w.procs[q].state == k.procs[q].state)
  {
    var w := Roused(k, now, pending, completed);
    RousedStep(k, now, pending, completed);
    WakingKeepsPriorities(k.(now := now, blocked := pending), completed);
    forall q | q in w.procs
      ensures q in k.procs && w.procs[q].priority == k.procs[q].priority
      ensures k.procs[q].state != Blocked ==> w.procs[q].state == k.procs[q].state
    {
      assert PriorityOf(k.procs, q) == PriorityOf(w.procs, q);
      RousedLife(k, now, pending, completed, q);
      LifeState(k, k.blocked, q);
      LifeState(w, w.blocked, q);
    }
  }

  lemma TopRoused(k: System, now: int, pending: seq<Entry>, completed: seq<Entry>, p: Pid)
    requires Inv(k) && Legal(k, Elapse(now, pending, completed)) && Top(k, p)
    ensures Top(Roused(k, now, pending, completed), p)
  {
    RousedStep(k, now, pending, completed);
    RousedAlike(k, now, pending, completed);
    RousedLife(k, now, pending, completed, p);
  }

  /** Per tick: the process of highest priority is dispatched, or the next event comes closer. */
  lemma TopTick(k: System, now: int, pending: seq<Entry>, completed: seq<Entry>, p: Pid)
    requires Inv(k) && k.policy == Priority && Legal(k, Elapse(now, pending, completed)) && Top(k, p)
    ensures var k' := Tick(k, now, pending, completed);
      k'.cpu.Executing? && (k'.cpu.pid == p || EventIn(k') < EventIn(k))
  {
    var w := Roused(k, now, pending, completed);
    RousedStep(k, now, pending, completed);
    TopRoused(k, now, pending, completed, p);
    TopTurn(w, p);
    TickStep(k, now, pending, completed);
  }

  // Process p has the highest priority in every state of the run, whoever is admitted or re-prioritised.
  ghost predicate StaysHighest(k: System, inputs: seq<Input>, p: Pid)
    decreases inputs
  {
    Highest(k, p) && (inputs == [] || StaysHighest(Apply(k, inputs[0]), inputs[1..], p))
  }

  // A ready process stays ready or gets the CPU.
  lemma ReadyOrRunning(k: System, i: Input, p: Pid)
    requires Inv(k) && Legal(k, i) && p in k.procs && k.procs[p].state == Ready
    ensures var k' := Apply(k, i);
      p in k'.procs && (k'.procs[p].state == Ready || k'.procs[p].state == Running)
  {
    ApplyStep(k, i);
    ApplyLife(k, i, p);
    LifeState(k, k.blocked, p);
    LifeState(Apply(k, i), Apply(k, i).blocked, p);
  }

  /** Priority inversion is bounded: a ready process of highest priority, however many others are
      admitted or woken, is dispatched within the ticks left of the running quantum. */
  lemma {:induction false} InversionBound(k: System, inputs: seq<Input>, p: Pid)
    requires Inv(k) && k.policy == Priority && LegalRun(k, inputs) && StaysHighest(k, inputs, p)
    requires k.procs[p].state == Ready && Ticks(inputs) >= EventIn(k)
    ensures GetsCpu(k, inputs, p)
    decreases inputs
  {
    var i := inputs[0];
    var k' := Apply(k, i);
    ApplyStep(k, i);
    ReadyOrRunning(k, i, p);
    if i.Elapse? {
      TopTick(k, i.now, i.pending, i.completed, p);
    }
    if !OnCpu(k', p) {
      InversionBound(k', inputs[1..], p);
    }
  }
}
