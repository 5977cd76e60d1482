/** The order of service: who is dispatched before whom, when exactly the order of arrival decides, and who
    gets the CPU in a tick. */
module Overtaking {
  import opened Types
  import opened Machine
  import opened Consistency
  import opened Turns
  import opened Projection
  import opened Runs
  import opened Fifo
  import opened Priorities

  ghost predicate Before(q: seq<Pid>, a: Pid, b: Pid) {
    exists i, j :: 0 <= i < j < |q| && q[i] == a && q[j] == b
  }

  // Process a is in the queue, and nobody up to it, itself included, has a priority below c.
  ghost predicate Sheltered(q: seq<Pid>, procs: map<Pid, Pcb>, a: Pid, c: int) {
    exists u :: 0 <= u < |q| && q[u] == a && forall j | 0 <= j <= u :: PriorityOf(procs, q[j]) >= c
  }

  // The policy does not prefer b to a.
  ghost predicate Yields(k: System, b: Pid, a: Pid) {
    k.policy == Priority ==> PriorityOf(k.procs, b) <= PriorityOf(k.procs, a)
  }

  // Priorities do not stand against the order of arrival of a and b. While b is not queued, that takes
  // more than Yields: somebody of lower priority before a would let b in before a.
  ghost predicate Fair(k: System, a: Pid, b: Pid) {
    if b in k.ready then Yields(k, b, a)
    else k.policy == Priority ==> Sheltered(k.ready, k.procs, a, PriorityOf(k.procs, b))
  }

  // Process a is ready; b is not, or stands behind it; and priorities do not matter to that.
  ghost predicate Ahead(k: System, a: Pid, b: Pid) {
    a in k.ready && (b in k.ready ==> Before(k.ready, a, b)) && Fair(k, a, b)
  }

  // ---------- queues ----------

  lemma BeforeInsert(q: seq<Pid>, i: nat, x: Pid, a: Pid, b: Pid)
    requires i <= |q| && Before(q, a, b)
    ensures Before(Insert(q, i, x), a, b)
  {
    var u, v :| 0 <= u < v < |q| && q[u] == a && q[v] == b;
    var r := Insert(q, i, x);
    var u', v' := if u < i then u else u + 1, if v < i then v else v + 1;
    assert r[u'] == a && r[v'] == b;
  }

  lemma BeforeWithout(q: seq<Pid>, i: nat, a: Pid, b: Pid)
    requires i < |q| && Before(q, a, b) && q[i] != a && q[i] != b
    ensures Before(Without(q, i), a, b)
  {
    var u, v :| 0 <= u < v < |q| && q[u] == a && q[v] == b;
    var r := Without(q, i);
    var u', v' := if u < i then u else u - 1, if v < i then v else v - 1;
    assert r[u'] == a && r[v'] == b;
  }

  lemma AppendedBehind(q: seq<Pid>, a: Pid, b: Pid)
    requires a in q
    ensures Before(q + [b], a, b)
  {
    var u :| 0 <= u < |q| && q[u] == a;
    assert (q + [b])[u] == a && (q + [b])[|q|] == b;
  }

  // Exactly the places before the insertion point have nobody below the priority up to them.
  lemma InsertionPointIff(q: seq<Pid>, procs: map<Pid, Pcb>, c: int, u: nat)
    requires u < |q|
    ensures u < InsertionPoint(q, procs, c) <==> forall j | 0 <= j <= u :: PriorityOf(procs, q[j]) >= c
  {
    var i := InsertionPoint(q, procs, c);
    assert i <= u ==> PriorityOf(procs, q[i]) < c;
  }

  /** A process that joins the ready queue by priority comes to stand behind a if and only if nobody of lower
      priority than its own stands before a, or is a. */
  lemma JoinsBehindIff(q: seq<Pid>, procs: map<Pid, Pcb>, a: Pid, b: Pid)
    requires Unique(q) && a in q && b !in q
    ensures var c := PriorityOf(procs, b);
      Before(Insert(q, InsertionPoint(q, procs, c), b), a, b) <==> Sheltered(q, procs, a, c)
  {
    var c := PriorityOf(procs, b);
    var u :| 0 <= u < |q| && q[u] == a;
    InsertionPointIff(q, procs, c, u);
    InsertedBehindIff(q, InsertionPoint(q, procs, c), a, b, u);
    ShelteredAt(q, procs, a, c, u);
  }

  lemma InsertedBehindIff(q: seq<Pid>, i: nat, a: Pid, b: Pid, u: nat)
    requires Unique(q) && u < |q| && q[u] == a && b !in q && i <= |q|
    ensures Before(Insert(q, i, b), a, b) <==> u < i
  {
    var r := Insert(q, i, b);
    if u < i {
      assert r[u] == a && r[i] == b;
    }
    if Before(r, a, b) {
      var x, y :| 0 <= x < y < |r| && r[x] == a && r[y] == b;
      OnlyInserted(q, i, b);
      assert y == i && r[x] == q[x];
    }
  }

  lemma OnlyInserted(q: seq<Pid>, i: nat, b: Pid)
    requires i <= |q| && b !in q
    ensures forall j | 0 <= j < |Insert(q, i, b)| && j != i :: Insert(q, i, b)[j] != b
  {
    var r := Insert(q, i, b);
    forall j | 0 <= j < |r| && j != i
      ensures r[j] != b
    {
      assert r[j] == q[if j < i then j else j - 1];
    }
  }

  // In a queue without repetitions there is only one place to look at.
  lemma ShelteredAt(q: seq<Pid>, procs: map<Pid, Pcb>, a: Pid, c: int, u: nat)
    requires Unique(q) && u < |q| && q[u] == a
    ensures Sheltered(q, procs, a, c) <==> forall j | 0 <= j <= u :: PriorityOf(procs, q[j]) >= c
  {
    if Sheltered(q, procs, a, c) {
      var x :| 0 <= x < |q| && q[x] == a && forall j | 0 <= j <= x :: PriorityOf(procs, q[j]) >= c;
      assert x == u;
    }
  }

  lemma ShelteredInsert(q: seq<Pid>, procs: map<Pid, Pcb>, x: Pid, a: Pid, c: int)
    requires Sheltered(q, procs, a, c)
    ensures Sheltered(Insert(q, InsertionPoint(q, procs, PriorityOf(procs, x)), x), procs, a, c)
  {
    var u :| 0 <= u < |q| && q[u] == a && forall j | 0 <= j <= u :: PriorityOf(procs, q[j]) >= c;
    var i := InsertionPoint(q, procs, PriorityOf(procs, x));
    var r := Insert(q, i, x);
    var u' := if u < i then u else u + 1;
    assert r[u'] == a;
    forall j | 0 <= j <= u'
      ensures PriorityOf(procs, r[j]) >= c
    {
      assert r[j] == if j < i then q[j] else if j == i then x else q[j - 1];
    }
  }

  lemma ShelteredWithout(q: seq<Pid>, procs: map<Pid, Pcb>, i: nat, a: Pid, c: int)
    requires i < |q| && Sheltered(q, procs, a, c) && q[i] != a
    ensures Sheltered(Without(q, i), procs, a, c)
  {
    var u :| 0 <= u < |q| && q[u] == a && forall j | 0 <= j <= u :: PriorityOf(procs, q[j]) >= c;
    var r := Without(q, i);
    var u' := if u < i then u else u - 1;
    assert r[u'] == a;
    assert forall j | 0 <= j <= u' :: r[j] == if j < i then q[j] else q[j + 1];
  }

  lemma ShelteredAgrees(q: seq<Pid>, procs: map<Pid, Pcb>, procs': map<Pid, Pcb>, a: Pid, c: int)
    requires Sheltered(q, procs, a, c) && SamePriorityMap(procs, procs')
    ensures Sheltered(q, procs', a, c)
  {
  }

  lemma ShelteredIn(q: seq<Pid>, procs: map<Pid, Pcb>, a: Pid, c: int)
    requires Sheltered(q, procs, a, c)
    ensures a in q && PriorityOf(procs, a) >= c
  {
  }

  // ---------- steps ----------

  lemma AheadAgrees(k: System, m: System, a: Pid, b: Pid)
    requires Ahead(k, a, b) && m.ready == k.ready && m.policy == k.policy && SamePriorityMap(k.procs, m.procs)
    ensures Ahead(m, a, b)
  {
    if k.policy == Priority && b !in k.ready {
      ShelteredAgrees(k.ready, k.procs, m.procs, a, PriorityOf(k.procs, b));
    }
  }

  lemma EnqueuedBefore(k: System, x: Pid, a: Pid, b: Pid)
    requires Before(k.ready, a, b)
    ensures Before(Enqueue(k, x).ready, a, b)
  {
    if k.policy == Priority {
      BeforeInsert(k.ready, InsertionPoint(k.ready, k.procs, PriorityOf(k.procs, x)), x, a, b);
    } else {
      BeforeInsert(k.ready, |k.ready|, x, a, b);
      assert Insert(k.ready, |k.ready|, x) == k.ready + [x];
    }
  }

  lemma JoinedBehind(k: System, a: Pid, b: Pid)
    requires Unique(k.ready) && Ahead(k, a, b) && b !in k.ready
    ensures Before(Enqueue(k, b).ready, a, b) && Yields(k, b, a)
  {
    if k.policy == Priority {
      JoinsBehindIff(k.ready, k.procs, a, b);
      ShelteredIn(k.ready, k.procs, a, PriorityOf(k.procs, b));
    } else {
      AppendedBehind(k.ready, a, b);
    }
  }

  // Whoever joins the queue, b itself included.
  lemma EnqueuedAhead(k: System, x: Pid, a: Pid, b: Pid)
    requires Unique(k.ready) && Ahead(k, a, b)
    ensures Ahead(Enqueue(k, x), a, b)
  {
    EnqueueFacts(k, x);
    if b in k.ready {
      EnqueuedBefore(k, x, a, b);
    } else if x == b {
      JoinedBehind(k, a, b);
    } else if k.policy == Priority {
      ShelteredInsert(k.ready, k.procs, x, a, PriorityOf(k.procs, b));
    }
  }

  // Of two queued processes the scheduler never selects the one behind first.
  lemma SelectedFirst(v: System, a: Pid, b: Pid)
    requires Unique(v.ready) && Before(v.ready, a, b) && Yields(v, b, a)
    ensures v.ready != [] && v.ready[Selected(v)] != b
  {
    var u, w :| 0 <= u < w < |v.ready| && v.ready[u] == a && v.ready[w] == b;
    assert Selected(v) != w;
  }

  lemma DispatchedAhead(v: System, a: Pid, b: Pid)
    requires v.ready != [] && Unique(v.ready) && Ahead(v, a, b) && a != b
    ensures var i := Selected(v);
      v.ready[i] != b && (v.ready[i] != a ==> Ahead(v.(ready := Without(v.ready, i)), a, b))
  {
    var i := Selected(v);
    WithoutFacts(v.ready, i);
    if b in v.ready {
      SelectedFirst(v, a, b);
      if v.ready[i] != a {
        BeforeWithout(v.ready, i, a, b);
      }
    } else if v.policy == Priority && v.ready[i] != a {
      ShelteredWithout(v.ready, v.procs, i, a, PriorityOf(v.procs, b));
    }
  }

  // ---------- one tick ----------

  lemma WokenAhead(k: System, x: Pid, a: Pid, b: Pid)
    requires Unique(k.ready) && Ahead(k, a, b)
    ensures Ahead(Wake(k, x), a, b)
  {
    var m := Move(k, x, IoComplete);
    SortedMove(k, x, IoComplete);
    AheadAgrees(k, m, a, b);
    EnqueuedAhead(m, x, a, b);
  }

  lemma {:induction false} WakingKeepsAhead(k: System, rest: seq<Entry>, completed: seq<Entry>, a: Pid, b: Pid)
    requires Consistent(k, rest + completed) && Ahead(k, a, b)
    ensures Ahead(WakeAll(k, completed), a, b)
    decreases |completed|
  {
    if completed != [] {
      var n := |completed| - 1;
      LastAside(rest, completed);
      Reordered(k, rest + completed, (rest + [completed[n]]) + completed[..n]);
      WakingKeepsAhead(k, rest + [completed[n]], completed[..n], a, b);
      WakeAllStep(k, rest + [completed[n]], completed[..n]);
      WokenAhead(WakeAll(k, completed[..n]), completed[n].pid, a, b);
    }
  }

  lemma RousedAhead(k: System, now: int, pending: seq<Entry>, completed: seq<Entry>, a: Pid, b: Pid)
    requires Inv(k) && Legal(k, Elapse(now, pending, completed)) && Ahead(k, a, b)
    ensures Ahead(Roused(k, now, pending, completed), a, b)
  {
    var c := k.(now := now, blocked := pending);
    Reordered(k, k.blocked, pending + completed);
    ConsistentFrame(k, c, pending + completed);
    AheadAgrees(k, c, a, b);
    WakingKeepsAhead(c, pending, completed, a, b);
  }

  lemma ConsistentFrame(k: System, c: System, entries: seq<Entry>)
    requires Consistent(k, entries) && c == k.(blocked := c.blocked, now := c.now)
    ensures Consistent(c, entries)
  {
    LocatedFrame(k, c, entries);
    ToldFrame(k, c);
  }

  lemma RetiredAhead(w: System, v: System, a: Pid, b: Pid)
    requires w.cpu.Executing? && w.cpu.pid in w.procs && w.cpu.pid in w.meta && Unique(w.ready)
    requires RetiredAs(w, v, w.cpu.pid, Retired(w)) && Ahead(w, a, b)
    ensures Ahead(v, a, b)
  {
    if Retired(w) == Ready {
      EnqueuedAhead(w, w.cpu.pid, a, b);
      AheadAgrees(Enqueue(w, w.cpu.pid), v, a, b);
    } else {
      AheadAgrees(w, v, a, b);
    }
  }

  // Process a has got the CPU, or is still ahead of b and b has not got it.
  ghost predicate ServedOrAhead(d: System, a: Pid, b: Pid) {
    || (d.cpu.Executing? && d.cpu.pid == a)
    || (Ahead(d, a, b) && (d.cpu.Executing? ==> d.cpu.pid != b))
  }

  // The CPU part of a tick.
  lemma SettledAhead(w: System, a: Pid, b: Pid)
    requires Consistent(w, w.blocked) && Ahead(w, a, b) && a != b
    requires w.cpu.Executing? ==> w.cpu.pid != b
    ensures ServedOrAhead(Settled(w), a, b)
  {
    var v := Retire(w);
    if w.cpu.Executing? {
      RetireStep(w);
      RetiredAhead(w, v, a, b);
    }
    SettledEffect(w);
    if v.cpu.Idle? {
      DispatchedAhead(v, a, b);
      SettledAheadFrom(v, Settled(w), a, b);
    }
  }

  lemma SettledAheadFrom(v: System, d: System, a: Pid, b: Pid)
    requires v.ready != []
    requires var i := Selected(v);
      v.ready[i] != b && (v.ready[i] != a ==> Ahead(v.(ready := Without(v.ready, i)), a, b))
    requires var p := v.ready[Selected(v)];
      && p in v.procs
      && d.procs == v.procs[p := v.procs[p].(state := Running)] && d.policy == v.policy
      && d.ready == Without(v.ready, Selected(v)) && d.cpu.Executing? && d.cpu.pid == p
    ensures d.cpu.pid != b && (d.cpu.pid == a || Ahead(d, a, b))
  {
    if v.ready[Selected(v)] != a {
      AheadAgrees(v.(ready := d.ready), d, a, b);
    }
  }

  lemma TickAhead(k: System, now: int, pending: seq<Entry>, completed: seq<Entry>, a: Pid, b: Pid)
    requires Inv(k) && Legal(k, Elapse(now, pending, completed)) && Ahead(k, a, b) && a != b
    requires k.cpu.Executing? ==> k.cpu.pid != b
    ensures ServedOrAhead(Tick(k, now, pending, completed), a, b)
  {
    var w := Roused(k, now, pending, completed);
    RousedStep(k, now, pending, completed);
    RousedAhead(k, now, pending, completed, a, b);
    SettledAhead(w, a, b);
    TickStep(k, now, pending, completed);
    SameAhead(Settled(w), Tick(k, now, pending, completed), a, b);
  }

  lemma SameAhead(d: System, k': System, a: Pid, b: Pid)
    requires ServedOrAhead(d, a, b)
    requires k'.ready == d.ready && k'.procs == d.procs && k'.cpu == d.cpu && k'.policy == d.policy
    ensures ServedOrAhead(k', a, b)
  {
  }

  // ---------- any input ----------

  lemma CpuIsOnCpu(k: System, p: Pid)
    requires Inv(k)
    ensures OnCpu(k, p) <==> k.cpu.Executing? && k.cpu.pid == p
  {
    if p in k.procs {
      LifeState(k, k.blocked, p);
    }
  }

  lemma ElapseAhead(k: System, i: Input, a: Pid, b: Pid)
    requires Inv(k) && Legal(k, i) && i.Elapse? && Ahead(k, a, b) && a != b && !OnCpu(k, b)
    ensures var k' := Apply(k, i);
      OnCpu(k', a) || (Ahead(k', a, b) && !OnCpu(k', b))
  {
    var k' := Apply(k, i);
    TickStep(k, i.now, i.pending, i.completed);
    CpuIsOnCpu(k, b);
    TickAhead(k, i.now, i.pending, i.completed, a, b);
    CpuIsOnCpu(k', a);
    CpuIsOnCpu(k', b);
  }

  lemma AdmissionAhead(k: System, g: Program, a: Pid, b: Pid)
    requires Inv(k) && Ahead(k, a, b)
    ensures Ahead(RunProgram(k, g), a, b)
  {
    var m := k.(procs := k.procs[k.next := Newcomer(g)]);
    AdmitEffect(k, g);
    assert k.next !in k.procs;
    AheadAgrees(k, m, a, b);
    EnqueuedAhead(m, k.next, a, b);
    AheadAgrees(Enqueue(m, k.next), RunProgram(k, g), a, b);
  }

  // Only a change of priority can make priorities matter.
  lemma InputAhead(k: System, i: Input, a: Pid, b: Pid)
    requires Inv(k) && Legal(k, i) && Ahead(k, a, b) && a != b && !OnCpu(k, b)
    requires i.Prioritize? ==> Fair(Apply(k, i), a, b)
    ensures var k' := Apply(k, i);
      OnCpu(k', a) || (Ahead(k', a, b) && !OnCpu(k', b))
  {
    if i.Elapse? {
      ElapseAhead(k, i, a, b);
    } else {
      if i.Run? {
        AdmissionAhead(k, i.program, a, b);
      }
      ApplyStep(k, i);
      CpuIsOnCpu(k, b);
      CpuIsOnCpu(Apply(k, i), b);
    }
  }

  // ---------- runs ----------

  // In every state of the run the priority of b is at most that of a, if priorities matter at all.
  ghost predicate NeverAbove(k: System, inputs: seq<Input>, b: Pid, a: Pid)
    decreases inputs
  {
    (b in k.procs ==> Yields(k, b, a)) && (inputs == [] || NeverAbove(Apply(k, inputs[0]), inputs[1..], b, a))
  }

  // Each change of priority, as long as a is ready, leaves the order of a and b fair.
  ghost predicate StaysFair(k: System, inputs: seq<Input>, a: Pid, b: Pid)
    decreases inputs
  {
    inputs == [] ||
    (&& (inputs[0].Prioritize? && a in k.ready ==> Fair(Apply(k, inputs[0]), a, b))
     && StaysFair(Apply(k, inputs[0]), inputs[1..], a, b))
  }

  // Process b gets the CPU before a does.
  ghost predicate Overtakes(k: System, inputs: seq<Input>, b: Pid, a: Pid)
    decreases inputs
  {
    !OnCpu(k, a) && (OnCpu(k, b) || (inputs != [] && Overtakes(Apply(k, inputs[0]), inputs[1..], b, a)))
  }

  /** First come, first served among equals, over whole runs and under every policy: a process behind
      another one in the ready queue does not get the CPU before it, whoever is admitted, woken or
      re-prioritised meanwhile; under Priority, as long as its own priority is not higher. */
  lemma {:induction false} NoOvertaking(k: System, inputs: seq<Input>, a: Pid, b: Pid)
    requires Inv(k) && LegalRun(k, inputs) && Before(k.ready, a, b) && NeverAbove(k, inputs, b, a)
    ensures !Overtakes(k, inputs, b, a)
    decreases inputs
  {
    assert a != b && !OnCpu(k, b);
    if inputs != [] {
      var i := inputs[0];
      ApplyStep(k, i);
      StaysBehind(k, i, a, b);
      if !OnCpu(Apply(k, i), a) {
        NoOvertaking(Apply(k, i), inputs[1..], a, b);
      }
    }
  }

  lemma StaysBehind(k: System, i: Input, a: Pid, b: Pid)
    requires Inv(k) && Legal(k, i) && Before(k.ready, a, b) && a != b && Yields(k, b, a)
    requires b in Apply(k, i).procs ==> Yields(Apply(k, i), b, a)
    ensures var k' := Apply(k, i);
      OnCpu(k', a) || Before(k'.ready, a, b)
  {
    assert b in k.ready && !OnCpu(k, b);
    ApplyStep(k, i);
    InputAhead(k, i, a, b);
    ReadyOrRunning(k, i, b);
    if !OnCpu(Apply(k, i), a) {
      assert Placed(Apply(k, i), Apply(k, i).blocked, b);
    }
  }

  /** Whoever becomes ready first is served first, under every policy and whoever is admitted or woken
      meanwhile. Under Priority that takes more than a priority that is not higher: as long as b is not ready,
      nobody of lower priority than b may stand before a. Ticks and admissions cannot change that; a change of
      priority that would must not happen. */
  lemma {:induction false} FirstReadyFirstServed(k: System, inputs: seq<Input>, a: Pid, b: Pid)
    requires Inv(k) && LegalRun(k, inputs) && Ahead(k, a, b) && a != b && !OnCpu(k, b)
    requires k.policy == Priority ==> StaysFair(k, inputs, a, b)
    ensures !Overtakes(k, inputs, b, a)
    decreases inputs
  {
    assert !OnCpu(k, a) by {
      assert k.procs[a].state == Ready;
    }
    if inputs != [] {
      var i := inputs[0];
      ApplyStep(k, i);
      InputAhead(k, i, a, b);
      if !OnCpu(Apply(k, i), a) {
        FirstReadyFirstServed(Apply(k, i), inputs[1..], a, b);
      }
    }
  }

  // In an ordered queue every order is fair to a process that is not above.
  lemma OrderedIsFair(k: System, a: Pid, b: Pid)
    requires k.policy == Priority && Sorted(k) && a in k.ready && Yields(k, b, a)
    ensures Fair(k, a, b)
  {
    var u :| 0 <= u < |k.ready| && k.ready[u] == a;
    assert forall j | 0 <= j <= u :: PriorityOf(k.procs, k.ready[j]) >= PriorityOf(k.procs, k.ready[u]);
  }

  // ---------- who gets the CPU in a tick ----------

  // The place in the ready queue of v from which the policy takes the next process.
  ghost predicate Choice(v: System, i: nat) {
    && i < |v.ready|
    && if v.policy == Priority then
         && (forall j | 0 <= j < |v.ready| :: PriorityOf(v.procs, v.ready[j]) <= PriorityOf(v.procs, v.ready[i]))
         && (forall j | 0 <= j < i :: PriorityOf(v.procs, v.ready[j]) < PriorityOf(v.procs, v.ready[i]))
       else i == 0
  }

  // The CPU raises an event in this tick: it was idle, or its process stops running.
  predicate Event(w: System) {
    RaisedEvent(ExecuteTick(w)).Some?
  }

  lemma EventFrees(w: System)
    requires Consistent(w, w.blocked)
    ensures Event(w) <==> Retire(w).cpu.Idle?
    ensures !Event(w) ==>
      w.cpu.Executing? && Retire(w).cpu == w.cpu.(remaining := w.cpu.remaining - 1) && Retire(w).ready == w.ready
    ensures Retire(w).policy == w.policy && Retire(w).meta == w.meta && Quantum(Retire(w)) == Quantum(w)
  {
    if w.cpu.Executing? {
      assert Progressed(w, w.cpu.pid);
      RetireStep(w);
      ExecuteEffect(w);
    }
  }

  // The CPU part of a tick, seen from the queue the freed CPU finds.
  lemma SettledChoice(w: System)
    requires Consistent(w, w.blocked) && Event(w)
    ensures var v := Retire(w);
      var d := Settled(w);
      if v.ready == [] then d.cpu.Idle? && d.ready == []
      else exists i: nat | Choice(v, i) ::
        d.cpu.Executing? && d.cpu.pid == v.ready[i] && d.ready == Without(v.ready, i)
  {
    var v := Retire(w);
    EventFrees(w);
    SettledEffect(w);
    if v.ready != [] {
      assert Choice(v, Selected(v));
    }
  }

  /** What a tick does with the CPU. While it raises no event, it goes on with its process. Otherwise it
      gives the CPU to one of those who are ready then, woken and preempted ones included: under Priority to
      the earliest of highest priority, even if changes of priority have put the queue out of order; under
      Round Robin and FCFS to the front. It stays idle only if nobody is ready. */
  lemma TickDispatches(k: System, now: int, pending: seq<Entry>, completed: seq<Entry>)
    requires Inv(k) && Legal(k, Elapse(now, pending, completed))
    ensures var w := Roused(k, now, pending, completed);
      var v := Retire(w);
      var k' := Tick(k, now, pending, completed);
      if !Event(w) then
        k.cpu.Executing? && k'.cpu == k.cpu.(remaining := k.cpu.remaining - 1) && k'.ready == w.ready
      else if v.ready == [] then k'.cpu.Idle? && k'.ready == []
      else exists i: nat | Choice(v, i) ::
        k'.cpu.Executing? && k'.cpu.pid == v.ready[i] && k'.ready == Without(v.ready, i)
  {
    var w := Roused(k, now, pending, completed);
    RousedStep(k, now, pending, completed);
    TickStep(k, now, pending, completed);
    EventFrees(w);
    if Event(w) {
      SettledChoice(w);
    } else {
      SettledEffect(w);
    }
  }

  lemma RetiredKeepsPriorities(w: System)
    requires Consistent(w, w.blocked)
    ensures SamePriorityMap(w.procs, Retire(w).procs)
  {
    if w.cpu.Executing? {
      RetireStep(w);
      OneKeepsPriorities(w.procs, Retire(w).procs, w.cpu.pid);
    }
  }

  lemma OneKeepsPriorities(procs: map<Pid, Pcb>, procs': map<Pid, Pcb>, p: Pid)
    requires p in procs && p in procs' && procs' == procs[p := procs'[p]] && procs'[p].priority == procs[p].priority
    ensures SamePriorityMap(procs, procs')
  {
  }

  lemma SettledKeepsPriorities(w: System)
    requires Consistent(w, w.blocked)
    ensures SamePriorityMap(w.procs, Settled(w).procs)
  {
    var v := Retire(w);
    RetiredKeepsPriorities(w);
    SettledEffect(w);
    if v.cpu.Idle? && v.ready != [] {
      OneKeepsPriorities(v.procs, Settled(w).procs, v.ready[Selected(v)]);
    }
  }

  lemma ChosenIsMaximum(w: System)
    requires Consistent(w, w.blocked) && w.policy == Priority && Event(w)
    ensures var d := Settled(w);
      d.cpu.Executing? ==> forall r | r in d.ready :: PriorityOf(w.procs, r) <= PriorityOf(w.procs, d.cpu.pid)
  {
    var v := Retire(w);
    EventFrees(w);
    RetiredKeepsPriorities(w);
    SettledEffect(w);
    if v.ready != [] {
      MaximumOfRest(v.ready, v.procs, Selected(v));
    }
  }

  lemma MaximumOfRest(q: seq<Pid>, procs: map<Pid, Pcb>, i: nat)
    requires i < |q| && forall j | 0 <= j < |q| :: PriorityOf(procs, q[j]) <= PriorityOf(procs, q[i])
    ensures forall r | r in Without(q, i) :: PriorityOf(procs, r) <= PriorityOf(procs, q[i])
  {
    var rest := Without(q, i);
    forall r | r in rest
      ensures PriorityOf(procs, r) <= PriorityOf(procs, q[i])
    {
      var j :| 0 <= j < |rest| && rest[j] == r;
      assert q[if j < i then j else j + 1] == r;
    }
  }

  /** Under Priority, once the CPU was freed in a tick nobody who is ready after the tick has a higher
      priority than the process on the CPU. */
  lemma HighestRuns(k: System, now: int, pending: seq<Entry>, completed: seq<Entry>)
    requires Inv(k) && Legal(k, Elapse(now, pending, completed)) && k.policy == Priority
    requires Event(Roused(k, now, pending, completed))
    ensures var k' := Tick(k, now, pending, completed);
      k'.cpu.Executing? ==> forall r | r in k'.ready :: PriorityOf(k'.procs, r) <= PriorityOf(k'.procs, k'.cpu.pid)
  {
    var w := Roused(k, now, pending, completed);
    RousedStep(k, now, pending, completed);
    ChosenIsMaximum(w);
    SettledKeepsPriorities(w);
    TickStep(k, now, pending, completed);
  }
}
