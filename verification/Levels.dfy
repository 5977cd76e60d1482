/** Priority scheduling with ties: each priority is a queue of its own, and the turn of a process comes
    after those ahead of it in the queue of the highest priority. */
module Levels {
  import opened Types
  import opened Machine
  import opened Consistency
  import opened Turns
  import opened Projection
  import opened Runs
  import opened Fifo
  import opened Priorities
  import opened Overtaking

  // The ready processes of priority c, in order.
  function Level(k: System, c: int): seq<Pid> {
    AtLevel(k.ready, k.procs, c)
  }

  lemma {:induction false} AtLevelAgrees(q: seq<Pid>, procs: map<Pid, Pcb>, procs': map<Pid, Pcb>, c: int)
    requires forall x | x in q :: PriorityOf(procs, x) == PriorityOf(procs', x)
    ensures AtLevel(q, procs, c) == AtLevel(q, procs', c)
    decreases |q|
  {
    if q != [] {
      AtLevelAgrees(q[1..], procs, procs', c);
    }
  }

  lemma {:induction false} AtLevelMember(q: seq<Pid>, procs: map<Pid, Pcb>, c: int, p: Pid)
    ensures p in AtLevel(q, procs, c) <==> p in q && PriorityOf(procs, p) == c
    decreases |q|
  {
    if q != [] {
      AtLevelMember(q[1..], procs, c, p);
    }
  }

  // ---------- one tick ----------

  lemma EnqueueAppendsToLevel(k: System, x: Pid, c: int)
    requires k.policy == Priority && Sorted(k)
    ensures Level(k, c) <= Level(Enqueue(k, x), c)
  {
    InsertAppendsToLevel(k.ready, k.procs, x, c);
  }

  lemma WakeAppendsToLevel(k: System, x: Pid, c: int)
    requires k.policy == Priority && Sorted(k)
    ensures Level(k, c) <= Level(Wake(k, x), c)
  {
    var m := Move(k, x, IoComplete);
    SortedMove(k, x, IoComplete);
    AtLevelAgrees(k.ready, k.procs, m.procs, c);
    EnqueueAppendsToLevel(m, x, c);
  }

  lemma {:induction false} WakingAppendsToLevel(k: System, completed: seq<Entry>, c: int)
    requires k.policy == Priority && Sorted(k)
    ensures Level(k, c) <= Level(WakeAll(k, completed), c)
    decreases |completed|
  {
    if completed != [] {
      var n := |completed| - 1;
      WakingAppendsToLevel(k, completed[..n], c);
      SortedWakeAll(k, completed[..n]);
      WakeAppendsToLevel(WakeAll(k, completed[..n]), completed[n].pid, c);
    }
  }

  lemma RetiredAppendsToLevel(w: System, v: System, c: int)
    requires w.policy == Priority && Sorted(w)
    requires w.cpu.Executing? && w.cpu.pid in w.procs && w.cpu.pid in w.meta
    requires RetiredAs(w, v, w.cpu.pid, Retired(w))
    ensures Level(w, c) <= Level(v, c)
  {
    EnqueueAppendsToLevel(w, w.cpu.pid, c);
    AtLevelAgrees(v.ready, w.procs, v.procs, c);
  }

  // What a turn does to a level: processes join at the end, and the front may be dispatched.
  ghost predicate Queues(k: System, k': System, c: int) {
    exists q :: Level(k, c) <= q && Becomes(q, k', c)
  }

  // The level is q, or q was the level and its front has been dispatched.
  ghost predicate Becomes(q: seq<Pid>, k: System, c: int) {
    || Level(k, c) == q
    || (q != [] && Level(k, c) == q[1..] && k.cpu.Executing? && k.cpu.pid == q[0])
  }

  lemma DispatchTakesFromLevel(v: System, d: System, c: int)
    requires v.policy == Priority && v.ready != []
    requires var p := v.ready[Selected(v)];
      && p in v.procs && d.procs == v.procs[p := v.procs[p].(state := Running)]
      && d.ready == Without(v.ready, Selected(v)) && d.cpu.Executing? && d.cpu.pid == p
    ensures Queues(v, d, c)
  {
    SelectTakesFromLevel(v.ready, v.procs, c);
    AtLevelAgrees(d.ready, v.procs, d.procs, c);
    var q := Level(v, c);
    if PriorityOf(v.procs, d.cpu.pid) == c {
      assert Level(d, c) == q[1..];
    }
    assert Becomes(q, d, c);
  }

  lemma QueuesOn(k: System, w: System, d: System, c: int)
    requires Level(k, c) <= Level(w, c) && Queues(w, d, c)
    ensures Queues(k, d, c)
  {
    var q :| Level(w, c) <= q && Becomes(q, d, c);
    assert Level(k, c) <= q;
  }

  lemma SettledQueues(w: System, c: int)
    requires Consistent(w, w.blocked) && w.policy == Priority && Sorted(w)
    ensures Queues(w, Settled(w), c)
  {
    var v := Retire(w);
    if w.cpu.Executing? {
      RetireStep(w);
      RetiredAppendsToLevel(w, v, c);
    }
    SettledEffect(w);
    if v.cpu.Idle? && v.ready != [] {
      DispatchTakesFromLevel(v, Settled(w), c);
      QueuesOn(w, v, Settled(w), c);
    } else {
      assert Becomes(Level(v, c), Settled(w), c);
    }
  }

  /** While the ready queue is in order it is one first come, first served queue per priority: in each tick
      processes join each of them at the end, and the dispatched one is the front of its own. */
  lemma LevelsAreQueues(k: System, now: int, pending: seq<Entry>, completed: seq<Entry>, c: int)
    requires Inv(k) && Legal(k, Elapse(now, pending, completed)) && k.policy == Priority && Sorted(k)
    ensures Queues(k, Tick(k, now, pending, completed), c)
  {
    var w := Roused(k, now, pending, completed);
    RousedStep(k, now, pending, completed);
    SortedWakeAll(k.(now := now, blocked := pending), completed);
    WakingAppendsToLevel(k.(now := now, blocked := pending), completed, c);
    SettledQueues(w, c);
    QueuesOn(k, w, Settled(w), c);
    TickStep(k, now, pending, completed);
    SameQueues(k, Settled(w), Tick(k, now, pending, completed), c);
  }

  lemma SameQueues(k: System, d: System, k': System, c: int)
    requires Queues(k, d, c) && k'.ready == d.ready && k'.procs == d.procs && k'.cpu == d.cpu
    ensures Queues(k, k', c)
  {
    var q :| Level(k, c) <= q && Becomes(q, d, c);
    assert Becomes(q, k', c);
  }

  // ---------- a place in the highest level, whatever the order of the queue ----------

  // The first n of the queue have priority c or more.
  ghost predicate FirstAtLeast(q: seq<Pid>, procs: map<Pid, Pcb>, n: nat, c: int) {
    n <= |q| && forall j | 0 <= j < n :: PriorityOf(procs, q[j]) >= c
  }

  // Nobody who is not above c can be inserted among them.
  lemma PrefixInsert(q: seq<Pid>, procs: map<Pid, Pcb>, n: nat, c: int, x: Pid)
    requires FirstAtLeast(q, procs, n, c) && PriorityOf(procs, x) <= c
    ensures q[..n] <= Insert(q, InsertionPoint(q, procs, PriorityOf(procs, x)), x)
  {
    var i := InsertionPoint(q, procs, PriorityOf(procs, x));
    assert i >= n;
    assert q[..i][..n] == q[..n];
  }

  lemma PrefixKept(q: seq<Pid>, q': seq<Pid>, procs: map<Pid, Pcb>, procs': map<Pid, Pcb>, n: nat, c: int)
    requires FirstAtLeast(q, procs, n, c) && q[..n] <= q' && SamePriorityMap(procs, procs')
    ensures FirstAtLeast(q', procs', n, c) && q'[..n] == q[..n]
  {
    assert forall j | 0 <= j < n :: q'[j] == q[..n][j];
  }

  lemma {:induction false} WakingKeepsPrefix(k: System, rest: seq<Entry>, completed: seq<Entry>, n: nat, c: int)
    requires Consistent(k, rest + completed) && k.policy == Priority && AtMost(k, c)
    requires FirstAtLeast(k.ready, k.procs, n, c)
    ensures var w := WakeAll(k, completed);
      k.ready[..n] <= w.ready && FirstAtLeast(w.ready, w.procs, n, c) && w.policy == k.policy
    decreases |completed|
  {
    if completed != [] {
      var i := |completed| - 1;
      var last := completed[i];
      LastAside(rest, completed);
      Reordered(k, rest + completed, (rest + [last]) + completed[..i]);
      WakingKeepsPrefix(k, rest + [last], completed[..i], n, c);
      var w := WakeAll(k, completed[..i]);
      WakingKeepsPriorities(k, completed[..i]);
      assert completed[i] in rest + completed;
      WokenPrefix(w, last.pid, n, c);
    }
  }

  lemma WokenPrefix(w: System, x: Pid, n: nat, c: int)
    requires w.policy == Priority && FirstAtLeast(w.ready, w.procs, n, c) && PriorityOf(w.procs, x) <= c
    ensures var k' := Wake(w, x);
      w.ready[..n] <= k'.ready && FirstAtLeast(k'.ready, k'.procs, n, c) && k'.policy == w.policy
  {
    var m := Move(w, x, IoComplete);
    SortedMove(w, x, IoComplete);
    PrefixKept(w.ready, m.ready, w.procs, m.procs, n, c);
    PrefixInsert(m.ready, m.procs, n, c, x);
    PrefixKept(m.ready, Wake(w, x).ready, m.procs, Wake(w, x).procs, n, c);
  }

  // One turn of the CPU, seen from a place in the queue: the event comes closer, or the front is dispatched.
  ghost predicate PrefixAdvanced(k: System, k': System, n: nat)
    requires n <= |k.ready|
  {
    k'.cpu.Executing? &&
    (|| (k.ready[..n] <= k'.ready && EventIn(k') <= EventIn(k) - 1)
     || (EventIn(k') == Slice(k) && exists q: seq<Pid> | k.ready[..n] <= q && q != [] ::
           k'.cpu.pid == q[0] && k'.ready == q[1..]))
  }

  // The queue after the running process was put back, if it was.
  lemma RetiredPrefix(w: System, v: System, n: nat, c: int)
    requires w.policy == Priority && AtMost(w, c) && FirstAtLeast(w.ready, w.procs, n, c)
    requires w.cpu.Executing? && w.cpu.pid in w.procs && w.cpu.pid in w.meta && w.procs[w.cpu.pid].state == Running
    requires RetiredAs(w, v, w.cpu.pid, Retired(w))
    ensures w.ready[..n] <= v.ready && FirstAtLeast(v.ready, v.procs, n, c) && AtMost(v, c)
  {
    PrefixInsert(w.ready, w.procs, n, c, w.cpu.pid);
    PrefixKept(w.ready, v.ready, w.procs, v.procs, n, c);
  }

  // A front that nobody is above is selected.
  lemma FrontSelected(v: System, n: nat, c: int)
    requires Consistent(v, v.blocked) && v.policy == Priority && AtMost(v, c)
    requires n >= 1 && FirstAtLeast(v.ready, v.procs, n, c)
    ensures v.ready != [] && Selected(v) == 0
  {
    var i := FirstMax(v.ready, v.procs);
    assert v.ready[i] in v.ready && v.procs[v.ready[i]].state == Ready;
    assert PriorityOf(v.procs, v.ready[i]) <= c <= PriorityOf(v.procs, v.ready[0]);
  }

  lemma SettledPrefix(w: System, n: nat, c: int)
    requires Consistent(w, w.blocked) && w.policy == Priority && AtMost(w, c)
    requires n >= 1 && FirstAtLeast(w.ready, w.procs, n, c)
    ensures PrefixAdvanced(w, Settled(w), n)
  {
    var v := Retire(w);
    if w.cpu.Executing? {
      RetireStep(w);
      RetiredPrefix(w, v, n, c);
    }
    FrontSelected(v, n, c);
    SettledEffect(w);
    SettledPrefixFrom(w, v, Settled(w), n);
  }

  lemma SettledPrefixFrom(w: System, v: System, d: System, n: nat)
    requires n <= |w.ready| && w.ready[..n] <= v.ready && v.ready != [] && Slice(v) == Slice(w)
    requires w.cpu.Executing? && v.cpu.Executing? ==>
               v.cpu == w.cpu.(remaining := w.cpu.remaining - 1) && v.cpu.remaining >= 1
    requires w.cpu.Idle? ==> v.cpu.Idle?
    requires if v.cpu.Idle? then
               && d.ready == Without(v.ready, 0)
               && d.cpu.Executing? && d.cpu.pid == v.ready[0] && d.cpu.remaining == Quantum(v)
             else d == v
    ensures PrefixAdvanced(w, d, n)
  {
    if v.cpu.Idle? {
      assert Without(v.ready, 0) == v.ready[1..];
    }
  }

  lemma RousedPrefix(k: System, now: int, pending: seq<Entry>, completed: seq<Entry>, n: nat, c: int)
    requires Inv(k) && Legal(k, Elapse(now, pending, completed)) && k.policy == Priority && AtMost(k, c)
    requires FirstAtLeast(k.ready, k.procs, n, c)
    ensures var w := Roused(k, now, pending, completed);
      k.ready[..n] <= w.ready && FirstAtLeast(w.ready, w.procs, n, c) && AtMost(w, c)
  {
    var m := k.(now := now, blocked := pending);
    Reordered(k, k.blocked, pending + completed);
    ConsistentFrame(k, m, pending + completed);
    WakingKeepsPrefix(m, pending, completed, n, c);
    RousedAlike(k, now, pending, completed);
  }

  lemma PrefixTick(k: System, now: int, pending: seq<Entry>, completed: seq<Entry>, n: nat, c: int)
    requires Inv(k) && Legal(k, Elapse(now, pending, completed)) && k.policy == Priority && AtMost(k, c)
    requires n >= 1 && FirstAtLeast(k.ready, k.procs, n, c)
    ensures PrefixAdvanced(k, Tick(k, now, pending, completed), n)
  {
    RousedSettledPrefix(k, now, pending, completed, n, c);
    TickStep(k, now, pending, completed);
    SamePrefix(k, Settled(Roused(k, now, pending, completed)), Tick(k, now, pending, completed), n);
  }

  lemma RousedSettledPrefix(k: System, now: int, pending: seq<Entry>, completed: seq<Entry>, n: nat, c: int)
    requires Inv(k) && Legal(k, Elapse(now, pending, completed)) && k.policy == Priority && AtMost(k, c)
    requires n >= 1 && FirstAtLeast(k.ready, k.procs, n, c)
    ensures PrefixAdvanced(k, Settled(Roused(k, now, pending, completed)), n)
  {
    var w := Roused(k, now, pending, completed);
    RousedStep(k, now, pending, completed);
    RousedPrefix(k, now, pending, completed, n, c);
    SettledPrefix(w, n, c);
    PrefixFrame(k, w, Settled(w), n);
  }

  lemma SamePrefix(k: System, d: System, k': System, n: nat)
    requires n <= |k.ready| && PrefixAdvanced(k, d, n) && k'.ready == d.ready && k'.cpu == d.cpu
    ensures PrefixAdvanced(k, k', n)
  {
  }

  lemma PrefixFrame(k: System, w: System, d: System, n: nat)
    requires n <= |k.ready| && k.ready[..n] <= w.ready && w.cpu == k.cpu && Slice(w) == Slice(k)
    requires PrefixAdvanced(w, d, n)
    ensures PrefixAdvanced(k, d, n)
  {
    assert w.ready[..n] == k.ready[..n];
  }

  lemma TickKeepsPriorities(k: System, now: int, pending: seq<Entry>, completed: seq<Entry>)
    requires Inv(k) && Legal(k, Elapse(now, pending, completed))
    ensures SamePriorityMap(k.procs, Tick(k, now, pending, completed).procs)
  {
    RousedStep(k, now, pending, completed);
    WakingKeepsPriorities(k.(now := now, blocked := pending), completed);
    SettledKeepsPriorities(Roused(k, now, pending, completed));
    TickStep(k, now, pending, completed);
  }

  // A tick either dispatches the process or brings its turn closer; nobody new comes before it.
  lemma PrefixCloser(k: System, k': System, u: nat, c: int) returns (u': nat)
    requires u < |k.ready| && PrefixAdvanced(k, k', u + 1) && Slice(k') == Slice(k)
    requires FirstAtLeast(k.ready, k.procs, u + 1, c) && SamePriorityMap(k.procs, k'.procs)
    ensures || (k'.cpu.Executing? && k'.cpu.pid == k.ready[u])
            || (&& u' < |k'.ready| && k'.ready[u'] == k.ready[u] && WaitAt(k', u') < WaitAt(k, u)
                && FirstAtLeast(k'.ready, k'.procs, u' + 1, c))
  {
    u' := u;
    if k.ready[..u + 1] <= k'.ready && EventIn(k') <= EventIn(k) - 1 {
      PrefixKept(k.ready, k'.ready, k.procs, k'.procs, u + 1, c);
      assert k'.ready[..u + 1][u] == k.ready[..u + 1][u];
    } else {
      var q: seq<Pid> :| k.ready[..u + 1] <= q && q != [] && k'.cpu.pid == q[0] && k'.ready == q[1..];
      assert forall j | 0 <= j <= u :: q[j] == k.ready[..u + 1][j];
      if u > 0 {
        u' := u - 1;
        assert (u - 1) * Slice(k) == u * Slice(k) - Slice(k);
        assert forall j | 0 <= j <= u' :: k'.ready[j] == k.ready[j + 1];
      }
    }
  }

  // ---------- runs ----------

  // In every state of the run, nobody alive has a priority above c.
  ghost predicate StaysAtMost(k: System, inputs: seq<Input>, c: int)
    decreases inputs
  {
    AtMost(k, c) && (inputs == [] || StaysAtMost(Apply(k, inputs[0]), inputs[1..], c))
  }

  // As long as a is ready, no change of priority puts a, or somebody before it, below c.
  ghost predicate StaysSheltered(k: System, inputs: seq<Input>, a: Pid, c: int)
    decreases inputs
  {
    inputs == [] ||
    (&& (inputs[0].Prioritize? && a in k.ready ==>
           Sheltered(Apply(k, inputs[0]).ready, Apply(k, inputs[0]).procs, a, c))
     && StaysSheltered(Apply(k, inputs[0]), inputs[1..], a, c))
  }

  lemma OtherInputPrefix(k: System, i: Input, u: nat, c: int)
    requires Inv(k) && k.policy == Priority && !i.Elapse? && AtMost(Apply(k, i), c)
    requires u < |k.ready| && FirstAtLeast(k.ready, k.procs, u + 1, c)
    requires i.Prioritize? ==> Sheltered(Apply(k, i).ready, Apply(k, i).procs, k.ready[u], c)
    ensures var k' := Apply(k, i);
      u < |k'.ready| && k'.ready[u] == k.ready[u] && FirstAtLeast(k'.ready, k'.procs, u + 1, c)
  {
    if i.Run? {
      AdmissionPrefix(k, i.program, u, c);
    } else {
      ShelteredAt(k.ready, Apply(k, i).procs, k.ready[u], c, u);
    }
  }

  lemma AdmissionPrefix(k: System, g: Program, u: nat, c: int)
    requires Inv(k) && k.policy == Priority && AtMost(RunProgram(k, g), c)
    requires u < |k.ready| && FirstAtLeast(k.ready, k.procs, u + 1, c)
    ensures var k' := RunProgram(k, g);
      u < |k'.ready| && k'.ready[u] == k.ready[u] && FirstAtLeast(k'.ready, k'.procs, u + 1, c)
  {
    AdmitEffect(k, g);
    assert k.next !in k.procs;
    assert RunProgram(k, g).procs[k.next].state == Ready;
    JoinedPrefix(k.ready, RunProgram(k, g).ready, k.procs, RunProgram(k, g).procs, k.next, u, c);
  }

  lemma JoinedPrefix(q: seq<Pid>, q': seq<Pid>, procs: map<Pid, Pcb>, procs': map<Pid, Pcb>, x: Pid, u: nat, c: int)
    requires u < |q| && FirstAtLeast(q, procs, u + 1, c) && SamePriorityMap(procs, procs') && PriorityOf(procs', x) <= c
    requires q' == Insert(q, InsertionPoint(q, procs', PriorityOf(procs', x)), x)
    ensures u < |q'| && q'[u] == q[u] && FirstAtLeast(q', procs', u + 1, c)
  {
    PrefixInsert(q, procs', u + 1, c, x);
    PrefixKept(q, q', procs, procs', u + 1, c);
    assert q'[u] == q[..u + 1][u];
  }

  lemma TickCloser(k: System, i: Input, u: nat, c: int) returns (u': nat)
    requires Inv(k) && Legal(k, i) && i.Elapse? && k.policy == Priority && AtMost(k, c)
    requires u < |k.ready| && FirstAtLeast(k.ready, k.procs, u + 1, c)
    ensures var k' := Apply(k, i);
      || OnCpu(k', k.ready[u])
      || (&& u' < |k'.ready| && k'.ready[u'] == k.ready[u] && WaitAt(k', u') < WaitAt(k, u)
          && FirstAtLeast(k'.ready, k'.procs, u' + 1, c))
  {
    var k' := Apply(k, i);
    ApplyStep(k, i);
    PrefixTick(k, i.now, i.pending, i.completed, u + 1, c);
    TickKeepsPriorities(k, i.now, i.pending, i.completed);
    u' := PrefixCloser(k, k', u, c);
    CpuIsOnCpu(k', k.ready[u]);
  }

  lemma {:induction false} PlaceBound(k: System, inputs: seq<Input>, c: int, u: nat)
    requires Inv(k) && LegalRun(k, inputs) && k.policy == Priority && StaysAtMost(k, inputs, c)
    requires u < |k.ready| && FirstAtLeast(k.ready, k.procs, u + 1, c) && StaysSheltered(k, inputs, k.ready[u], c)
    requires Ticks(inputs) >= WaitAt(k, u)
    ensures GetsCpu(k, inputs, k.ready[u])
    decreases inputs
  {
    WaitPositive(k, u);
    var i := inputs[0];
    var k' := Apply(k, i);
    ApplyStep(k, i);
    if i.Elapse? {
      var u' := TickCloser(k, i, u, c);
      if !OnCpu(k', k.ready[u]) {
        PlaceBound(k', inputs[1..], c, u');
      }
    } else {
      OtherInputPrefix(k, i, u, c);
      PlaceBound(k', inputs[1..], c, u);
    }
  }

  // Those before a sheltered process of the highest priority are all of that priority.
  lemma LevelPlace(k: System, c: int, index: nat)
    requires Inv(k) && k.policy == Priority && AtMost(k, c) && index < |Level(k, c)|
    requires Sheltered(k.ready, k.procs, Level(k, c)[index], c)
    ensures index < |k.ready| && k.ready[index] == Level(k, c)[index]
    ensures FirstAtLeast(k.ready, k.procs, index + 1, c)
  {
    var a := Level(k, c)[index];
    var u :| 0 <= u < |k.ready| && k.ready[u] == a && forall j | 0 <= j <= u :: PriorityOf(k.procs, k.ready[j]) >= c;
    forall j | 0 <= j <= u
      ensures PriorityOf(k.procs, k.ready[j]) == c
    {
      assert k.ready[j] in k.ready && k.procs[k.ready[j]].state == Ready;
    }
    StartsLevel(k.ready, k.procs, u, c);
    AtLevelUnique(k.ready, k.procs, c);
    assert index == u;
  }

  lemma StartsLevel(q: seq<Pid>, procs: map<Pid, Pcb>, u: nat, c: int)
    requires u < |q| && forall j | 0 <= j <= u :: PriorityOf(procs, q[j]) == c
    ensures u < |AtLevel(q, procs, c)| && AtLevel(q, procs, c)[u] == q[u]
  {
    var first := q[..u + 1];
    AllAtLevel(first, procs, c);
    SplitLevel(q, procs, u + 1, c);
    assert first[u] == q[u];
  }

  lemma {:induction false} AllAtLevel(q: seq<Pid>, procs: map<Pid, Pcb>, c: int)
    requires forall p | p in q :: PriorityOf(procs, p) == c
    ensures AtLevel(q, procs, c) == q
    decreases |q|
  {
    if q != [] {
      AllAtLevel(q[1..], procs, c);
    }
  }

  lemma {:induction false} AtLevelUnique(q: seq<Pid>, procs: map<Pid, Pcb>, c: int)
    requires Unique(q)
    ensures Unique(AtLevel(q, procs, c))
    decreases |q|
  {
    if q != [] {
      AtLevelUnique(q[1..], procs, c);
      AtLevelMember(q[1..], procs, c, q[0]);
      assert q[0] !in q[1..];
    }
  }

  /** No starvation at the top under Priority: as long as nobody alive has a higher priority and nobody of lower
      priority stands before it, the process at index i of the highest level is dispatched within the ticks left of
      the running quantum plus i full quanta, whoever is admitted or woken. Ticks and admissions put nobody of lower
      priority before it; only a change of its own priority or of one before it can. */
  lemma LevelBound(k: System, inputs: seq<Input>, c: int, index: nat)
    requires Inv(k) && LegalRun(k, inputs) && k.policy == Priority && StaysAtMost(k, inputs, c)
    requires index < |Level(k, c)| && Sheltered(k.ready, k.procs, Level(k, c)[index], c)
    requires StaysSheltered(k, inputs, Level(k, c)[index], c)
    requires Ticks(inputs) >= WaitAt(k, index)
    ensures GetsCpu(k, inputs, Level(k, c)[index])
  {
    LevelPlace(k, c, index);
    PlaceBound(k, inputs, c, index);
  }
}
