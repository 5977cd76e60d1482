/** The exact tick in which each process of a syscall-free workload terminates under Round Robin. Rounds go
    through the processes in the order of their admission; each gives every live process one quantum. */
module RoundTimes {
  import opened Types
  import opened Programs
  import opened Slices
  import opened Sums
  import opened Machine
  import opened Consistency
  import opened Turns
  import opened Projection
  import opened Outcomes
  import opened Termination
  import opened Workloads
  import opened Fifo
  import opened Fairness

  /** The CPU time process j has used when process p terminates. With n the number of quanta p needs, those
      admitted before p have had n turns and those admitted after it n - 1. */
  function Share(gs: seq<Program>, slice: int, p: int, j: int): int
    requires slice >= 1 && 1 <= p <= |gs|
  {
    var n := CeilDiv(Finish(gs[p - 1]), slice);
    if !(1 <= j <= |gs|) then 0
    else if j < p then Min(Finish(gs[j - 1]), n * slice)
    else if j == p then Finish(gs[p - 1])
    else Min(Finish(gs[j - 1]), (n - 1) * slice)
  }

  // The tick in which process p terminates: one to dispatch the first process, then all the shares.
  function DoneAt(gs: seq<Program>, slice: int, p: int): int
    requires slice >= 1 && 1 <= p <= |gs|
  {
    1 + Sum(j => Share(gs, slice, p, j), |gs| + 1)
  }

  // ---------- rounds in the order of admission ----------

  // The queue: first m processes behind r in the order of admission, then some before it.
  ghost predicate Cyclic(q: seq<Pid>, m: nat, r: Pid) {
    && m <= |q|
    && (forall i | 0 <= i < |q| :: if i < m then q[i] > r else q[i] < r)
    && (forall i, j | 0 <= i < j < |q| && (j < m || i >= m) :: q[i] < q[j])
  }

  // Whoever is done was done in the turns it has had: in b + slice before r, in b behind it.
  ghost predicate DoneInTurns(k: System, b: int, r: Pid) {
    forall p | p in k.procs && p in k.meta && k.procs[p].used >= Finish(k.meta[p]) ::
      (p < r ==> Finish(k.meta[p]) <= b + Slice(k)) && (p > r ==> Finish(k.meta[p]) <= b)
  }

  ghost predicate Wave(k: System, b: int, m: nat, r: Pid) {
    && Round(k, b, m) && k.cpu.Executing? && k.cpu.pid == r
    && Cyclic(k.ready, m, r) && DoneInTurns(k, b, r)
  }

  // The front of the queue is next in the order, and the others stay in order behind it.
  lemma CyclicNext(q: seq<Pid>, m: nat, r: Pid)
    requires q != [] && m <= |q|
    requires forall i | 0 <= i < |q| :: if i < m then q[i] > r else q[i] <= r
    requires forall i, j | 0 <= i < j < |q| && (j < m || i >= m) :: q[i] < q[j]
    ensures if m > 0 then q[0] > r && Cyclic(q[1..], m - 1, q[0]) else q[0] <= r && Cyclic(q[1..], |q| - 1, q[0])
  {
    assert forall i | 0 <= i < |q| - 1 :: q[1..][i] == q[i + 1];
  }

  lemma CyclicRequeued(q: seq<Pid>, m: nat, r: Pid, back: bool)
    requires Cyclic(q, m, r)
    ensures var q' := if back then q + [r] else q;
      && (forall i | 0 <= i < |q'| :: if i < m then q'[i] > r else q'[i] <= r)
      && (forall i, j | 0 <= i < j < |q'| && (j < m || i >= m) :: q'[i] < q'[j])
  {
  }

  // What a quiet tick does to the CPU times.
  ghost predicate QuietStepUsed(k: System, k': System) {
    && k'.meta == k.meta && k'.procs.Keys == k.procs.Keys
    && (forall p | p in k.procs ::
          k'.procs[p].used == k.procs[p].used + if k.cpu.Executing? && k.cpu.pid == p then 1 else 0)
  }

  // The running process has used at most its turn of this round, this tick included.
  lemma DoneInTurnsOn(k: System, k': System, b: int, m: nat, r: Pid)
    requires Wave(k, b, m, r) && QuietStepUsed(k, k') && Slice(k') == Slice(k)
    ensures DoneInTurns(k', b, r)
    ensures r in k'.procs && r in k'.meta && k'.procs[r].used >= Finish(k'.meta[r]) ==>
      Finish(k'.meta[r]) <= b + Slice(k)
  {
    assert forall p | p in k'.procs && p in k'.meta && p != r :: k'.procs[p].used == k.procs[p].used;
  }

  // The next in order is dispatched: r' behind r in the same round, or the first of the next round.
  lemma DoneInTurnsNext(k: System, b: int, r: Pid, b': int, r': Pid)
    requires DoneInTurns(k, b, r)
    requires r in k.procs && r in k.meta && k.procs[r].used >= Finish(k.meta[r]) ==> Finish(k.meta[r]) <= b + Slice(k)
    requires if b' == b then r' > r else b' == b + Slice(k)
    ensures DoneInTurns(k, b', r')
  {
    assert Slice(k) >= 1;
  }

  lemma WaveOn(k: System, ready: seq<Pid>, b: int, m: nat, r: Pid)
    requires Round(k, b, m) && DoneInTurns(k, b, r) && Cyclic(ready, m, r)
    requires k.ready == ready && k.cpu.Executing? && k.cpu.pid == r
    ensures Wave(k, b, m, r)
  {
  }

  lemma WaveNext(k: System, ready: seq<Pid>, back: bool, b: int, m: nat, r: Pid, b': int, m': nat)
    requires Round(k, b', m') && DoneInTurns(k, b, r) && Cyclic(ready, m, r)
    requires r in k.procs && r in k.meta && k.procs[r].used >= Finish(k.meta[r]) ==> Finish(k.meta[r]) <= b + Slice(k)
    requires var q := if back then ready + [r] else ready;
      && q != [] && k.ready == q[1..] && k.cpu.Executing? && k.cpu.pid == q[0]
      && if m > 0 then b' == b && m' == m - 1 else b' == b + Slice(k) && m' == |q| - 1
    ensures Wave(k, b', m', k.cpu.pid)
  {
    CyclicRequeued(ready, m, r, back);
    CyclicNext(if back then ready + [r] else ready, m, r);
    DoneInTurnsNext(k, b, r, b', k.cpu.pid);
  }

  lemma NextWave(k: System, k': System, b: int, m: nat, r: Pid) returns (b': int, m': nat)
    requires Inv(k) && k.policy != Priority && QuietStep(k, k') && QuietStepUsed(k, k') && Slice(k') == Slice(k)
    requires Wave(k, b, m, r)
    ensures k'.cpu.Executing? ==> (b' == b || b' == b + Slice(k)) && Wave(k', b', m', k'.cpu.pid)
  {
    b', m' := NextRound(k, k', b, m);
    DoneInTurnsOn(k, k', b, m, r);
    if k'.cpu.Executing? {
      if Frees(k) {
        WaveNext(k', k.ready, Retired(k) == Ready, b, m, r, b', m');
      } else {
        WaveOn(k', k.ready, b, m, r);
      }
    }
  }

  // ---------- the CPU times in a round ----------

  // Everybody before the running process has used b' or is done, everybody behind it b.
  ghost predicate TurnsUsed(k: System, gs: seq<Program>, b: int, b': int, r: Pid) {
    && 1 <= r <= |gs|
    && (forall j | 1 <= j <= |gs| && j != r :: UsedBy(k, j) == Min(Finish(gs[j - 1]), if j < r then b' else b))
    && b <= UsedBy(k, r) < b' && UsedBy(k, r) < Finish(gs[r - 1])
  }

  // In round z that is z + 1 turns and z turns.
  ghost predicate TurnsHad(k: System, gs: seq<Program>, z: nat, r: Pid) {
    TurnsUsed(k, gs, z * Slice(k), (z + 1) * Slice(k), r)
  }

  ghost predicate Programmed(k: System, gs: seq<Program>) {
    && k.next == |gs| + 1
    && forall p | 1 <= p <= |gs| :: p in k.procs && p in k.meta && k.meta[p] == gs[p - 1]
  }

  lemma WaveTurns(k: System, gs: seq<Program>, z: nat, m: nat, r: Pid)
    requires Inv(k) && k.blocked == [] && Programmed(k, gs) && Wave(k, z * Slice(k), m, r)
    ensures TurnsHad(k, gs, z, r)
  {
    WaveUsed(k, gs, z * Slice(k), m, r);
    NextProduct(z, Slice(k));
  }

  lemma NextProduct(z: int, slice: int)
    ensures (z + 1) * slice == z * slice + slice
  {
  }

  lemma WaveUsed(k: System, gs: seq<Program>, b: int, m: nat, r: Pid)
    requires Inv(k) && k.blocked == [] && Programmed(k, gs) && Wave(k, b, m, r)
    ensures TurnsUsed(k, gs, b, b + Slice(k), r)
  {
    RunningInWave(k, b, m, r);
    forall j | 1 <= j <= |gs| && j != r
      ensures UsedBy(k, j) == Min(Finish(gs[j - 1]), if j < r then b + Slice(k) else b)
    {
      OneInWave(k, b, m, r, j);
    }
  }

  // The running process is within its turn.
  lemma RunningInWave(k: System, b: int, m: nat, r: Pid)
    requires Inv(k) && Wave(k, b, m, r)
    ensures r in k.procs && r in k.meta && 1 <= r < k.next
    ensures b <= k.procs[r].used < b + Slice(k) && k.procs[r].used < Finish(k.meta[r])
  {
    assert Progressed(k, r);
  }

  lemma OneInWave(k: System, b: int, m: nat, r: Pid, j: Pid)
    requires Inv(k) && k.blocked == [] && Wave(k, b, m, r) && j in k.procs && j != r
    ensures j in k.meta
    ensures k.procs[j].used == Min(Finish(k.meta[j]), if j < r then b + Slice(k) else b)
  {
    assert Placed(k, k.blocked, j) && Progressed(k, j);
    if k.procs[j].state == Ready {
      var i :| 0 <= i < |k.ready| && k.ready[i] == j;
    }
  }

  // ---------- shares ----------

  lemma Larger(x: int, y: int, slice: int)
    requires slice >= 1 && x < y
    ensures x * slice < y * slice
  {
    assert (y - x) * slice == y * slice - x * slice;
    assert (y - x - 1) * slice == (y - x) * slice - slice;
    assert (y - x - 1) * slice >= 0;
  }

  lemma Products(x: int, y: int, slice: int)
    requires slice >= 1
    ensures x < y <==> x * slice < y * slice
    ensures x <= y <==> x * slice <= y * slice
  {
    if x < y {
      Larger(x, y, slice);
    } else if x > y {
      Larger(y, x, slice);
    }
  }

  // The turns j has had in round z, with r running.
  function Had(z: nat, r: Pid, j: Pid): int {
    if j < r then z + 1 else z
  }

  // The turns j has had when p terminates after n turns of its own.
  function Due(n: nat, p: Pid, j: Pid): int {
    if j <= p then n else n - 1
  }

  // While p is not done, nobody has used more than its share.
  lemma WithinShare(k: System, gs: seq<Program>, z: nat, r: Pid, p: int, j: int)
    requires TurnsHad(k, gs, z, r) && 1 <= p <= |gs| && 1 <= j <= |gs| && UsedBy(k, p) < Finish(gs[p - 1])
    ensures UsedBy(k, j) <= Share(gs, Slice(k), p, j)
    ensures j == p ==> UsedBy(k, j) < Share(gs, Slice(k), p, j)
  {
    var s := Slice(k);
    var n := CeilDiv(Finish(gs[p - 1]), s);
    CeilDivIsCeiling(Finish(gs[p - 1]), s);
    TurnsBehind(UsedBy(k, p), Finish(gs[p - 1]), z, r, n, s, p, j);
    AtMostCap(UsedBy(k, j), Finish(gs[j - 1]), if j <= r then z + 1 else z, Due(n, p, j), s);
  }

  // A process that is not done after its turns has not had its last one.
  lemma TurnsBehind(used: int, f: int, z: nat, r: Pid, n: int, slice: int, p: Pid, j: Pid)
    requires slice >= 1 && used < f <= n * slice
    requires if p < r then used == Min(f, (z + 1) * slice) else z * slice <= used || used == Min(f, z * slice)
    ensures (if j <= r then z + 1 else z) <= Due(n, p, j)
  {
    Products(Had(z, r, p), n, slice);
  }

  lemma AtMostCap(used: int, f: int, had: int, due: int, slice: int)
    requires slice >= 1 && had <= due && used <= Min(f, had * slice)
    ensures used <= Min(f, due * slice)
  {
    Products(had, due, slice);
  }

  // Once p is done, everybody has used at least its share.
  lemma BeyondShare(k: System, gs: seq<Program>, z: nat, r: Pid, p: int, j: int)
    requires TurnsHad(k, gs, z, r) && 1 <= p <= |gs| && 1 <= j <= |gs| && UsedBy(k, p) == Finish(gs[p - 1])
    ensures UsedBy(k, j) >= Share(gs, Slice(k), p, j)
  {
    var s := Slice(k);
    var n := CeilDiv(Finish(gs[p - 1]), s);
    CeilDivIsCeiling(Finish(gs[p - 1]), s);
    Products(n - 1, Had(z, r, p), s);
    Products(Due(n, p, j), Had(z, r, j), s);
  }

  lemma AllWithinShares(k: System, gs: seq<Program>, z: nat, r: Pid, p: int)
    requires TurnsHad(k, gs, z, r) && k.next == |gs| + 1 && 1 <= p <= |gs| && UsedBy(k, p) < Finish(gs[p - 1])
    ensures 1 + TotalUsed(k) < DoneAt(gs, Slice(k), p)
  {
    var s := Slice(k);
    forall j | 1 <= j < k.next
      ensures UsedBy(k, j) <= Share(gs, s, p, j) && (j == p ==> UsedBy(k, j) < Share(gs, s, p, j))
    {
      WithinShare(k, gs, z, r, p, j);
    }
    SumLess(j => UsedBy(k, j), j => Share(gs, s, p, j), k.next, p);
  }

  lemma AllBeyondShares(k: System, gs: seq<Program>, z: nat, r: Pid, p: int)
    requires TurnsHad(k, gs, z, r) && k.next == |gs| + 1 && 1 <= p <= |gs| && UsedBy(k, p) == Finish(gs[p - 1])
    ensures 1 + TotalUsed(k) >= DoneAt(gs, Slice(k), p)
  {
    var s := Slice(k);
    forall j | 1 <= j < k.next
      ensures Share(gs, s, p, j) <= UsedBy(k, j)
    {
      BeyondShare(k, gs, z, r, p, j);
    }
    SumAtMost(j => Share(gs, s, p, j), j => UsedBy(k, j), k.next);
  }

  lemma TurnsDecide(k: System, gs: seq<Program>, z: nat, r: Pid, p: int)
    requires TurnsHad(k, gs, z, r) && k.next == |gs| + 1 && 1 <= p <= |gs| && UsedBy(k, p) <= Finish(gs[p - 1])
    ensures UsedBy(k, p) == Finish(gs[p - 1]) <==> 1 + TotalUsed(k) >= DoneAt(gs, Slice(k), p)
  {
    if UsedBy(k, p) == Finish(gs[p - 1]) {
      AllBeyondShares(k, gs, z, r, p);
    } else {
      AllWithinShares(k, gs, z, r, p);
    }
  }

  lemma ShareBounds(gs: seq<Program>, slice: int, p: int, j: int)
    requires slice >= 1 && 1 <= p <= |gs| && 1 <= j <= |gs|
    ensures 0 <= Share(gs, slice, p, j) <= Finish(gs[j - 1])
  {
    var n := CeilDiv(Finish(gs[p - 1]), slice);
    CeilDivIsCeiling(Finish(gs[p - 1]), slice);
    Products(0, n, slice);
    Products(0, n - 1, slice);
  }

  // ---------- runs ----------

  // After n >= 1 ticks: in round z, with no tick wasted but the first, or nobody is left.
  ghost predicate InTurn(k: System, gs: seq<Program>, n: int, z: nat, m: nat) {
    && Programmed(k, gs)
    && if k.cpu.Executing? then Wave(k, z * Slice(k), m, k.cpu.pid) && TotalUsed(k) == n - 1
       else k.ready == [] && TotalUsed(k) <= n - 1
  }

  lemma QuietUsed(k: System, k': System)
    requires Inv(k) && Inv(k') && NoSyscallNext(k) && QuietStep(k, k')
    ensures QuietStepUsed(k, k')
  {
    assert forall p :: p in k'.procs <==> p in k.procs;
  }

  lemma NextRoundIn(k: System, k': System, z: nat, m: nat) returns (z': nat, m': nat)
    requires Inv(k) && k.policy != Priority && QuietStep(k, k') && QuietStepUsed(k, k') && Slice(k') == Slice(k)
    requires k.cpu.Executing? && Wave(k, z * Slice(k), m, k.cpu.pid)
    ensures k'.cpu.Executing? ==> Wave(k', z' * Slice(k'), m', k'.cpu.pid)
  {
    var b';
    b', m' := NextWave(k, k', z * Slice(k), m, k.cpu.pid);
    z' := if b' == z * Slice(k) then z else z + 1;
    assert (z + 1) * Slice(k) == z * Slice(k) + Slice(k);
  }

  lemma QuietIdles(k: System, k': System)
    requires Inv(k) && NoSyscallNext(k) && QuietStep(k, k')
    ensures k'.cpu.Idle? ==> k'.ready == []
    ensures k.cpu.Idle? && k.ready == [] ==> k'.cpu.Idle?
  {
  }

  lemma StillProgrammed(k: System, k': System, gs: seq<Program>)
    requires Programmed(k, gs) && k'.next == k.next && QuietStepUsed(k, k')
    ensures Programmed(k', gs)
  {
  }

  lemma NextInTurn(k: System, k': System, gs: seq<Program>, n: int, z: nat, m: nat) returns (z': nat, m': nat)
    requires Inv(k) && Inv(k') && k.policy != Priority && NoSyscallNext(k) && QuietStep(k, k') && Slice(k') == Slice(k)
    requires TotalUsed(k') == TotalUsed(k) + if k.cpu.Executing? then 1 else 0
    requires InTurn(k, gs, n, z, m)
    ensures InTurn(k', gs, n + 1, z', m')
  {
    z', m' := z, m;
    QuietUsed(k, k');
    QuietIdles(k, k');
    StillProgrammed(k, k', gs);
    if k.cpu.Executing? {
      z', m' := NextRoundIn(k, k', z, m);
    }
  }

  lemma TickInTurn(k: System, i: Input, gs: seq<Program>, n: int, z: nat, m: nat) returns (z': nat, m': nat)
    requires Inv(k) && Lively(k) && AllSyscallFree(k) && k.policy != Priority && InTurn(k, gs, n, z, m)
    requires Legal(k, i) && i.Elapse?
    ensures var k' := Apply(k, i);
      && Inv(k') && Lively(k') && AllSyscallFree(k') && k'.policy == k.policy
      && InTurn(k', gs, n + 1, z', m')
  {
    QuietInput(k, i);
    TickUsed(k, i.now, i.pending, i.completed);
    z', m' := NextInTurn(k, Apply(k, i), gs, n, z, m);
  }

  lemma {:induction false} RunInTurn(k: System, inputs: seq<Input>, gs: seq<Program>, n: int, z: nat, m: nat)
    returns (z': nat, m': nat)
    requires Inv(k) && Lively(k) && AllSyscallFree(k) && k.policy != Priority && InTurn(k, gs, n, z, m)
    requires LegalRun(k, inputs) && TicksOnly(inputs)
    ensures InTurn(Exec(k, inputs), gs, n + |inputs|, z', m')
    decreases inputs
  {
    z', m' := z, m;
    if inputs != [] {
      z', m' := TickInTurn(k, inputs[0], gs, n, z, m);
      z', m' := RunInTurn(Apply(k, inputs[0]), inputs[1..], gs, n + 1, z', m');
    }
  }

  // The first tick dispatches the process admitted first.
  lemma FirstRound(k: System, k': System, n: nat)
    requires Inv(k) && k.policy != Priority && QuietStep(k, k') && Slice(k') == Slice(k)
    requires k.cpu.Idle? && k.ready == FirstPids(n) && n >= 1 && Round(k, 0, n)
    ensures k'.cpu.Executing? && Round(k', 0, n - 1) && Cyclic(k'.ready, n - 1, k'.cpu.pid)
  {
    var b, m := NextRound(k, k', 0, n);
    CyclicNext(k.ready, n, 0);
  }

  lemma NobodyDoneInTurns(k: System, k': System, r: Pid)
    requires k.cpu.Idle? && QuietStepUsed(k, k') && forall p | p in k.procs :: k.procs[p].used == 0
    ensures DoneInTurns(k', 0, r)
  {
  }

  lemma FirstInTurn(k: System, k': System, gs: seq<Program>)
    requires gs != [] && Programmed(k, gs) && TotalUsed(k') == 0 && k'.next == k.next && QuietStepUsed(k, k')
    requires k'.cpu.Executing? && DoneInTurns(k', 0, k'.cpu.pid)
    requires Round(k', 0, |gs| - 1) && Cyclic(k'.ready, |gs| - 1, k'.cpu.pid)
    ensures InTurn(k', gs, 1, 0, |gs| - 1)
  {
    StillProgrammed(k, k', gs);
    assert 0 * Slice(k') == 0;
  }

  lemma UntouchedInTurn(k: System, k': System, policy: SchedulingPolicy, quantum: int, gs: seq<Program>)
    requires Registered(k) && Untouched(k, policy, quantum, gs) && gs != []
    requires QuietStepUsed(k, k') && TotalUsed(k') == TotalUsed(k) && k'.next == k.next
    requires k'.cpu.Executing? && Round(k', 0, |gs| - 1) && Cyclic(k'.ready, |gs| - 1, k'.cpu.pid)
    ensures InTurn(k', gs, 1, 0, |gs| - 1)
  {
    UntouchedUnused(k, policy, quantum, gs);
    NobodyDoneInTurns(k, k', k'.cpu.pid);
    FirstInTurn(k, k', gs);
  }

  lemma LoadedInTurn(k: System, k': System, policy: SchedulingPolicy, quantum: int, gs: seq<Program>)
    requires Loaded(k, policy, quantum, gs) && policy != Priority && Round(k, 0, |gs|) && gs != []
    requires Inv(k') && QuietStep(k, k') && Slice(k') == Slice(k) && TotalUsed(k') == TotalUsed(k)
    ensures InTurn(k', gs, 1, 0, |gs| - 1)
  {
    FirstRound(k, k', |gs|);
    QuietUsed(k, k');
    UntouchedInTurn(k, k', policy, quantum, gs);
  }

  lemma IdleIsDone(k: System, p: Pid)
    requires Inv(k) && k.blocked == [] && k.cpu.Idle? && k.ready == [] && p in k.procs
    ensures p in k.meta && k.procs[p].state == Terminated && k.procs[p].used == Finish(k.meta[p])
  {
    assert Placed(k, k.blocked, p) && Progressed(k, p);
  }

  lemma AllSharesHad(k: System, gs: seq<Program>, p: int)
    requires Programmed(k, gs) && 1 <= p <= |gs|
    requires forall j | 1 <= j <= |gs| :: k.procs[j].used == Finish(gs[j - 1])
    ensures DoneAt(gs, Slice(k), p) <= 1 + TotalUsed(k)
  {
    var s := Slice(k);
    forall j | 1 <= j < k.next
      ensures Share(gs, s, p, j) <= UsedBy(k, j)
    {
      ShareBounds(gs, s, p, j);
    }
    SumAtMost(j => Share(gs, s, p, j), j => UsedBy(k, j), k.next);
  }

  lemma DoneInTurn(k: System, gs: seq<Program>, n: int, z: nat, m: nat, p: Pid)
    requires Inv(k) && k.blocked == [] && InTurn(k, gs, n, z, m) && 1 <= p <= |gs|
    ensures p in k.procs && (k.procs[p].state == Terminated <==> n >= DoneAt(gs, Slice(k), p))
  {
    assert Progressed(k, p);
    if k.cpu.Executing? {
      WaveTurns(k, gs, z, m, k.cpu.pid);
      TurnsDecide(k, gs, z, k.cpu.pid, p);
    } else {
      forall j | 1 <= j <= |gs|
        ensures k.procs[j].used == Finish(gs[j - 1]) && k.procs[j].state == Terminated
      {
        IdleIsDone(k, j);
      }
      AllSharesHad(k, gs, p);
    }
  }

  lemma NotDoneAtOnce(gs: seq<Program>, slice: int, p: int)
    requires slice >= 1 && 1 <= p <= |gs|
    ensures DoneAt(gs, slice, p) >= 1
  {
    forall j | 1 <= j < |gs| + 1
      ensures Share(gs, slice, p, j) >= 0
    {
      ShareBounds(gs, slice, p, j);
    }
    SumNonNegative(j => Share(gs, slice, p, j), |gs| + 1);
  }

  /** Completion times: with syscall-free programs admitted up front, Round Robin terminates process p in exactly
      the tick in which everybody has used its share: with n = ceil(F(p) / quantum) that is tick
      1 + sum over j < p of min(F(j), n * quantum) + F(p) + sum over j > p of min(F(j), (n - 1) * quantum). */
  lemma RoundRobinTimes(policy: SchedulingPolicy, quantum: int, gs: seq<Program>, inputs: seq<Input>, p: Pid)
    requires policy != Priority && (forall g | g in gs :: SyscallFree(g)) && 1 <= p <= |gs|
    requires LegalRun(Workload(policy, quantum, gs), inputs) && TicksOnly(inputs)
    ensures var slice := if policy == FCFS then INT_MAX else Max(1, quantum);
      var k := Exec(Workload(policy, quantum, gs), inputs);
      p in k.procs && (k.procs[p].state == Terminated <==> |inputs| >= DoneAt(gs, slice, p))
  {
    WorkloadLoaded(policy, quantum, gs);
    LoadedTimes(Workload(policy, quantum, gs), policy, quantum, gs, inputs, p);
  }

  // The tick that dispatches the first process is used by nobody.
  lemma FirstTickCounts(k: System, i: Input)
    requires Inv(k) && Lively(k) && AllSyscallFree(k) && k.policy != Priority && k.cpu.Idle?
    requires Legal(k, i) && i.Elapse?
    ensures var k' := Apply(k, i);
      && Inv(k') && Lively(k') && AllSyscallFree(k') && k'.policy == k.policy && Slice(k') == Slice(k)
      && QuietStep(k, k') && TotalUsed(k') == TotalUsed(k)
  {
    QuietInput(k, i);
    TickUsed(k, i.now, i.pending, i.completed);
  }

  lemma FirstTickInTurn(k: System, i: Input, policy: SchedulingPolicy, quantum: int, gs: seq<Program>)
    requires Loaded(k, policy, quantum, gs) && policy != Priority && Round(k, 0, |gs|) && AllSyscallFree(k) && gs != []
    requires Legal(k, i) && i.Elapse?
    ensures var k' := Apply(k, i);
      && Inv(k') && Lively(k') && AllSyscallFree(k') && k'.policy == k.policy
      && InTurn(k', gs, 1, 0, |gs| - 1)
  {
    FirstTickCounts(k, i);
    LoadedInTurn(k, Apply(k, i), policy, quantum, gs);
  }

  lemma LoadedRun(k: System, policy: SchedulingPolicy, quantum: int, gs: seq<Program>, inputs: seq<Input>)
    returns (z: nat, m: nat)
    requires Loaded(k, policy, quantum, gs) && policy != Priority && (forall g | g in gs :: SyscallFree(g)) && gs != []
    requires LegalRun(k, inputs) && TicksOnly(inputs) && inputs != []
    ensures InTurn(Exec(k, inputs), gs, |inputs|, z, m)
  {
    LoadedInRound(k, policy, quantum, gs);
    FirstTickInTurn(k, inputs[0], policy, quantum, gs);
    z, m := RunInTurn(Apply(k, inputs[0]), inputs[1..], gs, 1, 0, |gs| - 1);
  }

  lemma SameSlice(k: System, l: System)
    requires l.policy == k.policy && l.quantum == k.quantum
    ensures Slice(l) == Slice(k)
  {
  }

  // Nobody is ever blocked.
  lemma NobodyBlockedAfter(k: System, inputs: seq<Input>)
    requires Inv(k) && Lively(k) && AllSyscallFree(k) && LegalRun(k, inputs) && TicksOnly(inputs)
    ensures var l := Exec(k, inputs);
      Inv(l) && l.blocked == [] && Slice(l) == Slice(k)
  {
    var l := Exec(k, inputs);
    TickRun(k, inputs);
    NobodyBlocks(l);
    SameSlice(k, l);
  }

  lemma LoadedTimes(k: System, policy: SchedulingPolicy, quantum: int, gs: seq<Program>, inputs: seq<Input>, p: Pid)
    requires Loaded(k, policy, quantum, gs) && policy != Priority && (forall g | g in gs :: SyscallFree(g))
    requires LegalRun(k, inputs) && TicksOnly(inputs) && 1 <= p <= |gs|
    ensures var l := Exec(k, inputs);
      p in l.procs && (l.procs[p].state == Terminated <==> |inputs| >= DoneAt(gs, Slice(k), p))
  {
    if inputs == [] {
      NotDoneAtOnce(gs, Slice(k), p);
      NobodyDone(k, policy, quantum, gs, p);
    } else {
      LoadedInRound(k, policy, quantum, gs);
      NobodyBlockedAfter(k, inputs);
      var z, m := LoadedRun(k, policy, quantum, gs, inputs);
      DoneInTurn(Exec(k, inputs), gs, |inputs|, z, m, p);
    }
  }
}
