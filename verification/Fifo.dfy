/** First come, first served queues: how a tick moves the ready queue under Round Robin and FCFS, and
    how long a ready process can be kept waiting. */
module Fifo {
  import opened Types
  import opened Machine
  import opened Consistency
  import opened Turns
  import opened Projection
  import opened Runs
  import opened Outcomes

  // The ticks until the CPU next raises an event, at most.
  function EventIn(k: System): int {
    if k.cpu.Executing? then Max(1, k.cpu.remaining) else 1
  }

  /** Under FCFS and Round Robin the woken processes are appended in the order in which they are woken. */
  lemma {:induction false} WakingAppends(k: System, completed: seq<Entry>)
    requires k.policy != Priority
    ensures WakeAll(k, completed).ready == k.ready + Waiting(completed)
    ensures WakeAll(k, completed).policy == k.policy
    decreases |completed|
  {
    if completed != [] {
      var n := |completed| - 1;
      WakingAppends(k, completed[..n]);
      WokenLast(WakeAll(k, completed[..n]), completed[n].pid);
      assert Waiting(completed) == Waiting(completed[..n]) + [completed[n].pid];
    }
  }

  lemma WokenLast(k: System, p: Pid)
    requires k.policy != Priority
    ensures Wake(k, p).ready == k.ready + [p] && Wake(k, p).policy == k.policy
  {
  }

  // One turn of the CPU: either nothing is dispatched and the event comes closer, or the front is.
  ghost predicate Advanced(k: System, k': System) {
    || (k.ready <= k'.ready && k'.cpu.Executing? && EventIn(k') <= EventIn(k) - 1)
    || (k.ready == [] && k'.cpu.Idle?)
    || (k'.cpu.Executing? && EventIn(k') == Slice(k)
        && exists q: seq<Pid> | k.ready <= q && q != [] :: k'.cpu.pid == q[0] && k'.ready == q[1..])
  }

  lemma TurnAdvances(k: System)
    requires Consistent(k, k.blocked) && k.policy != Priority
    ensures Advanced(k, Settled(k))
  {
    var v := Retire(k);
    if k.cpu.Executing? {
      RetireStep(k);
    }
    SettledEffect(k);
    TurnAdvancesFrom(k, v, Settled(k));
  }

  lemma TurnAdvancesFrom(k: System, v: System, d: System)
    requires k.policy != Priority && v.policy == k.policy && v.quantum == k.quantum
    requires k.ready <= v.ready
    requires if k.cpu.Executing? && v.cpu.Executing?
             then v.cpu == k.cpu.(remaining := k.cpu.remaining - 1) && v.cpu.remaining >= 1
             else v.cpu.Idle?
    requires if v.cpu.Idle? && v.ready != [] then
               && d.ready == Without(v.ready, Selected(v))
               && d.cpu.Executing? && d.cpu.pid == v.ready[Selected(v)] && d.cpu.remaining == Quantum(v)
             else d == v
    ensures Advanced(k, d)
  {
    if v.cpu.Idle? && v.ready != [] {
      assert Without(v.ready, 0) == v.ready[1..];
    }
  }

  lemma FifoTick(k: System, now: int, pending: seq<Entry>, completed: seq<Entry>)
    requires Inv(k) && Legal(k, Elapse(now, pending, completed)) && k.policy != Priority
    ensures Advanced(k, Tick(k, now, pending, completed))
    ensures Inv(Tick(k, now, pending, completed))
  {
    var w := Roused(k, now, pending, completed);
    RousedStep(k, now, pending, completed);
    WakingAppends(k.(now := now, blocked := pending), completed);
    TickStep(k, now, pending, completed);
    TurnAdvances(w);
    AdvancedAfterWaking(k, w, Settled(w), Tick(k, now, pending, completed));
  }

  lemma AdvancedAfterWaking(k: System, w: System, d: System, k': System)
    requires k.ready <= w.ready && w.cpu == k.cpu && w.policy == k.policy && w.quantum == k.quantum
    requires Advanced(w, d)
    requires k'.ready == d.ready && k'.cpu == d.cpu
    ensures Advanced(k, k')
  {
  }

  // ---------- starvation ----------

  ghost predicate OnCpu(k: System, p: Pid) {
    p in k.procs && k.procs[p].state == Running
  }

  // At some point of the run, process p is on the CPU.
  ghost predicate GetsCpu(k: System, inputs: seq<Input>, p: Pid)
    decreases inputs
  {
    OnCpu(k, p) || (inputs != [] && GetsCpu(Apply(k, inputs[0]), inputs[1..], p))
  }

  // How long the process at this index of the ready queue may have to wait.
  ghost function WaitAt(k: System, index: nat): int {
    EventIn(k) + index * Slice(k)
  }

  lemma WaitPositive(k: System, index: nat)
    ensures WaitAt(k, index) >= 1
  {
    assert index * Slice(k) >= 0;
  }

  // A tick either dispatches the process or brings its turn closer.
  lemma TurnComesCloser(k: System, k': System, index: nat) returns (index': nat)
    requires index < |k.ready| && Advanced(k, k') && Slice(k') == Slice(k)
    ensures || (k'.cpu.Executing? && k'.cpu.pid == k.ready[index])
            || (index' < |k'.ready| && k'.ready[index'] == k.ready[index] && WaitAt(k', index') < WaitAt(k, index))
  {
    index' := index;
    if k.ready <= k'.ready && k'.cpu.Executing? && EventIn(k') <= EventIn(k) - 1 {
      assert k'.ready[index] == k.ready[index];
    } else {
      var q: seq<Pid> :| k.ready <= q && q != [] && k'.cpu.pid == q[0] && k'.ready == q[1..];
      assert q[index] == k.ready[index];
      if index > 0 {
        index' := index - 1;
        assert (index - 1) * Slice(k) == index * Slice(k) - Slice(k);
      }
    }
  }

  lemma AdmissionAppends(k: System, i: Input)
    requires Inv(k) && !i.Elapse? && k.policy != Priority
    ensures k.ready <= Apply(k, i).ready
  {
    if i.Run? {
      AdmitEffect(k, i.program);
    }
  }

  lemma SamePlace(k: System, k': System, index: nat)
    requires index < |k.ready| && k.ready <= k'.ready && k'.cpu == k.cpu && Slice(k') == Slice(k)
    ensures index < |k'.ready| && k'.ready[index] == k.ready[index] && WaitAt(k', index) == WaitAt(k, index)
  {
  }

  /** No starvation under Round Robin or FCFS: the process at index i of the ready queue is dispatched
      within the ticks left of the running quantum plus i full quanta, whatever is admitted or woken. */
  lemma {:induction false} StarvationBound(k: System, inputs: seq<Input>, index: nat)
    requires Inv(k) && LegalRun(k, inputs) && k.policy != Priority && index < |k.ready|
    requires Ticks(inputs) >= WaitAt(k, index)
    ensures GetsCpu(k, inputs, k.ready[index])
    decreases inputs
  {
    WaitPositive(k, index);
    var i := inputs[0];
    var k' := Apply(k, i);
    var p := k.ready[index];
    ApplyStep(k, i);
    if i.Elapse? {
      FifoTick(k, i.now, i.pending, i.completed);
      var index' := TurnComesCloser(k, k', index);
      if !(k'.cpu.Executing? && k'.cpu.pid == p) {
        StarvationBound(k', inputs[1..], index');
      } else {
        assert OnCpu(k', p);
      }
    } else {
      AdmissionAppends(k, i);
      SamePlace(k, k', index);
      StarvationBound(k', inputs[1..], index);
    }
  }

  // ---------- ticks without syscalls ----------

  // The ready queue after the running process was preempted, if it was.
  function Requeued(k: System): seq<Pid>
    requires k.cpu.Executing? ==> k.cpu.pid in k.procs && k.cpu.pid in k.meta
  {
    if k.cpu.Executing? && Retired(k) == Ready then k.ready + [k.cpu.pid] else k.ready
  }

  predicate Frees(k: System)
    requires k.cpu.Executing? ==> k.cpu.pid in k.procs && k.cpu.pid in k.meta
  {
    k.cpu.Executing? ==> Retired(k) != Running
  }

  // Exactly what a tick does when nobody is blocked and nobody blocks.
  ghost predicate QuietStep(k: System, k': System)
    requires k.cpu.Executing? ==> k.cpu.pid in k.procs && k.cpu.pid in k.meta
  {
    && k'.blocked == []
    && k'.meta == k.meta && k'.policy == k.policy && k'.quantum == k.quantum && k'.next == k.next
    && (forall p | p in k.procs :: p in k'.procs
          && k'.procs[p].used == k.procs[p].used + if k.cpu.Executing? && k.cpu.pid == p then 1 else 0)
    && (if !Frees(k) then k'.ready == k.ready && k'.cpu == k.cpu.(remaining := k.cpu.remaining - 1)
        else if Requeued(k) == [] then k'.ready == [] && k'.cpu.Idle?
        else && k'.ready == Requeued(k)[1..]
             && k'.cpu.Executing? && k'.cpu.pid == Requeued(k)[0] && k'.cpu.remaining == Quantum(k))
  }

  ghost predicate NoSyscallNext(k: System) {
    k.cpu.Executing? ==>
      && k.cpu.pid in k.procs && k.cpu.pid in k.meta
      && k.procs[k.cpu.pid].used + 1 !in k.meta[k.cpu.pid].profile
  }

  lemma QuietSettles(k: System)
    requires Consistent(k, k.blocked) && k.policy != Priority && k.blocked == [] && NoSyscallNext(k)
    ensures QuietStep(k, Settled(k))
  {
    var v := Retire(k);
    if k.cpu.Executing? {
      RetireStep(k);
    }
    SettledEffect(k);
    QuietFrom(k, v, Settled(k));
  }

  lemma QuietFrom(k: System, v: System, d: System)
    requires k.policy != Priority && k.blocked == [] && NoSyscallNext(k)
    requires if k.cpu.Executing? then RetiredAs(k, v, k.cpu.pid, Retired(k)) else v == k
    requires if v.cpu.Idle? && v.ready != [] then
               var p := v.ready[Selected(v)];
               && p in v.procs && p in v.meta
               && d == v.(procs := v.procs[p := v.procs[p].(state := Running)],
                          ready := Without(v.ready, Selected(v)),
                          cpu := Executing(p, v.meta[p].profile, Quantum(v)),
                          log := d.log)
             else d == v
    ensures QuietStep(k, d)
  {
    if v.ready != [] {
      assert Without(v.ready, 0) == v.ready[1..];
    }
  }

  lemma QuietTick(k: System, now: int, pending: seq<Entry>, completed: seq<Entry>)
    requires Inv(k) && Legal(k, Elapse(now, pending, completed))
    requires k.policy != Priority && k.blocked == [] && NoSyscallNext(k)
    ensures QuietStep(k, Tick(k, now, pending, completed))
  {
    assert |pending| + |completed| == |multiset(pending) + multiset(completed)| == |multiset(k.blocked)| == 0;
    assert pending == [] && completed == [];
    var w := Roused(k, now, pending, completed);
    assert w == k.(now := now);
    RousedStep(k, now, pending, completed);
    QuietSettles(w);
    TickStep(k, now, pending, completed);
    QuietFrame(k, w, Settled(w), Tick(k, now, pending, completed));
  }

  lemma QuietFrame(k: System, w: System, d: System, k': System)
    requires NoSyscallNext(k) && w == k.(now := w.now) && QuietStep(w, d) && k' == d.(now := k'.now, log := k'.log)
    ensures QuietStep(k, k')
  {
  }
}
