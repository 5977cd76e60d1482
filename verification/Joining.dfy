/** Where a process comes to stand when it joins the ready queue: on its admission, when its I/O is over, and when its
    quantum is over. Whoever joins leaves the order of the others alone, so this decides the whole order. */
module Joining {
  import opened Types
  import opened Machine
  import opened Consistency
  import opened Turns
  import opened Runs
  import opened Priorities
  import opened Overtaking

  // Process a keeps its place before a process of priority c that joins: always under FCFS and Round Robin; under
  // Priority if nobody of lower priority than c stands before a, or is a.
  ghost predicate Precedes(k: System, a: Pid, c: int) {
    k.policy == Priority ==> Sheltered(k.ready, k.procs, a, c)
  }

  // ---------- queues ----------

  lemma WithoutInserted(q: seq<Pid>, i: nat, x: Pid)
    requires i <= |q|
    ensures Insert(q, i, x)[i] == x && Without(Insert(q, i, x), i) == q
  {
  }

  lemma BeforeInsertIff(q: seq<Pid>, i: nat, x: Pid, a: Pid, b: Pid)
    requires i <= |q| && x != a && x != b
    ensures Before(Insert(q, i, x), a, b) <==> Before(q, a, b)
  {
    WithoutInserted(q, i, x);
    if Before(q, a, b) {
      BeforeInsert(q, i, x, a, b);
    }
    if Before(Insert(q, i, x), a, b) {
      BeforeWithout(Insert(q, i, x), i, a, b);
    }
  }

  lemma BeforeWithoutIff(q: seq<Pid>, i: nat, a: Pid, b: Pid)
    requires i < |q| && q[i] != a && q[i] != b
    ensures Before(Without(q, i), a, b) <==> Before(q, a, b)
  {
    assert Insert(Without(q, i), i, q[i]) == q;
    BeforeInsertIff(Without(q, i), i, q[i], a, b);
  }

  // Whoever joins by priority does not change who is sheltered.
  lemma ShelteredInsertIff(q: seq<Pid>, procs: map<Pid, Pcb>, x: Pid, a: Pid, c: int)
    requires x != a
    ensures Sheltered(Insert(q, InsertionPoint(q, procs, PriorityOf(procs, x)), x), procs, a, c) <==>
            Sheltered(q, procs, a, c)
  {
    var i := InsertionPoint(q, procs, PriorityOf(procs, x));
    var r := Insert(q, i, x);
    WithoutInserted(q, i, x);
    if Sheltered(q, procs, a, c) {
      ShelteredInsert(q, procs, x, a, c);
    }
    if Sheltered(r, procs, a, c) {
      ShelteredWithout(r, procs, i, a, c);
    }
  }

  // ---------- one process joins ----------

  lemma EnqueuedIff(k: System, x: Pid, a: Pid, b: Pid, c: int)
    requires Unique(k.ready) && x !in k.ready && a in k.ready && b != x
    ensures var k' := Enqueue(k, x);
      && (Before(k'.ready, a, x) <==> Precedes(k, a, PriorityOf(k.procs, x)))
      && (Before(k'.ready, a, b) <==> Before(k.ready, a, b))
      && (Precedes(k', a, c) <==> Precedes(k, a, c))
  {
    if k.policy == Priority {
      var i := InsertionPoint(k.ready, k.procs, PriorityOf(k.procs, x));
      JoinsBehindIff(k.ready, k.procs, a, x);
      BeforeInsertIff(k.ready, i, x, a, b);
      ShelteredInsertIff(k.ready, k.procs, x, a, c);
    } else {
      AppendedBehind(k.ready, a, x);
      assert Insert(k.ready, |k.ready|, x) == k.ready + [x];
      BeforeInsertIff(k.ready, |k.ready|, x, a, b);
    }
  }

  lemma PrecedesAgrees(k: System, m: System, a: Pid, c: int)
    requires m.ready == k.ready && m.policy == k.policy && SamePriorityMap(k.procs, m.procs)
    ensures Precedes(m, a, c) <==> Precedes(k, a, c)
  {
    if Precedes(k, a, c) && k.policy == Priority {
      ShelteredAgrees(k.ready, k.procs, m.procs, a, c);
    }
    if Precedes(m, a, c) && k.policy == Priority {
      ShelteredAgrees(k.ready, m.procs, k.procs, a, c);
    }
  }

  /** A newcomer, whose priority is 0, comes to stand behind a exactly if, under Priority, nobody of negative priority
      stands before a, or is a. The others keep their order. */
  lemma AdmittedBehindIff(k: System, g: Program, a: Pid, b: Pid)
    requires Inv(k) && a in k.ready && b in k.ready
    ensures var k' := RunProgram(k, g);
      && (Before(k'.ready, a, k.next) <==> Precedes(k, a, 0))
      && (Before(k'.ready, a, b) <==> Before(k.ready, a, b))
  {
    var m := k.(procs := k.procs[k.next := Newcomer(g)]);
    AdmitEffect(k, g);
    assert k.next !in k.procs;
    EnqueuedIff(m, k.next, a, b, 0);
    SameSheltered(k.ready, k.procs, m.procs, a, 0);
  }

  lemma SameSheltered(q: seq<Pid>, procs: map<Pid, Pcb>, procs': map<Pid, Pcb>, a: Pid, c: int)
    requires forall p | p in q :: PriorityOf(procs, p) == PriorityOf(procs', p)
    ensures Sheltered(q, procs, a, c) <==> Sheltered(q, procs', a, c)
  {
  }

  /** A preempted process comes to stand behind a exactly if, under Priority, nobody of lower priority stands before a,
      or is a. The others keep their order. */
  lemma PreemptedBehindIff(w: System, a: Pid, b: Pid)
    requires Consistent(w, w.blocked) && w.cpu.Executing? && a in w.ready && b in w.ready
    requires var p := w.cpu.pid;
      && p in w.procs && p in w.meta
      && w.procs[p].used + 1 !in w.meta[p].profile && w.procs[p].used + 1 < w.meta[p].estimate && w.cpu.remaining <= 1
    ensures var v := Retire(w);
      && (Before(v.ready, a, w.cpu.pid) <==> Precedes(w, a, w.procs[w.cpu.pid].priority))
      && (Before(v.ready, a, b) <==> Before(w.ready, a, b))
  {
    RequeuedAs(w);
    EnqueuedIff(w, w.cpu.pid, a, b, 0);
  }

  lemma RequeuedAs(w: System)
    requires Consistent(w, w.blocked) && w.cpu.Executing?
    requires var p := w.cpu.pid;
      && p in w.procs && p in w.meta
      && w.procs[p].used + 1 !in w.meta[p].profile && w.procs[p].used + 1 < w.meta[p].estimate && w.cpu.remaining <= 1
    ensures Unique(w.ready) && w.cpu.pid !in w.ready && Retire(w).ready == Enqueue(w, w.cpu.pid).ready
  {
    assert Retired(w) == Ready;
    RetireStep(w);
    RequeuedFrom(w, Retire(w), w.cpu.pid);
  }

  lemma RequeuedFrom(w: System, v: System, p: Pid)
    requires Queued(w, w.blocked) && w.cpu.Executing? && p in w.procs && p in w.meta && w.procs[p].state == Running
    requires RetiredAs(w, v, p, Ready)
    ensures Unique(w.ready) && p !in w.ready && v.ready == Enqueue(w, p).ready
  {
  }

  // ---------- waking ----------

  lemma {:induction false} WakeAllSplit(k: System, first: seq<Entry>, second: seq<Entry>)
    ensures WakeAll(k, first + second) == WakeAll(WakeAll(k, first), second)
    decreases |second|
  {
    if second == [] {
      assert first + second == first;
    } else {
      var n := |second| - 1;
      var all := first + second;
      assert all[..|all| - 1] == first + second[..n];
      WakeAllSplit(k, first, second[..n]);
    }
  }

  lemma WokenIff(k: System, rest: seq<Entry>, e: Entry, a: Pid, b: Pid, c: int)
    requires Consistent(k, rest + [e]) && a in k.ready && b in k.ready
    ensures var k' := Wake(k, e.pid);
      && a in k'.ready && e.pid in k'.ready && SamePriorityMap(k.procs, k'.procs)
      && (Before(k'.ready, a, e.pid) <==> Precedes(k, a, PriorityOf(k.procs, e.pid)))
      && (Before(k'.ready, a, b) <==> Before(k.ready, a, b))
      && (Precedes(k', a, c) <==> Precedes(k, a, c))
  {
    var x := e.pid;
    var m := Move(k, x, IoComplete);
    BlockedNotReady(k, rest, e);
    SortedMove(k, x, IoComplete);
    EnqueueFacts(m, x);
    EnqueuedIff(m, x, a, b, c);
    PrecedesAgrees(k, m, a, c);
    PrecedesAgrees(k, m, a, PriorityOf(k.procs, x));
  }

  lemma BlockedNotReady(k: System, rest: seq<Entry>, e: Entry)
    requires Queued(k, rest + [e])
    ensures e.pid !in k.ready
  {
    assert (rest + [e])[|rest|] == e;
  }

  // Waking keeps the order of those who are ready, and who is sheltered.
  lemma {:induction false} WakingOrder(k: System, rest: seq<Entry>, completed: seq<Entry>, a: Pid, b: Pid, c: int)
    requires Consistent(k, rest + completed) && a in k.ready && b in k.ready
    ensures var w := WakeAll(k, completed);
      && Consistent(w, rest) && a in w.ready && b in w.ready && SamePriorityMap(k.procs, w.procs)
      && (Before(w.ready, a, b) <==> Before(k.ready, a, b))
      && (Precedes(w, a, c) <==> Precedes(k, a, c))
    decreases |completed|
  {
    WakeAllStep(k, rest, completed);
    if completed != [] {
      var n := |completed| - 1;
      LastAside(rest, completed);
      Reordered(k, rest + completed, (rest + [completed[n]]) + completed[..n]);
      WakingOrder(k, rest + [completed[n]], completed[..n], a, b, c);
      WokenIff(WakeAll(k, completed[..n]), rest, completed[n], a, b, c);
      WokenKeepsMember(WakeAll(k, completed[..n]), completed[n].pid, b);
    }
  }

  lemma WokenKeepsMember(k: System, x: Pid, b: Pid)
    ensures x in Wake(k, x).ready && (b in k.ready ==> b in Wake(k, x).ready)
  {
    SortedMove(k, x, IoComplete);
    EnqueueFacts(Move(k, x, IoComplete), x);
  }

  lemma Halves(rest: seq<Entry>, completed: seq<Entry>, j: nat)
    requires j < |completed|
    ensures completed == completed[..j] + ([completed[j]] + completed[j + 1..])
    ensures multiset(rest + completed) == multiset((rest + completed[j + 1..] + [completed[j]]) + completed[..j])
  {
    assert completed == completed[..j] + ([completed[j]] + completed[j + 1..]);
    assert rest + completed == rest + (completed[..j] + ([completed[j]] + completed[j + 1..]));
  }

  /** Whoever is woken comes to stand behind a ready process a exactly if, under Priority, nobody of lower priority
      stands before a, or is a, whoever else is woken in the same tick and in whatever order. */
  lemma WokenBehindIff(k: System, rest: seq<Entry>, completed: seq<Entry>, j: nat, a: Pid)
    requires Consistent(k, rest + completed) && j < |completed| && a in k.ready
    ensures var b := completed[j].pid;
      Before(WakeAll(k, completed).ready, a, b) <==> Precedes(k, a, PriorityOf(k.procs, b))
  {
    var e, last := completed[j], completed[j + 1..];
    var u := WakeAll(k, completed[..j]);
    var c := PriorityOf(k.procs, e.pid);
    Halves(rest, completed, j);
    Reordered(k, rest + completed, (rest + last + [e]) + completed[..j]);
    WakingOrder(k, rest + last + [e], completed[..j], a, a, c);
    WokenIff(u, rest + last, e, a, a, c);
    WakeStep(u, rest + last, e);
    WakingOrder(Wake(u, e.pid), rest, last, a, e.pid, c);
    WakeAllSplit(k, completed[..j], [e] + last);
    WakeAllSplit(u, [e], last);
    WakeOne(u, e);
  }

  lemma WakeOne(k: System, e: Entry)
    ensures WakeAll(k, [e]) == Wake(k, e.pid)
  {
    assert [e][..0] == [];
  }

  /** Of two processes woken in the same tick the one whose notice comes first stands before the other, unless, under
      Priority, somebody of lower priority than the other stands before it, or is it. */
  lemma WokenInTurn(k: System, rest: seq<Entry>, completed: seq<Entry>, i: nat, j: nat)
    requires Consistent(k, rest + completed) && i < j < |completed|
    ensures StandsInTurn(WakeAll(k, completed), completed[i].pid, completed[j].pid)
  {
    var first, last := completed[..i + 1], completed[i + 1..];
    Parts(completed, i, j);
    FirstWoken(k, rest, first, last);
    WokenAfter(WakeAll(k, first), rest, last, completed[i].pid, completed[j]);
  }

  lemma Parts(completed: seq<Entry>, i: nat, j: nat)
    requires i < j < |completed|
    ensures completed == completed[..i + 1] + completed[i + 1..]
    ensures completed[..i + 1][i] == completed[i] && completed[j] in completed[i + 1..]
  {
    assert completed[i + 1..][j - i - 1] == completed[j];
  }

  // Process a is ready, and b, which became ready after it, stands behind it exactly if a keeps its place before b.
  ghost predicate StandsInTurn(w: System, a: Pid, b: Pid) {
    a in w.ready && (Before(w.ready, a, b) <==> Precedes(w, a, PriorityOf(w.procs, b)))
  }

  lemma FirstWoken(k: System, rest: seq<Entry>, first: seq<Entry>, last: seq<Entry>)
    requires first != [] && Consistent(k, rest + (first + last))
    ensures var u := WakeAll(k, first);
      Consistent(u, rest + last) && first[|first| - 1].pid in u.ready && WakeAll(k, first + last) == WakeAll(u, last)
  {
    assert multiset(rest + (first + last)) == multiset((rest + last) + first);
    Reordered(k, rest + (first + last), (rest + last) + first);
    WakeAllStep(k, rest + last, first);
    LastIsReady(k, rest + last, first);
    WakeAllSplit(k, first, last);
  }

  lemma WokenAfter(u: System, rest: seq<Entry>, last: seq<Entry>, a: Pid, e: Entry)
    requires Consistent(u, rest + last) && a in u.ready && e in last
    ensures StandsInTurn(WakeAll(u, last), a, e.pid)
  {
    var j :| 0 <= j < |last| && last[j] == e;
    var c := PriorityOf(u.procs, e.pid);
    WokenBehindIff(u, rest, last, j, a);
    WakingOrder(u, rest, last, a, a, c);
    assert PriorityOf(WakeAll(u, last).procs, e.pid) == c;
  }

  lemma LastIsReady(k: System, rest: seq<Entry>, completed: seq<Entry>)
    requires Consistent(k, rest + completed) && completed != []
    ensures completed[|completed| - 1].pid in WakeAll(k, completed).ready
  {
    var n := |completed| - 1;
    WokenKeepsMember(WakeAll(k, completed[..n]), completed[n].pid, 0);
  }
}
