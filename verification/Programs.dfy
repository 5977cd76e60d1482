/** What a program will do, read off its syscall profile alone. */
module Programs {
  import opened Types

  // The least t >= from with no syscall registered at t.
  function FirstFree(profile: Profile, from: int): (t: int)
    ensures from <= t && t !in profile
    ensures forall u | from <= u < t :: u in profile
    decreases set u | u in profile && from <= u
  {
    if from !in profile then from
    else
      var later := set u | u in profile && from + 1 <= u;
      assert later <= (set u | u in profile && from <= u) && from !in later;
      assert from in (set u | u in profile && from <= u);
      FirstFree(profile, from + 1)
  }

  // The CPU tick at which a process running g exits. A syscall registered at a tick is noticed
  // before the exit condition, so an exit needs a tick with no syscall.
  function Finish(g: Program): (f: int)
    ensures f >= Max(1, g.estimate) && f !in g.profile
    ensures forall u | Max(1, g.estimate) <= u < f :: u in g.profile
  {
    FirstFree(g.profile, Max(1, g.estimate))
  }

  // The event check of the CPU after tick u, with the exit point of the program known.
  lemma ExitPoint(g: Program, u: int)
    requires 1 <= u <= Finish(g)
    ensures u in g.profile ==> u < Finish(g)
    ensures u !in g.profile ==> (u >= g.estimate <==> u == Finish(g))
  {
  }

  // The CPU ticks 1..u at which a syscall fires, ascending.
  function Fired(profile: Profile, u: int): (s: seq<int>)
    ensures forall t :: t in s <==> 1 <= t <= u && t in profile
    decreases u
  {
    if u <= 0 then [] else Fired(profile, u - 1) + if u in profile then [u] else []
  }

  lemma {:induction false} FiredAscends(profile: Profile, u: int)
    ensures forall i, j | 0 <= i < j < |Fired(profile, u)| :: Fired(profile, u)[i] < Fired(profile, u)[j]
    decreases u
  {
    if u > 0 {
      FiredAscends(profile, u - 1);
      var before := Fired(profile, u - 1);
      assert forall i | 0 <= i < |before| :: before[i] in before;
    }
  }

  // A syscall keeps its process blocked for at least one tick.
  function Pause(s: Syscall): int {
    Max(1, s.duration)
  }

  // Total blocked time of the syscalls at CPU ticks 1..u.
  function IoTime(profile: Profile, u: int): (n: int)
    ensures n >= 0
    decreases u
  {
    if u <= 0 then 0
    else IoTime(profile, u - 1) + if u in profile then Pause(profile[u]) else 0
  }

  lemma {:induction false} IoTimeMonotone(profile: Profile, u: int, v: int)
    requires u <= v
    ensures IoTime(profile, u) <= IoTime(profile, v)
    decreases v - u
  {
    if u < v {
      IoTimeMonotone(profile, u, v - 1);
    }
  }
}
