/** How a quantum cuts up a program: the CPU bursts between its syscalls, and the time slices each
    burst needs. Nothing here knows about other processes. */
module Slices {
  import opened Types
  import opened Programs

  // The part of the current slice used up after u CPU ticks: a syscall or an expiry starts anew.
  function Phase(profile: Profile, slice: int, u: int): (f: int)
    requires slice >= 1
    ensures 0 <= f < slice
    decreases u
  {
    if u <= 0 || u in profile then 0
    else
      var f := Phase(profile, slice, u - 1) + 1;
      if f >= slice then 0 else f
  }

  // How many slices the first u CPU ticks take.
  function SlicesUsed(profile: Profile, slice: int, u: int): nat
    requires slice >= 1
    decreases u
  {
    if u <= 0 then 0
    else SlicesUsed(profile, slice, u - 1) + if Phase(profile, slice, u - 1) == 0 then 1 else 0
  }

  // ---------- the closed form ----------

  // Tick 0 and the ticks 1..u at which a syscall fires: where a burst starts.
  function Starts(profile: Profile, u: int): (s: seq<int>)
    ensures s != []
  {
    [0] + Fired(profile, u)
  }

  // The ends of all CPU bursts of a program: 0, its fired syscalls, its exit.
  function Cuts(g: Program): seq<int> {
    Starts(g.profile, Finish(g) - 1) + [Finish(g)]
  }

  // The cuts are exactly those ticks, in order.
  lemma CutsAscend(g: Program)
    ensures forall t :: t in Cuts(g) <==> t == 0 || t == Finish(g) || (1 <= t < Finish(g) && t in g.profile)
    ensures forall i, j | 0 <= i < j < |Cuts(g)| :: Cuts(g)[i] < Cuts(g)[j]
  {
    var f := Fired(g.profile, Finish(g) - 1);
    FiredAscends(g.profile, Finish(g) - 1);
    assert forall i | 0 <= i < |f| :: f[i] in f;
  }

  // ceil(n / d): how many slices of d ticks it takes to run n ticks.
  function CeilDiv(n: int, d: int): nat
    requires d >= 1
    decreases n
  {
    if n <= 0 then 0 else 1 + CeilDiv(n - d, d)
  }

  lemma {:induction false} CeilDivIsCeiling(n: int, d: int)
    requires d >= 1 && n >= 0
    ensures (CeilDiv(n, d) - 1) * d < n <= CeilDiv(n, d) * d || n == CeilDiv(n, d) == 0
    decreases n
  {
    if 0 < n <= d {
      assert CeilDiv(n, d) == 1;
    } else if n > d {
      CeilDivIsCeiling(n - d, d);
      OneSliceMore(CeilDiv(n - d, d), d);
    }
  }

  lemma OneSliceMore(c: int, d: int)
    ensures (c + 1) * d == c * d + d && (c - 1) * d + d == c * d
  {
  }

  function Remainder(n: int, d: int): int
    requires d >= 1
    decreases n
  {
    if n < d then n else Remainder(n - d, d)
  }

  // One more tick needs one more slice exactly if the slices so far are full.
  lemma {:induction false} CeilDivStep(j: int, d: int)
    requires d >= 1 && j >= 0
    ensures CeilDiv(j + 1, d) == CeilDiv(j, d) + if Remainder(j, d) == 0 then 1 else 0
    ensures 0 <= Remainder(j, d) < d
    ensures Remainder(j + 1, d) == if Remainder(j, d) + 1 == d then 0 else Remainder(j, d) + 1
    decreases j
  {
    if j >= d {
      CeilDivStep(j - d, d);
    } else {
      assert CeilDiv(j + 1 - d, d) == 0 && CeilDiv(j - d, d) == 0;
    }
  }

  // The sum of ceil(burst / slice) over consecutive cuts.
  function BurstSlices(cuts: seq<int>, slice: int): nat
    requires slice >= 1
  {
    if |cuts| <= 1 then 0
    else BurstSlices(cuts[..|cuts| - 1], slice) + CeilDiv(cuts[|cuts| - 1] - cuts[|cuts| - 2], slice)
  }

  lemma BurstSlicesGrow(cuts: seq<int>, slice: int, c: int)
    requires slice >= 1 && cuts != []
    ensures BurstSlices(cuts + [c], slice) == BurstSlices(cuts, slice) + CeilDiv(c - cuts[|cuts| - 1], slice)
  {
    assert (cuts + [c])[..|cuts|] == cuts;
  }

  lemma StartsGrow(profile: Profile, u: int)
    requires u > 0
    ensures Starts(profile, u) == if u in profile then Starts(profile, u - 1) + [u] else Starts(profile, u - 1)
  {
  }

  // Where the burst running at tick u started.
  function LastStart(profile: Profile, u: int): int {
    var s := Starts(profile, u);
    s[|s| - 1]
  }

  lemma LastStartStep(profile: Profile, u: int)
    requires u > 0
    ensures LastStart(profile, u) == if u in profile then u else LastStart(profile, u - 1)
  {
    StartsGrow(profile, u);
  }

  // The position in the slice is the position in the burst, counted off in slices.
  lemma {:induction false} PhaseInBurst(profile: Profile, slice: int, u: int)
    requires slice >= 1 && u >= 0
    ensures LastStart(profile, u) <= u
    ensures Phase(profile, slice, u) == Remainder(u - LastStart(profile, u), slice)
    decreases u
  {
    if u > 0 {
      PhaseInBurst(profile, slice, u - 1);
      LastStartStep(profile, u);
      CeilDivStep(u - 1 - LastStart(profile, u - 1), slice);
    }
  }

  // Ending a burst at u changes the accounts, not the sum.
  lemma BurstEnds(profile: Profile, slice: int, u: int)
    requires slice >= 1 && u > 0
    ensures BurstSlices(Starts(profile, u), slice) + CeilDiv(u - LastStart(profile, u), slice) ==
            BurstSlices(Starts(profile, u - 1), slice) + CeilDiv(u - LastStart(profile, u - 1), slice)
  {
    StartsGrow(profile, u);
    LastStartStep(profile, u);
    if u in profile {
      BurstSlicesGrow(Starts(profile, u - 1), slice, u);
    }
  }

  // After u ticks the slices of the finished bursts and of the running one add up.
  lemma {:induction false} SlicesSoFar(profile: Profile, slice: int, u: int)
    requires slice >= 1 && u >= 0
    ensures SlicesUsed(profile, slice, u) ==
            BurstSlices(Starts(profile, u), slice) + CeilDiv(u - LastStart(profile, u), slice)
    decreases u
  {
    if u == 0 {
      assert Starts(profile, u) == [0];
    } else {
      SlicesSoFar(profile, slice, u - 1);
      SlicesOn(profile, slice, u);
    }
  }

  lemma SlicesOn(profile: Profile, slice: int, u: int)
    requires slice >= 1 && u > 0
    requires SlicesUsed(profile, slice, u - 1) ==
             BurstSlices(Starts(profile, u - 1), slice) + CeilDiv(u - 1 - LastStart(profile, u - 1), slice)
    ensures SlicesUsed(profile, slice, u) ==
            BurstSlices(Starts(profile, u), slice) + CeilDiv(u - LastStart(profile, u), slice)
  {
    SlicesStep(profile, slice, u - 1);
    BurstEnds(profile, slice, u);
  }

  lemma SlicesStep(profile: Profile, slice: int, u: int)
    requires slice >= 1 && u >= 0
    ensures SlicesUsed(profile, slice, u + 1) - SlicesUsed(profile, slice, u) ==
            CeilDiv(u + 1 - LastStart(profile, u), slice) - CeilDiv(u - LastStart(profile, u), slice)
  {
    PhaseInBurst(profile, slice, u);
    CeilDivStep(u - LastStart(profile, u), slice);
  }

  /** A program that runs to its end takes the sum of ceil(burst / slice) slices. */
  lemma SlicesOfProgram(g: Program, slice: int)
    requires slice >= 1
    ensures SlicesUsed(g.profile, slice, Finish(g)) == BurstSlices(Cuts(g), slice)
  {
    var u := Finish(g) - 1;
    SlicesSoFar(g.profile, slice, u);
    SlicesStep(g.profile, slice, u);
    BurstSlicesGrow(Starts(g.profile, u), slice, u + 1);
  }

  // ---------- when a quantum never expires ----------

  ghost predicate IsStart(profile: Profile, a: int) {
    a == 0 || (a > 0 && a in profile)
  }

  // Every burst ends within one slice.
  ghost predicate Fits(g: Program, slice: int) {
    forall a | 0 <= a < Finish(g) && IsStart(g.profile, a) :: EndsWithin(g, a, slice)
  }

  // Within the next n ticks after a there is a syscall or the exit.
  ghost predicate EndsWithin(g: Program, a: int, n: int) {
    exists t :: a < t <= a + n && IsEnd(g, t)
  }

  ghost predicate IsEnd(g: Program, t: int) {
    t in g.profile || t == Finish(g)
  }

  // The ticks 1..u at which a quantum of this length expires.
  function Expiries(profile: Profile, slice: int, u: int): nat
    requires slice >= 1
    decreases u
  {
    if u <= 0 then 0
    else Expiries(profile, slice, u - 1) + if u !in profile && Phase(profile, slice, u) == 0 then 1 else 0
  }

  // A slice starts at tick 0, after every fired syscall and after every expiry.
  lemma {:induction false} WhySlicesStart(profile: Profile, slice: int, u: int)
    requires slice >= 1 && u >= 0
    ensures SlicesUsed(profile, slice, u + 1) == 1 + |Fired(profile, u)| + Expiries(profile, slice, u)
    decreases u
  {
    if u > 0 {
      WhySlicesStart(profile, slice, u - 1);
    }
  }

  lemma {:induction false} PhaseWithoutSyscalls(profile: Profile, slice: int, a: int, j: int)
    requires slice >= 1 && 0 <= j < slice && IsStart(profile, a)
    requires forall t | a < t <= a + j :: t !in profile
    ensures Phase(profile, slice, a + j) == j
    decreases j
  {
    if j > 0 {
      PhaseWithoutSyscalls(profile, slice, a, j - 1);
    }
  }

  // The position in a slice counts the ticks since the slice started.
  lemma {:induction false} PhaseCountsBack(profile: Profile, slice: int, u: int)
    requires slice >= 1 && u >= 0
    ensures var f := Phase(profile, slice, u);
      f <= u && Phase(profile, slice, u - f) == 0 && forall t | u - f < t <= u :: t !in profile
    decreases u
  {
    if u > 0 && Phase(profile, slice, u) > 0 {
      PhaseCountsBack(profile, slice, u - 1);
    }
  }

  lemma {:induction false} NoExpiryMeansStart(profile: Profile, slice: int, u: int, a: int)
    requires slice >= 1 && 0 <= a <= u && Expiries(profile, slice, u) == 0 && Phase(profile, slice, a) == 0
    ensures IsStart(profile, a)
    decreases u
  {
    if a < u {
      NoExpiryMeansStart(profile, slice, u - 1, a);
    }
  }

  lemma LongBurst(g: Program, slice: int, a: int)
    requires 0 <= a && IsStart(g.profile, a) && a + slice < Finish(g)
    requires forall t | a < t <= a + slice :: t !in g.profile
    requires slice >= 1
    ensures !Fits(g, slice)
  {
    assert !EndsWithin(g, a, slice);
  }

  lemma {:induction false} FitsMeansNoExpiry(g: Program, slice: int, u: int)
    requires slice >= 1 && Fits(g, slice) && 0 <= u < Finish(g)
    ensures Expiries(g.profile, slice, u) == 0
    decreases u
  {
    if u > 0 {
      FitsMeansNoExpiry(g, slice, u - 1);
      if u !in g.profile && Phase(g.profile, slice, u) == 0 {
        PhaseCountsBack(g.profile, slice, u - 1);
        var a := u - 1 - Phase(g.profile, slice, u - 1);
        NoExpiryMeansStart(g.profile, slice, u - 1, a);
        LongBurst(g, slice, a);
      }
    }
  }

  lemma {:induction false} ExpiriesMonotone(profile: Profile, slice: int, u: int, v: int)
    requires slice >= 1 && u <= v
    ensures Expiries(profile, slice, u) <= Expiries(profile, slice, v)
    decreases v - u
  {
    if u < v {
      ExpiriesMonotone(profile, slice, u, v - 1);
    }
  }

  /** A quantum never expires on a program exactly if every burst of the program fits into it. */
  lemma FitsIffNoExpiry(g: Program, slice: int)
    requires slice >= 1
    ensures Fits(g, slice) <==> Expiries(g.profile, slice, Finish(g) - 1) == 0
  {
    var f := Finish(g);
    if Fits(g, slice) {
      FitsMeansNoExpiry(g, slice, f - 1);
    } else {
      var a :| 0 <= a < f && IsStart(g.profile, a) && !EndsWithin(g, a, slice);
      forall t | a < t <= a + slice
        ensures t !in g.profile && t != f
      {
        assert !IsEnd(g, t);
      }
      PhaseWithoutSyscalls(g.profile, slice, a, slice - 1);
      assert a + slice < f;
      ExpiriesMonotone(g.profile, slice, a + slice, f - 1);
    }
  }
}
