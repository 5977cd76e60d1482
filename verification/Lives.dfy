/** The life of one process as it sees it: the states it went through, the CPU ticks it has used,
    what is left of its quantum while it runs, and when its I/O ends while it is blocked.
    Other processes matter only through the choice whether it is dispatched. */
module Lives {
  import opened Types
  import opened Programs
  import opened Logs
  import opened Slices

  datatype Life = Life(hist: seq<Stamp>, used: int, left: int, wake: int)

  function StateOf(v: Life): ProcessState {
    if v.hist == [] then New else v.hist[|v.hist| - 1].state
  }

  function Enter(v: Life, tick: int, s: ProcessState): Life {
    v.(hist := v.hist + [Stamp(tick, s)])
  }

  function Woken(v: Life, clock: int): Life {
    Enter(v, clock, Ready).(wake := 0)
  }

  function Chosen(v: Life, clock: int, slice: int): Life {
    Enter(v, clock, Running).(left := slice)
  }

  // One CPU tick of the running process.
  function Ran(g: Program, v: Life, clock: int, now: int): Life {
    var u := v.used + 1;
    if u in g.profile then Enter(v, clock, Blocked).(used := u, left := 0, wake := now + g.profile[u].duration)
    else if u >= g.estimate then Enter(v, clock, Terminated).(used := u, left := 0)
    else if v.left <= 1 then Enter(v, clock, Ready).(used := u, left := 0)
    else v.(used := u, left := v.left - 1)
  }

  // A tick at time `now` that began with the observer's clock at `clock`, before any dispatch.
  function Moved(g: Program, v: Life, clock: int, now: int): Life {
    match StateOf(v)
    case Blocked => if v.wake <= now then Woken(v, clock) else v
    case Running => Ran(g, v, clock, now)
    case _ => v
  }

  // A whole tick: a process that is ready after the first part may be dispatched.
  ghost predicate LifeStep(g: Program, slice: int, clock: int, now: int, v: Life, v': Life) {
    var u := Moved(g, v, clock, now);
    v' == u || (StateOf(u) == Ready && v' == Chosen(u, clock, slice))
  }

  // The life of a process that was just admitted.
  function Admitted(clock: int): Life {
    Life([Stamp(clock, New), Stamp(clock, Ready)], 0, 0, 0)
  }

  // ---------- what every life satisfies ----------

  // A history starts with NEW, and each state legally follows the one before.
  ghost predicate Linked(h: seq<Stamp>) {
    && h != [] && h[0].state == New
    && (forall i | 0 <= i < |h| - 1 :: Follows(h[i].state, h[i + 1].state))
  }

  ghost predicate InOrder(h: seq<Stamp>, clock: int) {
    && (forall i | 0 <= i < |h| :: 0 <= h[i].tick <= clock)
    && (forall i | 0 <= i < |h| - 1 :: h[i].tick <= h[i + 1].tick)
  }

  ghost predicate Chronicled(v: Life, clock: int) {
    |v.hist| >= 2 && Linked(v.hist) && InOrder(v.hist, clock)
  }

  // Where the process is in its program.
  ghost predicate OnCourse(g: Program, slice: int, v: Life)
    requires slice >= 1
  {
    var f := Phase(g.profile, slice, v.used);
    && v.used >= 0
    && match StateOf(v)
       case New => false
       case Ready => v.used < Finish(g) && f == 0
       case Running => v.used < Finish(g) && v.left == slice - f
       case Blocked => 1 <= v.used < Finish(g) && v.used in g.profile
       case Terminated => v.used == Finish(g)
  }

  // How often the process was dispatched, blocked and ended.
  ghost predicate Tallied(g: Program, slice: int, v: Life)
    requires slice >= 1
  {
    && Count(v.hist, New) == 1
    && Count(v.hist, Running) == SlicesUsed(g.profile, slice, if StateOf(v) == Running then v.used + 1 else v.used)
    && Count(v.hist, Blocked) == |Fired(g.profile, v.used)|
    && Count(v.hist, Terminated) == if StateOf(v) == Terminated then 1 else 0
  }

  // The recorded times, when the clock advances by one per tick.
  ghost predicate Timed(g: Program, now: int, v: Life) {
    v.hist != [] && v.used >= 0 &&
    var since := now - v.hist[|v.hist| - 1].tick;
    && TimeIn(v.hist, Running) + (if StateOf(v) == Running then since - 1 else 0) == v.used
    && (if StateOf(v) == Blocked then
          && v.used >= 1 && v.used in g.profile
          && TimeIn(v.hist, Blocked) == IoTime(g.profile, v.used - 1)
          && since >= 1
          && v.wake == now - since + 1 + g.profile[v.used].duration
          && (since == 1 || now < v.wake)
        else
          TimeIn(v.hist, Blocked) == IoTime(g.profile, v.used))
  }

  lemma EnterChronicled(v: Life, clock: int, s: ProcessState)
    requires Chronicled(v, clock) && Follows(StateOf(v), s)
    ensures Chronicled(Enter(v, clock, s), clock)
  {
  }

  lemma AdmittedSound(g: Program, slice: int, clock: int)
    requires slice >= 1 && clock >= 0
    ensures Chronicled(Admitted(clock), clock) && OnCourse(g, slice, Admitted(clock))
    ensures Tallied(g, slice, Admitted(clock)) && Timed(g, clock, Admitted(clock))
  {
    var h := [Stamp(clock, New)];
    assert Follows(New, Ready) by {
      assert IsValidTransition(New, Admit);
    }
    HistoryGrows([], Stamp(clock, New));
    HistoryGrows(h, Stamp(clock, Ready));
    assert [] + h == h && h + [Stamp(clock, Ready)] == Admitted(clock).hist;
  }

  lemma TransitionsFollow()
    ensures Follows(Blocked, Ready) && Follows(Ready, Running) && Follows(Running, Ready)
    ensures Follows(Running, Blocked) && Follows(Running, Terminated)
  {
    assert IsValidTransition(Blocked, IoComplete) && IsValidTransition(Ready, Dispatch)
        && IsValidTransition(Running, StateTransition.QuantumExpired)
        && IsValidTransition(Running, BlockingSyscall) && IsValidTransition(Running, Exit);
  }

  lemma MovedChronicled(g: Program, v: Life, clock: int, now: int)
    requires Chronicled(v, clock)
    ensures Chronicled(Moved(g, v, clock, now), clock)
  {
    TransitionsFollow();
    var u := Moved(g, v, clock, now);
    if u.hist != v.hist {
      EnterChronicled(v, clock, StateOf(u));
    }
  }

  lemma StepChronicled(g: Program, slice: int, clock: int, now: int, v: Life, v': Life)
    requires Chronicled(v, clock) && LifeStep(g, slice, clock, now, v, v') && clock <= now
    ensures Chronicled(v', now)
  {
    MovedChronicled(g, v, clock, now);
    ChosenChronicled(Moved(g, v, clock, now), v', clock, slice);
    assert Chronicled(v', clock);
  }

  lemma ChosenChronicled(u: Life, v': Life, clock: int, slice: int)
    requires Chronicled(u, clock)
    requires v' == u || (StateOf(u) == Ready && v' == Chosen(u, clock, slice))
    ensures Chronicled(v', clock)
  {
    if v' != u {
      TransitionsFollow();
      EnterChronicled(u, clock, Running);
    }
  }

  lemma StepOnCourse(g: Program, slice: int, clock: int, now: int, v: Life, v': Life)
    requires slice >= 1 && OnCourse(g, slice, v) && LifeStep(g, slice, clock, now, v, v')
    ensures OnCourse(g, slice, v')
  {
    if StateOf(v) == Running {
      ExitPoint(g, v.used + 1);
    }
  }

  lemma WokenTallied(g: Program, slice: int, clock: int, v: Life)
    requires slice >= 1 && v.hist != [] && StateOf(v) == Blocked && Tallied(g, slice, v)
    ensures Tallied(g, slice, Woken(v, clock))
  {
    HistoryGrows(v.hist, Stamp(clock, Ready));
  }

  lemma ChosenTallied(g: Program, slice: int, clock: int, v: Life)
    requires slice >= 1 && v.hist != [] && StateOf(v) == Ready && OnCourse(g, slice, v) && Tallied(g, slice, v)
    ensures Tallied(g, slice, Chosen(v, clock, slice))
  {
    HistoryGrows(v.hist, Stamp(clock, Running));
  }

  lemma RanTallied(g: Program, slice: int, clock: int, now: int, v: Life)
    requires slice >= 1 && v.hist != [] && StateOf(v) == Running && OnCourse(g, slice, v) && Tallied(g, slice, v)
    ensures Tallied(g, slice, Ran(g, v, clock, now))
  {
    var u := Ran(g, v, clock, now);
    ExitPoint(g, v.used + 1);
    if StateOf(u) == Running {
      RunsOnTallied(g, slice, v, u);
    } else {
      LeavesTallied(g, slice, clock, v, u);
    }
  }

  // Still running: the slice goes on.
  lemma RunsOnTallied(g: Program, slice: int, v: Life, u: Life)
    requires slice >= 1 && v.hist != [] && StateOf(v) == Running && OnCourse(g, slice, v) && Tallied(g, slice, v)
    requires v.left > 1 && v.used + 1 !in g.profile && u.hist == v.hist && u.used == v.used + 1
    ensures Tallied(g, slice, u)
  {
    assert SlicesUsed(g.profile, slice, v.used + 2) ==
           SlicesUsed(g.profile, slice, v.used + 1) + if Phase(g.profile, slice, v.used + 1) == 0 then 1 else 0;
  }

  lemma LeavesTallied(g: Program, slice: int, clock: int, v: Life, u: Life)
    requires slice >= 1 && v.hist != [] && StateOf(v) == Running && v.used >= 0 && Tallied(g, slice, v)
    requires u.used == v.used + 1 && StateOf(u) in {Ready, Blocked, Terminated}
    requires u.hist == v.hist + [Stamp(clock, StateOf(u))]
    requires StateOf(u) == Blocked <==> u.used in g.profile
    ensures Tallied(g, slice, u)
  {
    HistoryGrows(v.hist, Stamp(clock, StateOf(u)));
  }

  lemma StepTallied(g: Program, slice: int, clock: int, now: int, v: Life, v': Life)
    requires slice >= 1 && OnCourse(g, slice, v) && Tallied(g, slice, v) && LifeStep(g, slice, clock, now, v, v')
    ensures Tallied(g, slice, v')
  {
    var u := Moved(g, v, clock, now);
    match StateOf(v) {
      case Blocked => WokenTallied(g, slice, clock, v);
      case Running => RanTallied(g, slice, clock, now, v);
      case _ =>
    }
    if StateOf(u) == Ready {
      StepOnCourse(g, slice, clock, now, v, u);
      ChosenTallied(g, slice, clock, u);
    }
  }

  lemma WokenTimed(g: Program, clock: int, v: Life)
    requires StateOf(v) == Blocked && v.wake <= clock + 1 && Timed(g, clock, v)
    ensures Timed(g, clock + 1, Woken(v, clock))
  {
    HistoryGrows(v.hist, Stamp(clock, Ready));
  }

  lemma ChosenTimed(g: Program, slice: int, clock: int, v: Life)
    requires StateOf(v) == Ready && Timed(g, clock + 1, v)
    ensures Timed(g, clock + 1, Chosen(v, clock, slice))
  {
    HistoryGrows(v.hist, Stamp(clock, Running));
  }

  lemma RanTimed(g: Program, clock: int, v: Life)
    requires StateOf(v) == Running && Timed(g, clock, v)
    ensures Timed(g, clock + 1, Ran(g, v, clock, clock + 1))
  {
    var u := Ran(g, v, clock, clock + 1);
    if StateOf(u) == Blocked {
      BlocksTimed(g, clock, v, u);
    } else if StateOf(u) != Running {
      LeavesTimed(g, clock, v, u);
    }
  }

  lemma BlocksTimed(g: Program, clock: int, v: Life, u: Life)
    requires StateOf(v) == Running && Timed(g, clock, v) && v.used + 1 in g.profile && u.used == v.used + 1
    requires u.hist == v.hist + [Stamp(clock, Blocked)] && u.wake == clock + 1 + g.profile[v.used + 1].duration
    ensures Timed(g, clock + 1, u)
  {
    HistoryGrows(v.hist, Stamp(clock, Blocked));
  }

  lemma LeavesTimed(g: Program, clock: int, v: Life, u: Life)
    requires StateOf(v) == Running && Timed(g, clock, v) && v.used + 1 !in g.profile && u.used == v.used + 1
    requires StateOf(u) in {Ready, Terminated} && u.hist == v.hist + [Stamp(clock, StateOf(u))]
    ensures Timed(g, clock + 1, u)
  {
    HistoryGrows(v.hist, Stamp(clock, StateOf(u)));
  }

  lemma StepTimed(g: Program, slice: int, clock: int, v: Life, v': Life)
    requires Timed(g, clock, v) && LifeStep(g, slice, clock, clock + 1, v, v')
    ensures Timed(g, clock + 1, v')
  {
    var u := Moved(g, v, clock, clock + 1);
    match StateOf(v) {
      case Blocked =>
        if v.wake <= clock + 1 {
          WokenTimed(g, clock, v);
        }
      case Running => RanTimed(g, clock, v);
      case _ =>
    }
    if StateOf(u) == Ready {
      ChosenTimed(g, slice, clock, u);
    }
  }

  lemma StepUsed(g: Program, slice: int, clock: int, now: int, v: Life, v': Life)
    requires LifeStep(g, slice, clock, now, v, v')
    ensures v'.used == v.used + if StateOf(v) == Running then 1 else 0
  {
  }

  // ---------- the work still ahead ----------

  // CPU ticks to run, pauses of the syscalls to come, and the rest of the current pause.
  function Ahead(g: Program, now: int, v: Life): int {
    (Finish(g) - v.used) + (IoTime(g.profile, Finish(g)) - IoTime(g.profile, v.used))
    + if StateOf(v) == Blocked then Max(1, v.wake - now) else 0
  }

  /** A tick brings a process closer to its end unless it is waiting to be dispatched. */
  lemma StepAhead(g: Program, slice: int, clock: int, now: int, v: Life, v': Life)
    requires v.used >= 0 && clock < now && LifeStep(g, slice, clock, now, v, v')
    ensures Ahead(g, now, v') <= Ahead(g, clock, v)
    ensures StateOf(v) == Running || StateOf(v) == Blocked ==> Ahead(g, now, v') < Ahead(g, clock, v)
  {
  }

  lemma AheadPositive(g: Program, now: int, v: Life)
    requires 0 <= v.used <= Finish(g)
    ensures Ahead(g, now, v) >= 0
    ensures v.used < Finish(g) ==> Ahead(g, now, v) >= 1
  {
    IoTimeMonotone(g.profile, v.used, Finish(g));
  }
}
