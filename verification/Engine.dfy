/** The clock and the simulation engine: the loop that ticks a kernel until nobody is active or the
    tick limit is reached. */
module Engine {
  import opened Machine
  import opened Consistency
  import opened Runs
  import opened Timing
  import opened Termination
  import opened KernelObject

  class ClockService {
    const tickInterval: int
    var currentTime: int

    constructor (tickInterval: int)
      ensures this.tickInterval == tickInterval && currentTime == 0
    {
      this.tickInterval := tickInterval;
      currentTime := 0;
    }

    // The source passes the new time to its callback.
    method Tick() returns (now: int)
      modifies this
      ensures now == currentTime == old(currentTime) + tickInterval
    {
      currentTime := currentTime + tickInterval;
      now := currentTime;
    }
  }

  // A run of ever so many steps of a transition relation.
  ghost predicate Chain<S, I>(step: (S, I, S) -> bool, states: seq<S>, inputs: seq<I>) {
    && |states| == |inputs| + 1
    && forall i {:trigger inputs[i]} | 0 <= i < |inputs| :: step(states[i], inputs[i], states[i + 1])
  }

  lemma ChainGrows<S, I>(step: (S, I, S) -> bool, states: seq<S>, inputs: seq<I>, x: I, s: S)
    requires Chain(step, states, inputs) && step(states[|inputs|], x, s)
    ensures Chain(step, states + [s], inputs + [x])
  {
    forall i {:trigger (inputs + [x])[i]} | 0 <= i < |inputs + [x]|
      ensures step((states + [s])[i], (inputs + [x])[i], (states + [s])[i + 1])
    {
      assert i < |inputs| ==> (inputs + [x])[i] == inputs[i];
    }
  }

  lemma ChainTail<S, I>(step: (S, I, S) -> bool, states: seq<S>, inputs: seq<I>)
    requires inputs != [] && Chain(step, states, inputs)
    ensures Chain(step, states[1..], inputs[1..])
  {
    forall i {:trigger inputs[1..][i]} | 0 <= i < |inputs[1..]|
      ensures step(states[1..][i], inputs[1..][i], states[1..][i + 1])
    {
      assert inputs[1..][i] == inputs[i + 1];
    }
  }

  // One tick that advances the clock by c while somebody is active and the limit is not reached.
  ghost predicate OneTick(k: System, x: Input, k': System, c: int, limit: int) {
    && HasActive(k) && k.now < limit
    && x.Elapse? && x.now == k.now + c && Legal(k, x) && k' == Apply(k, x)
  }

  ghost function Rule(c: int, limit: int): (System, Input, System) -> bool {
    (k, x, k') => OneTick(k, x, k', c, limit)
  }

  // The kernel gets from k to k' by such ticks alone.
  ghost predicate Ran(k: System, inputs: seq<Input>, k': System, c: int, limit: int) {
    exists states :: Chain(Rule(c, limit), states, inputs) && states[0] == k && states[|inputs|] == k'
  }

  lemma RanNothing(k: System, c: int, limit: int)
    ensures Ran(k, [], k, c, limit)
  {
    assert Chain(Rule(c, limit), [k], []);
  }

  lemma RanOneMore(k: System, inputs: seq<Input>, m: System, x: Input, m': System, c: int, limit: int)
    requires Ran(k, inputs, m, c, limit) && OneTick(m, x, m', c, limit)
    ensures Ran(k, inputs + [x], m', c, limit)
  {
    var states :| Chain(Rule(c, limit), states, inputs) && states[0] == k && states[|inputs|] == m;
    ChainGrows(Rule(c, limit), states, inputs, x, m');
    assert (states + [m'])[0] == k && (states + [m'])[|inputs + [x]|] == m';
  }

  lemma RanTick(k: System, tick: int, pending: seq<Entry>, completed: seq<Entry>, k': System, limit: int)
    returns (inputs: seq<Input>)
    requires HasActive(k) && k.now < limit && k.now < tick && IsPartition(k.blocked, tick, pending, completed)
    requires k' == Tick(k, tick, pending, completed)
    ensures |inputs| == 1 && Ran(k, inputs, k', tick - k.now, limit)
  {
    inputs := [Elapse(tick, pending, completed)];
    assert Chain(Rule(tick - k.now, limit), [k, k'], inputs);
  }

  lemma RanOn(k: System, sofar: seq<Input>, m: System, inputs: seq<Input>, m': System, c: int, limit: int)
    returns (all: seq<Input>)
    requires Ran(k, sofar, m, c, limit) && |inputs| == 1 && Ran(m, inputs, m', c, limit)
    ensures |all| == |sofar| + 1 && Ran(k, all, m', c, limit)
  {
    var states :| Chain(Rule(c, limit), states, inputs) && states[0] == m && states[|inputs|] == m';
    assert inputs == [inputs[0]];
    RanOneMore(k, sofar, m, inputs[0], m', c, limit);
    all := sofar + inputs;
  }

  // Such ticks are a run of the kernel.
  lemma {:induction false} ChainIsRun(states: seq<System>, inputs: seq<Input>, c: int, limit: int)
    requires Chain(Rule(c, limit), states, inputs)
    ensures LegalRun(states[0], inputs) && Spaced(states[0], inputs, c) && TicksOnly(inputs)
    ensures states[|inputs|] == Exec(states[0], inputs)
    decreases inputs
  {
    if inputs != [] {
      assert OneTick(states[0], inputs[0], states[1], c, limit);
      ChainTail(Rule(c, limit), states, inputs);
      ChainIsRun(states[1..], inputs[1..], c, limit);
      JoinedRun(states[0], states[1], inputs);
      JoinedSpacing(states[0], states[1], inputs, c);
      JoinedState(states[0], states[1], inputs);
    }
  }

  lemma {:induction false} RunTime(k: System, inputs: seq<Input>, c: int)
    requires Inv(k) && LegalRun(k, inputs) && Spaced(k, inputs, c) && TicksOnly(inputs)
    ensures Inv(Exec(k, inputs)) && Exec(k, inputs).now == k.now + c * |inputs|
    decreases inputs
  {
    if inputs != [] {
      ApplyStep(k, inputs[0]);
      RunTime(Apply(k, inputs[0]), inputs[1..], c);
      OneMore(c, |inputs| - 1);
    }
  }

  lemma OneMore(c: int, n: int)
    ensures c + c * n == c * (n + 1)
  {
  }

  lemma JoinedRun(k: System, m: System, inputs: seq<Input>)
    requires inputs != [] && Legal(k, inputs[0]) && m == Apply(k, inputs[0]) && LegalRun(m, inputs[1..])
    ensures LegalRun(k, inputs)
  {
  }

  lemma JoinedSpacing(k: System, m: System, inputs: seq<Input>, c: int)
    requires inputs != [] && inputs[0].Elapse? && inputs[0].now == k.now + c
    requires m == Apply(k, inputs[0]) && Spaced(m, inputs[1..], c)
    ensures Spaced(k, inputs, c)
  {
  }

  lemma JoinedState(k: System, m: System, inputs: seq<Input>)
    requires inputs != [] && m == Apply(k, inputs[0])
    ensures Exec(k, inputs) == Exec(m, inputs[1..])
  {
  }

  /** What the engine does to a consistent kernel is a run of ticks. */
  lemma RanFacts(k: System, inputs: seq<Input>, k': System, c: int, limit: int)
    requires Inv(k) && Ran(k, inputs, k', c, limit)
    ensures TicksOnly(inputs) && LegalRun(k, inputs) && Spaced(k, inputs, c) && k' == Exec(k, inputs)
    ensures Inv(k') && k'.now == k.now + c * |inputs|
  {
    var states :| Chain(Rule(c, limit), states, inputs) && states[0] == k && states[|inputs|] == k';
    ChainIsRun(states, inputs, c, limit);
    RunTime(k, inputs, c);
  }

  // A run to the limit has more than n ticks if n ticks do not get there.
  lemma RanLong(k: System, inputs: seq<Input>, k': System, c: int, limit: int, n: int)
    requires Inv(k) && Ran(k, inputs, k', c, limit) && c >= 1
    requires k'.now >= limit && c * n < limit - k.now
    ensures |inputs| > n
  {
    RanFacts(k, inputs, k', c, limit);
    ManyTicks(c, |inputs|, n, limit - k.now);
  }

  lemma RanTerminates(k: System, inputs: seq<Input>, k': System, c: int, limit: int)
    requires Inv(k) && Ran(k, inputs, k', c, limit) && |inputs| >= Potential(k)
    ensures !HasActive(k')
  {
    RanFacts(k, inputs, k', c, limit);
    TicksTerminate(k, inputs);
  }

  // The limit leaves as many ticks as the potential.
  ghost predicate TimeEnough(k: System, c: int, limit: int) {
    Inv(k) && c * (Potential(k) - 1) < limit - k.now
  }

  /** A run that stops only when nobody is active or at the limit: nobody is active in the end if
      there was time enough. */
  lemma EnoughTicks(k: System, inputs: seq<Input>, k': System, c: int, limit: int)
    requires c >= 1 && Ran(k, inputs, k', c, limit)
    requires HasActive(k') ==> k'.now >= limit
    ensures TimeEnough(k, c, limit) ==> !HasActive(k')
  {
    if TimeEnough(k, c, limit) && k'.now >= limit {
      RanLong(k, inputs, k', c, limit, Potential(k) - 1);
      RanTerminates(k, inputs, k', c, limit);
    }
  }

  lemma ManyTicks(c: int, ticks: int, n: int, time: int)
    requires c >= 1 && c * n < time <= c * ticks
    ensures ticks > n
  {
  }

  class SimulationEngine {
    const kernel: Kernel
    const maxTicks: int
    const clock: ClockService
    var running: bool
    var tickCount: int

    // Between two calls: the engine, its clock and the kernel agree on the time.
    ghost predicate Valid()
      reads this, clock, kernel, kernel.cpu, kernel.memoryManager.readyQueue, kernel.memoryManager.blockedQueue,
            kernel.allProcesses
    {
      && kernel.Valid()
      && clock.tickInterval >= 1
      && kernel.Abs().now == clock.currentTime == tickCount
    }

    constructor (kernel: Kernel, tickInterval: int, maxTicks: int)
      requires kernel.Valid() && kernel.currentTick == 0 && tickInterval >= 1
      ensures Valid() && this.kernel == kernel && this.maxTicks == maxTicks && clock.tickInterval == tickInterval
      ensures fresh(clock) && tickCount == 0
    {
      this.kernel, this.maxTicks := kernel, maxTicks;
      clock := new ClockService(tickInterval);
      running, tickCount := false, 0;
    }

    // The callback of the clock: the tick is counted and passed to the kernel. k is the state before.
    method OnTick(tick: int, ghost k: System, ghost limit: int) returns (ghost inputs: seq<Input>)
      requires kernel.Valid() && k == kernel.Abs() && HasActive(k) && k.now < limit && k.now < tick
      modifies this`tickCount, kernel`currentTick, kernel`log, kernel`thrown
      modifies kernel.memoryManager.readyQueue, kernel.memoryManager.blockedQueue, kernel.cpu
      modifies kernel.allProcesses`state, kernel.allProcesses`cpuTimeUsed, kernel.allProcesses`programCounter
      ensures kernel.Valid() && tickCount == kernel.currentTick == tick && |inputs| == 1
      ensures kernel.allProcesses == old(kernel.allProcesses)
      ensures Ran(k, inputs, kernel.Abs(), tick - k.now, limit)
    {
      tickCount := tick;
      assert kernel.Abs() == k;
      ghost var pending, completed := kernel.NotifyTick(tick);
      inputs := RanTick(k, tick, pending, completed, kernel.Abs(), limit);
    }

    // ClockService::tick with its callback. m is the state before.
    method Tick(ghost m: System, ghost limit: int) returns (ghost inputs: seq<Input>)
      requires Valid() && m == kernel.Abs() && HasActive(m) && tickCount < limit
      modifies this`tickCount, clock, kernel`currentTick, kernel`log, kernel`thrown
      modifies kernel.memoryManager.readyQueue, kernel.memoryManager.blockedQueue, kernel.cpu
      modifies kernel.allProcesses`state, kernel.allProcesses`cpuTimeUsed, kernel.allProcesses`programCounter
      ensures Valid() && tickCount == old(tickCount) + clock.tickInterval
      ensures kernel.allProcesses == old(kernel.allProcesses)
      ensures |inputs| == 1 && Ran(m, inputs, kernel.Abs(), clock.tickInterval, limit)
    {
      var now := clock.Tick();
      assert kernel.Abs() == m;
      inputs := OnTick(now, m, limit);
      assert now - m.now == clock.tickInterval;
    }

    // One tick, which takes a run that has come from k to m one tick further.
    method Advance(ghost k: System, ghost sofar: seq<Input>, ghost m: System, ghost limit: int)
      returns (ghost inputs: seq<Input>, ghost m': System, active: bool)
      requires Valid() && m == kernel.Abs() && HasActive(m) && tickCount < limit
      requires Ran(k, sofar, m, clock.tickInterval, limit)
      modifies this`tickCount, clock, kernel`currentTick, kernel`log, kernel`thrown
      modifies kernel.memoryManager.readyQueue, kernel.memoryManager.blockedQueue, kernel.cpu
      modifies kernel.allProcesses`state, kernel.allProcesses`cpuTimeUsed, kernel.allProcesses`programCounter
      ensures Valid() && tickCount == old(tickCount) + clock.tickInterval
      ensures kernel.allProcesses == old(kernel.allProcesses)
      ensures m' == kernel.Abs() && active == HasActive(m')
      ensures |inputs| == |sofar| + 1 && Ran(k, inputs, m', clock.tickInterval, limit)
    {
      inputs := Tick(m, limit);
      m' := kernel.Abs();
      inputs := RanOn(k, sofar, m, inputs, m', clock.tickInterval, limit);
      active := kernel.HasActiveProcesses();
    }

    // The loop of Run. Nothing stops it from outside. k and k' are the states before and after.
    method Loop(ghost k: System) returns (ghost inputs: seq<Input>, ghost k': System)
      requires Valid() && running && k == kernel.Abs()
      modifies this`tickCount, clock, kernel`currentTick, kernel`log, kernel`thrown
      modifies kernel.memoryManager.readyQueue, kernel.memoryManager.blockedQueue, kernel.cpu
      modifies kernel.allProcesses`state, kernel.allProcesses`cpuTimeUsed, kernel.allProcesses`programCounter
      ensures Valid() && k' == kernel.Abs()
      ensures Ran(k, inputs, k', clock.tickInterval, maxTicks)
      ensures HasActive(k') ==> tickCount >= maxTicks
    {
      inputs, k' := [], k;
      RanNothing(k, clock.tickInterval, maxTicks);
      var active := kernel.HasActiveProcesses();
      while running && active && tickCount < maxTicks
        invariant Valid() && k' == kernel.Abs() && active == HasActive(k')
        invariant kernel.allProcesses == old(kernel.allProcesses)
        invariant Ran(k, inputs, k', clock.tickInterval, maxTicks)
        decreases maxTicks - tickCount
      {
        inputs, k', active := Advance(k, inputs, k', maxTicks);
      }
    }

    /** Ticks until nobody is active or the limit is reached, and not once more. Nobody is active in
        the end if there was time enough. */
    method Run() returns (ghost inputs: seq<Input>)
      requires Valid()
      modifies this`running, this`tickCount, clock, kernel`currentTick, kernel`log, kernel`thrown
      modifies kernel.memoryManager.readyQueue, kernel.memoryManager.blockedQueue, kernel.cpu
      modifies kernel.allProcesses`state, kernel.allProcesses`cpuTimeUsed, kernel.allProcesses`programCounter
      ensures Valid() && !running
      ensures Ran(old(kernel.Abs()), inputs, kernel.Abs(), clock.tickInterval, maxTicks)
      ensures HasActive(kernel.Abs()) ==> tickCount >= maxTicks
      ensures TimeEnough(old(kernel.Abs()), clock.tickInterval, maxTicks) ==> !HasActive(kernel.Abs())
    {
      ghost var k, c := kernel.Abs(), clock.tickInterval;
      running := true;
      assert kernel.Abs() == k;
      ghost var k';
      inputs, k' := Loop(k);
      running := false;
      assert kernel.Abs() == k';
      EnoughTicks(k, inputs, k', c, maxTicks);
    }

    /** One tick if anybody is active, otherwise nothing; the limit does not matter. */
    method Step() returns (ghost inputs: seq<Input>)
      requires Valid()
      modifies this`tickCount, clock, kernel`currentTick, kernel`log, kernel`thrown
      modifies kernel.memoryManager.readyQueue, kernel.memoryManager.blockedQueue, kernel.cpu
      modifies kernel.allProcesses`state, kernel.allProcesses`cpuTimeUsed, kernel.allProcesses`programCounter
      ensures Valid() && Ran(old(kernel.Abs()), inputs, kernel.Abs(), clock.tickInterval, old(tickCount) + 1)
      ensures |inputs| == if HasActive(old(kernel.Abs())) then 1 else 0
    {
      ghost var k := kernel.Abs();
      var active := kernel.HasActiveProcesses();
      if active {
        inputs := Tick(k, tickCount + 1);
      } else {
        inputs := [];
        RanNothing(k, clock.tickInterval, tickCount + 1);
      }
    }
  }
}
