/** Reading a notification log: the clock an observer keeps, and the history of one process. */
module Logs {
  import opened Types

  // A process entered a state while the observer's clock showed this tick.
  datatype Stamp = Stamp(tick: int, state: ProcessState)

  // The tick of the last TickDone notice, 0 before the first.
  function Clock(log: seq<Notice>): int {
    if log == [] then 0
    else
      var last := log[|log| - 1];
      if last.TickDone? then last.tick else Clock(log[..|log| - 1])
  }

  // What one notice adds to the history of process p.
  function Stamps(e: Notice, p: Pid, clock: int): seq<Stamp> {
    match e
    case Created(q) => if p == q then [Stamp(clock, New)] else []
    case Transitioned(q, _, to) => if p == q then [Stamp(clock, to)] else []
    case _ => []
  }

  // The states process p went through, each stamped with the clock at that moment.
  function History(log: seq<Notice>, p: Pid): seq<Stamp> {
    if log == [] then []
    else
      var before := log[..|log| - 1];
      History(before, p) + Stamps(log[|log| - 1], p, Clock(before))
  }

  lemma LogGrows(log: seq<Notice>, e: Notice)
    ensures Clock(log + [e]) == if e.TickDone? then e.tick else Clock(log)
    ensures forall p :: History(log + [e], p) == History(log, p) + Stamps(e, p, Clock(log))
  {
    assert (log + [e])[..|log|] == log;
  }

  function Count(h: seq<Stamp>, s: ProcessState): nat {
    if h == [] then 0
    else Count(h[..|h| - 1], s) + if h[|h| - 1].state == s then 1 else 0
  }

  // How often the state `to` came directly after the state `from`.
  function Passages(h: seq<Stamp>, from: ProcessState, to: ProcessState): nat {
    if |h| <= 1 then 0
    else
      Passages(h[..|h| - 1], from, to)
      + if h[|h| - 2].state == from && h[|h| - 1].state == to then 1 else 0
  }

  // Total time between entering the state s and the next change, over the closed stays only.
  function TimeIn(h: seq<Stamp>, s: ProcessState): int {
    if |h| <= 1 then 0
    else
      TimeIn(h[..|h| - 1], s)
      + if h[|h| - 2].state == s then h[|h| - 1].tick - h[|h| - 2].tick else 0
  }

  lemma HistoryGrows(h: seq<Stamp>, x: Stamp)
    ensures forall s :: Count(h + [x], s) == Count(h, s) + if x.state == s then 1 else 0
    ensures forall s :: TimeIn(h + [x], s) ==
                        TimeIn(h, s) + if h != [] && h[|h| - 1].state == s then x.tick - h[|h| - 1].tick else 0
    ensures forall s, t :: Passages(h + [x], s, t) ==
                           Passages(h, s, t) + if h != [] && h[|h| - 1].state == s && x.state == t then 1 else 0
  {
    assert (h + [x])[..|h|] == h;
  }
}
