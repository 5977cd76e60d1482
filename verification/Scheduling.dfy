/** The selection strategies and the scheduler, which changes the ready queue through its strategy. */
module Scheduling {
  import opened Types
  import opened ProcessControlBlocks
  import opened Queues
  import M = Machine

  datatype Strategy = FCFSStrategy | RoundRobinStrategy(timeQuantum: int) | PriorityStrategy(timeQuantum: int) {
    function DefaultQuantum(): int {
      match this
      case FCFSStrategy => INT_MAX
      case RoundRobinStrategy(q) => q
      case PriorityStrategy(q) => q
    }
  }

  function CreateStrategy(policy: SchedulingPolicy, timeQuantum: int): Strategy {
    match policy
    case FCFS => FCFSStrategy
    case RoundRobin => RoundRobinStrategy(timeQuantum)
    case Priority => PriorityStrategy(timeQuantum)
  }

  // The earliest process of highest priority in the queue.
  ghost predicate IsFirstMax(q: seq<ProcessControlBlock>, i: nat)
    reads q
  {
    && i < |q|
    && (forall j | 0 <= j < |q| :: q[j].priority <= q[i].priority)
    && (forall j | 0 <= j < i :: q[j].priority < q[i].priority)
  }

  // FCFSStrategy::selectNext and RoundRobinStrategy::selectNext.
  method SelectFront(ready: ReadyQueue) returns (pcb: ProcessControlBlock?)
    modifies ready
    ensures old(ready.queue) == [] ==> pcb == null && ready.queue == []
    ensures old(ready.queue) != [] ==> pcb == old(ready.queue)[0] && ready.queue == M.Without(old(ready.queue), 0)
  {
    if ready.queue == [] {
      return null;
    }
    pcb := ready.queue[0];
    ready.queue := ready.queue[1..];
  }

  // PriorityStrategy::selectNext: std::max_element returns the first of the largest.
  method SelectMax(ready: ReadyQueue) returns (pcb: ProcessControlBlock?, ghost at: nat)
    modifies ready
    ensures old(ready.queue) == [] ==> pcb == null && ready.queue == []
    ensures old(ready.queue) != [] ==>
      && old(IsFirstMax(ready.queue, at))
      && pcb == old(ready.queue)[at] && ready.queue == M.Without(old(ready.queue), at)
  {
    at := 0;
    if ready.queue == [] {
      return null, 0;
    }
    var best, i := 0, 1;
    while i < |ready.queue|
      invariant 1 <= i <= |ready.queue| && 0 <= best < i
      invariant forall j | 0 <= j < i :: ready.queue[j].priority <= ready.queue[best].priority
      invariant forall j | 0 <= j < best :: ready.queue[j].priority < ready.queue[best].priority
    {
      if ready.queue[best].priority < ready.queue[i].priority {
        best := i;
      }
      i := i + 1;
    }
    at := best;
    pcb := ready.queue[best];
    ready.queue := ready.queue[..best] + ready.queue[best + 1..];
  }

  class Scheduler {
    const policy: SchedulingPolicy
    const strategy: Strategy
    const memoryManager: MemoryManager

    constructor (policy: SchedulingPolicy, timeQuantum: int, memoryManager: MemoryManager)
      ensures this.policy == policy && this.memoryManager == memoryManager
      ensures strategy == CreateStrategy(policy, timeQuantum)
    {
      this.policy := policy;
      this.strategy := CreateStrategy(policy, timeQuantum);
      this.memoryManager := memoryManager;
    }

    method SelectNextProcess() returns (pcb: ProcessControlBlock?, ghost at: nat)
      modifies memoryManager.readyQueue
      ensures var q := old(memoryManager.readyQueue.queue);
        if q == [] then pcb == null && memoryManager.readyQueue.queue == []
        else
          && at < |q| && pcb == q[at] && memoryManager.readyQueue.queue == M.Without(q, at)
          && (if strategy.PriorityStrategy? then old(IsFirstMax(memoryManager.readyQueue.queue, at)) else at == 0)
    {
      at := 0;
      match strategy {
        case FCFSStrategy => pcb := SelectFront(memoryManager.readyQueue);
        case RoundRobinStrategy(_) => pcb := SelectFront(memoryManager.readyQueue);
        case PriorityStrategy(_) => pcb, at := SelectMax(memoryManager.readyQueue);
      }
    }
  }
}
