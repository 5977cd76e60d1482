/** The ready queue and the blocked queue, updated in place, and the memory manager in front of them. */
module Queues {
  import opened ProcessControlBlocks
  import M = Machine

  // Where a process of this priority belongs: before the first one of lower priority.
  ghost predicate Belongs(q: seq<ProcessControlBlock>, priority: int, i: nat)
    reads q
  {
    && i <= |q|
    && (forall j | 0 <= j < i :: q[j].priority >= priority)
    && (i < |q| ==> q[i].priority < priority)
  }

  class ReadyQueue {
    var queue: seq<ProcessControlBlock>

    constructor ()
      ensures queue == []
    {
      queue := [];
    }

    method Enqueue(pcb: ProcessControlBlock)
      modifies this
      ensures queue == old(queue) + [pcb]
    {
      queue := queue + [pcb];
    }

    method Dequeue() returns (pcb: ProcessControlBlock?)
      modifies this
      ensures old(queue) == [] ==> pcb == null && queue == []
      ensures old(queue) != [] ==> pcb == old(queue)[0] && queue == old(queue)[1..]
    {
      if queue == [] {
        return null;
      }
      pcb := queue[0];
      queue := queue[1..];
    }

    method EnqueueByPriority(pcb: ProcessControlBlock) returns (ghost at: nat)
      modifies this
      ensures Belongs(old(queue), pcb.priority, at)
      ensures queue == M.Insert(old(queue), at, pcb)
    {
      var i := 0;
      while i < |queue| && queue[i].priority >= pcb.priority
        invariant 0 <= i <= |queue|
        invariant forall j | 0 <= j < i :: queue[j].priority >= pcb.priority
      {
        i := i + 1;
      }
      at := i;
      queue := queue[..i] + [pcb] + queue[i..];
    }
  }

  // The elements at i and j exchanged.
  function Swapped<T>(s: seq<T>, i: nat, j: nat): (r: seq<T>)
    requires i < j < |s|
    ensures |r| == |s| && r[i] == s[j] && r[j] == s[i]
    ensures forall x | 0 <= x < |s| && x != i && x != j :: r[x] == s[x]
  {
    s[i := s[j]][j := s[i]]
  }

  lemma SwapKeeps<T>(s: seq<T>, i: nat, j: nat)
    requires i < j < |s|
    ensures multiset(Swapped(s, i, j)) == multiset(s)
  {
  }

  datatype BlockedEntry = BlockedEntry(pcb: ProcessControlBlock, wakeupTick: int)

  class BlockedQueue {
    var entries: seq<BlockedEntry>

    constructor ()
      ensures entries == []
    {
      entries := [];
    }

    method Add(pcb: ProcessControlBlock, wakeupTick: int)
      modifies this
      ensures entries == old(entries) + [BlockedEntry(pcb, wakeupTick)]
    {
      entries := entries + [BlockedEntry(pcb, wakeupTick)];
    }

    method Exchange(i: nat, j: nat)
      requires i < j < |entries|
      modifies this
      ensures entries == Swapped(old(entries), i, j) && multiset(entries) == multiset(old(entries))
    {
      SwapKeeps(entries, i, j);
      entries := entries[i := entries[j]][j := entries[i]];
    }

    // Moves the entries that are still waiting to the front and says where the others begin. How a
    // standard library does it is not specified; this is the usual exchange from both ends.
    method Partition(currentTick: int) returns (split: nat)
      modifies this
      ensures multiset(entries) == multiset(old(entries))
      ensures split <= |entries|
      ensures forall e | e in entries[..split] :: e.wakeupTick > currentTick
      ensures forall e | e in entries[split..] :: e.wakeupTick <= currentTick
    {
      var first, last := 0, |entries|;
      while first < last
        invariant 0 <= first <= last <= |entries|
        invariant multiset(entries) == multiset(old(entries))
        invariant forall j | 0 <= j < first :: entries[j].wakeupTick > currentTick
        invariant forall j | last <= j < |entries| :: entries[j].wakeupTick <= currentTick
        decreases last - first
      {
        if entries[first].wakeupTick > currentTick {
          first := first + 1;
        } else if entries[last - 1].wakeupTick <= currentTick {
          last := last - 1;
        } else {
          Exchange(first, last - 1);
          first, last := first + 1, last - 1;
        }
      }
      split := first;
    }

    /** The processes whose I/O has completed leave the queue; nobody is lost, duplicated, or released early. */
    method GetCompleted(currentTick: int) returns (completed: seq<ProcessControlBlock>, ghost gone: seq<BlockedEntry>)
      modifies this
      ensures multiset(old(entries)) == multiset(entries) + multiset(gone)
      ensures forall e | e in entries :: e.wakeupTick > currentTick
      ensures forall e | e in gone :: e.wakeupTick <= currentTick
      ensures |completed| == |gone| && forall j | 0 <= j < |gone| :: completed[j] == gone[j].pcb
    {
      var split := Partition(currentTick);
      gone := entries[split..];
      completed := [];
      var i := split;
      while i < |entries|
        invariant split <= i <= |entries|
        invariant |completed| == i - split
        invariant forall j | 0 <= j < i - split :: completed[j] == entries[split + j].pcb
      {
        completed := completed + [entries[i].pcb];
        i := i + 1;
      }
      assert entries == entries[..split] + entries[split..];
      entries := entries[..split];
    }
  }

  // Owns the two queues and forwards to them.
  class MemoryManager {
    const readyQueue: ReadyQueue
    const blockedQueue: BlockedQueue

    constructor ()
      ensures fresh(readyQueue) && fresh(blockedQueue)
      ensures readyQueue.queue == [] && blockedQueue.entries == []
    {
      readyQueue := new ReadyQueue();
      blockedQueue := new BlockedQueue();
    }

    method EnqueueReady(pcb: ProcessControlBlock)
      modifies readyQueue
      ensures readyQueue.queue == old(readyQueue.queue) + [pcb]
    {
      readyQueue.Enqueue(pcb);
    }

    method EnqueueReadyByPriority(pcb: ProcessControlBlock) returns (ghost at: nat)
      modifies readyQueue
      ensures Belongs(old(readyQueue.queue), pcb.priority, at)
      ensures readyQueue.queue == M.Insert(old(readyQueue.queue), at, pcb)
    {
      at := readyQueue.EnqueueByPriority(pcb);
    }

    method DequeueReady() returns (pcb: ProcessControlBlock?)
      modifies readyQueue
      ensures old(readyQueue.queue) == [] ==> pcb == null && readyQueue.queue == []
      ensures old(readyQueue.queue) != [] ==>
        pcb == old(readyQueue.queue)[0] && readyQueue.queue == old(readyQueue.queue)[1..]
    {
      pcb := readyQueue.Dequeue();
    }

    method MoveToBlocked(pcb: ProcessControlBlock, wakeupTick: int)
      modifies blockedQueue
      ensures blockedQueue.entries == old(blockedQueue.entries) + [BlockedEntry(pcb, wakeupTick)]
    {
      blockedQueue.Add(pcb, wakeupTick);
    }

    method CheckBlockedCompletions(currentTick: int)
      returns (completed: seq<ProcessControlBlock>, ghost gone: seq<BlockedEntry>)
      modifies blockedQueue
      ensures multiset(old(blockedQueue.entries)) == multiset(blockedQueue.entries) + multiset(gone)
      ensures forall e | e in blockedQueue.entries :: e.wakeupTick > currentTick
      ensures forall e | e in gone :: e.wakeupTick <= currentTick
      ensures |completed| == |gone| && forall j | 0 <= j < |gone| :: completed[j] == gone[j].pcb
    {
      completed, gone := blockedQueue.GetCompleted(currentTick);
    }
  }
}
