/** The process control block: one object, shared by the master list, the queues and the CPU. */
module ProcessControlBlocks {
  import opened Types
  import M = Machine

  class ProcessControlBlock {
    const pid: Pid
    const estimatedCpuTime: int
    var state: ProcessState
    var priority: int
    var cpuTimeUsed: int
    var programCounter: int

    function Abs(): M.Pcb
      reads this
    {
      M.Pcb(state, priority, cpuTimeUsed, estimatedCpuTime, programCounter)
    }

    constructor (pid: Pid, estimatedCpuTime: int)
      ensures this.pid == pid && this.estimatedCpuTime == estimatedCpuTime && state == New
      ensures priority == cpuTimeUsed == programCounter == 0
      ensures Abs() == M.Pcb(New, 0, 0, estimatedCpuTime, 0)
    {
      this.pid := pid;
      this.estimatedCpuTime := estimatedCpuTime;
      state, priority, cpuTimeUsed, programCounter := New, 0, 0, 0;
    }

    /** The only way to change the state: each transition is valid in exactly one state, and none in TERMINATED. The
        source throws where this returns false. */
    method ApplyTransition(t: StateTransition) returns (ok: bool)
      modifies this`state
      ensures ok <==>
        || (old(state) == New && t == Admit)
        || (old(state) == Ready && t == Dispatch)
        || (old(state) == Running && t == StateTransition.QuantumExpired)
        || (old(state) == Running && t == BlockingSyscall)
        || (old(state) == Running && t == Exit)
        || (old(state) == Blocked && t == IoComplete)
      ensures ok ==> state == match t
        case Admit => Ready
        case Dispatch => Running
        case QuantumExpired => Ready
        case BlockingSyscall => Blocked
        case IoComplete => Ready
        case Exit => Terminated
      ensures !ok ==> state == old(state)
      ensures ok == IsValidTransition(old(state), t) && (ok ==> state == TargetState(t))
    {
      ok := IsValidTransition(state, t);
      if ok {
        state := TargetState(t);
      }
    }

    method IncrementCpuTime(ticks: int)
      modifies this`cpuTimeUsed
      ensures cpuTimeUsed == old(cpuTimeUsed) + ticks
    {
      cpuTimeUsed := cpuTimeUsed + ticks;
    }

    method AdvanceProgramCounter()
      modifies this`programCounter
      ensures programCounter == old(programCounter) + 1
    {
      programCounter := programCounter + 1;
    }

    method SetPriority(p: int)
      modifies this`priority
      ensures priority == p
    {
      priority := p;
    }

    predicate IsFinished()
      reads this
    {
      cpuTimeUsed >= estimatedCpuTime
    }
  }
}
