/** The CPU: it executes one tick of the loaded process and reports at most one event. The callback of
    the source is the returned event, since the CPU does nothing after raising one. */
module CpuUnit {
  import opened Types
  import opened ProcessControlBlocks
  import M = Machine

  datatype CpuState = Idle | Executing

  class CPU {
    var currentProcess: ProcessControlBlock?
    var currentProfile: Profile
    var remainingQuantum: int
    var state: CpuState

    ghost predicate Valid()
      reads this
    {
      state.Executing? <==> currentProcess != null
    }

    function Abs(): M.Cpu
      reads this
    {
      if currentProcess == null then M.Idle
      else M.Executing(currentProcess.pid, currentProfile, remainingQuantum)
    }

    ghost function Loaded(): set<ProcessControlBlock>
      reads this
    {
      if currentProcess == null then {} else {currentProcess}
    }

    constructor ()
      ensures Valid() && Abs() == M.Idle
    {
      currentProcess, currentProfile, remainingQuantum, state := null, map[], 0, Idle;
    }

    method ExecuteTick() returns (event: Option<KernelEvent>)
      requires Valid()
      modifies this`remainingQuantum, Loaded()`cpuTimeUsed, Loaded()`programCounter
      ensures Valid()
      ensures currentProcess == null ==> event == Some(CpuIdle) && Abs() == old(Abs())
      ensures currentProcess != null ==>
        var b := old(currentProcess.Abs());
        && currentProcess.Abs() == b.(used := b.used + 1, counter := b.counter + 1)
        && currentProcess.cpuTimeUsed == old(currentProcess.cpuTimeUsed) + 1
        && currentProcess.programCounter == old(currentProcess.programCounter) + 1
        && remainingQuantum == old(remainingQuantum) - 1
        && event == if currentProcess.cpuTimeUsed in currentProfile then Some(SyscallBlock)
                    else if currentProcess.cpuTimeUsed >= currentProcess.estimatedCpuTime then Some(ProcessExit)
                    else if remainingQuantum <= 0 then Some(KernelEvent.QuantumExpired)
                    else None
    {
      if state.Idle? {
        return Some(CpuIdle);
      }
      currentProcess.IncrementCpuTime(1);
      remainingQuantum := remainingQuantum - 1;
      currentProcess.AdvanceProgramCounter();
      if currentProcess.cpuTimeUsed in currentProfile {
        return Some(SyscallBlock);
      }
      if currentProcess.IsFinished() {
        return Some(ProcessExit);
      }
      if remainingQuantum <= 0 {
        return Some(KernelEvent.QuantumExpired);
      }
      return None;
    }

    method LoadProcess(pcb: ProcessControlBlock, profile: Profile, quantum: int)
      modifies this
      ensures Valid() && currentProcess == pcb && Abs() == M.Executing(pcb.pid, profile, quantum)
      ensures currentProfile == profile && remainingQuantum == quantum && state == Executing
    {
      currentProcess, currentProfile, remainingQuantum, state := pcb, profile, quantum, Executing;
    }

    method UnloadProcess() returns (pcb: ProcessControlBlock?)
      modifies this
      ensures Valid() && pcb == old(currentProcess) && Abs() == M.Idle
      ensures currentProcess == null && currentProfile == map[] && remainingQuantum == 0 && state == Idle
    {
      pcb := currentProcess;
      currentProcess, currentProfile, remainingQuantum, state := null, map[], 0, Idle;
    }
  }
}
