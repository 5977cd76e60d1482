/** The value types of the scheduler: process states and their transitions, syscalls, programs,
    policies, CPU events, and the notifications a kernel sends to its observers. */
module Types {

  type Pid = int

  datatype Option<+T> = None | Some(value: T)

  datatype ProcessState = New | Ready | Running | Blocked | Terminated

  datatype StateTransition = Admit | Dispatch | QuantumExpired | BlockingSyscall | IoComplete | Exit

  datatype SchedulingPolicy = FCFS | RoundRobin | Priority

  datatype KernelEvent = QuantumExpired | ProcessExit | SyscallBlock | CpuIdle

  datatype SyscallKind = IoRead | IoWrite | Sleep | Wait

  // The duration is a signed integer in the source; nothing keeps it positive.
  datatype Syscall = Syscall(kind: SyscallKind, duration: int)

  // The syscalls of a program, keyed by the CPU tick of the process at which they fire.
  type Profile = map<int, Syscall>

  datatype Program = Program(estimate: int, profile: Profile)

  // What an observer of the kernel is told, in order.
  datatype Notice =
    | Created(pid: Pid)
    | Transitioned(pid: Pid, from: ProcessState, to: ProcessState)
    | SwitchedContext(oldPid: Pid, newPid: Pid)
    | SchedulerInvoked(reason: KernelEvent)
    | Completed
    | TickDone(tick: int)

  // std::numeric_limits<int>::max() for a 32-bit int.
  const INT_MAX := 0x7FFF_FFFF

  predicate IsValidTransition(from: ProcessState, t: StateTransition) {
    match t
    case Admit => from == New
    case Dispatch => from == Ready
    case QuantumExpired => from == Running
    case BlockingSyscall => from == Running
    case IoComplete => from == Blocked
    case Exit => from == Running
  }

  function TargetState(t: StateTransition): ProcessState {
    match t
    case Admit => Ready
    case Dispatch => Running
    case QuantumExpired => Ready
    case BlockingSyscall => Blocked
    case IoComplete => Ready
    case Exit => Terminated
  }

  // One state may follow another: some transition is valid in the first and leads to the second.
  ghost predicate Follows(from: ProcessState, to: ProcessState) {
    exists t :: IsValidTransition(from, t) && TargetState(t) == to
  }

  function Max(a: int, b: int): int {
    if a < b then b else a
  }

  function Min(a: int, b: int): int {
    if a < b then a else b
  }
}
