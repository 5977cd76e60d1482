# The scheduler of VisOS, proved

VisOS simulates an operating system scheduler: programs are admitted to a kernel, a clock ticks it, and
in each tick the kernel wakes the processes whose I/O is over, lets the CPU execute one tick of the
running process, and reacts to the one event the CPU may raise: a syscall, the exit of the process, the
end of its quantum, or an idle CPU. FCFS, Round Robin and Priority decide who is dispatched.

The project has three layers.

**Objects.** `ProcessControlBlocks`, `CpuUnit`, `Queues`, `Scheduling`, `KernelObject`, `Engine` and
`GanttModels` hold the classes of the program. They update their fields in place and share process
control blocks: the master list, the two queues and the CPU refer to the same objects. Every method
of the class `Kernel` is proved to be the function of the same name on the value `Kernel.Abs()`, the
loop of `SimulationEngine.Run` to be a run of ticks, and `GanttModel` to be the fold of its notices.
`Simulation` puts them together as the command line does.

**State machine.** `Machine` defines the state of a kernel as a value, what one call does to it, and
runs: any sequence of admissions, changes of priority and ticks. The one freedom of a tick is the order in
which `std::partition` leaves the blocked entries, so a tick takes both parts of the partition as inputs and
the theorems hold for every order. Two-run theorems feed the same inputs, hence the same partitions,
to both kernels.

**Theory.** `Programs` and `Slices` say what a program does by itself: the CPU tick `Finish(g)` at
which it exits (the first tick from max(1, estimate) on with no syscall), its fired syscalls, its CPU bursts,
and how a quantum cuts the bursts into slices. `Lives` describes one process as it sees itself. `Consistency`,
`Turns`, `Projection` and `Runs` prove the invariant of the kernel and that each process, seen alone, lives such a
life, whoever else is there. The other modules draw the conclusions about whole runs.

Notions used in the table:

- A state is *reachable* if some run leads to it from a fresh kernel, under any policy and any quantum; `Inv` is the
  invariant of all reachable states. *By unit ticks* means that each tick advances the clock by one.
- `History(log, p)` is the list of states the observers were told for p, each stamped with the tick that was
  last reported as completed.
- A quantum below 1 behaves like 1, because the CPU checks it after executing a tick. `Slice` is the quantum so
  corrected; under FCFS it is the largest 32-bit integer.
- A pause is max(1, duration): a syscall of any duration, even a negative one, blocks for at least one tick.
- An exception is a flag `thrown` of the state, which stays false in every reachable state.

Where the documentation and the code differ, the model follows the code. README.md:169 of the repository says
that `std::partition` preserves the order of the entries still waiting. The C++ standard promises only the
split, and only that is assumed. README.md:622 says that the notice of a context switch is a no-op; it is proved that it is
never sent. README.md:111 says that Round Robin behaves like FCFS if the quantum is large; the exact
condition is proved, burst by burst. README.md:110 calls Round Robin fair; the bound of one quantum is proved, and the exact completion times.
README.md:117 makes the order of arrival the tie-breaker of Priority. Among processes that are already in the ready
queue that is proved for whole runs. For one that joins the queue later it depends: priorities can only be given
after the admission (README.md:621), when the process is READY, and setPriority does not move it in the queue
(src/core/process_control_block.hpp:55). A joining process comes to stand behind another one exactly if nobody of lower
priority than its own stands before that one, or is that one (`JoinsBehindIff`), and a preempted one is selected again exactly if it finds a front of
lower priority (`KeepsCpuIff`). So after setPriority on READY processes, in ascending order for instance, the
tie-breaker fails: a process can wait behind an equal for as long as that one computes (`TieStarves`), and a newcomer
can overtake an equal (`NewcomerOvertakes`); both states are exhibited. Ticks and admissions never bring such a
situation about: once nobody of lower priority stands before a process, only a change of priority can put somebody
there, and with that condition first come, first served and the bound on the waiting time are proved for whole runs.
README.md:620 says that low priorities can starve; it is proved how long a process of highest priority
keeps everybody else waiting. The report of the Gantt model overstates the RUNNING
time of a process that is still on the CPU by one tick, since a dispatch is stamped one tick before the first
CPU tick it leads to (a state where it does is exhibited); for a terminated process the sum is exact.

`dafny verify dfyconfig.toml` checks everything.

## Model

| member | source | states |
|---|---|---|
| ProcessControlBlocks.ProcessControlBlock.ApplyTransition | src/core/process_control_block.cpp:16-27 | Each transition is applied exactly in the one state it is valid in (the six pairs and their targets are spelled out); every other pair, and everything in TERMINATED, is rejected, nothing changes and the caller learns it (the source throws). |
| CpuUnit.CPU.ExecuteTick | src/services/cpu.cpp:10-46 | One CPU tick, on the fields: an idle CPU only reports that it is idle; otherwise the CPU time and the program counter of the process have grown by one, the remaining quantum has shrunk by one, and the event is the syscall if there is one, else the exit, else the expiry, else none. |
| CpuUnit.CPU.LoadProcess | src/services/cpu.cpp:48-54 | The CPU executes this process with this profile and quantum, in its fields. |
| CpuUnit.CPU.UnloadProcess | src/services/cpu.cpp:56-63 | The process that was loaded is returned and the CPU is idle. |
| Queues.ReadyQueue.Dequeue | src/services/ready_queue.cpp:11-18 | The first process leaves the queue, or null from an empty one. |
| Queues.ReadyQueue.EnqueueByPriority | src/services/ready_queue.cpp:28-34 | The process is inserted where everybody before has at least its priority and the next one has less; the others keep their order. |
| Queues.BlockedQueue.Partition | src/services/blocked_queue.cpp:15-18 | In-place exchange: the entries are a permutation of the old ones, those still waiting first, the due ones behind. |
| Queues.BlockedQueue.GetCompleted | src/services/blocked_queue.cpp:11-26 | No entry is lost or duplicated; what stays wakes later than now, what leaves is due, and the result lists the processes of what left. |
| Scheduling.SelectFront | src/services/scheduling/round_robin_strategy.cpp:10-19 | Round Robin takes the front of the queue, or null. |
| Scheduling.SelectMax | src/services/scheduling/priority_strategy.cpp:13-29 | Priority takes the earliest process of highest priority, or null; the others keep their order. |
| Scheduling.Scheduler.SelectNextProcess | src/services/scheduler.cpp:18-24 | The ready queue loses the process chosen by the strategy of the policy: the earliest maximum for Priority, the front otherwise. |
| KernelObject.Kernel.TransitionState | src/kernel/kernel.cpp:237-243 | A valid transition changes the state of one shared control block and sends one notice; an invalid one is the exception, without a change and without a notice. On the fields, and as the step of the state machine. |
| KernelObject.Kernel.DispatchNext | src/kernel/kernel.cpp:191-221 | Select, transition, load profile and quantum, and notify: the dispatch of the state machine. If anybody was ready the CPU is loaded with a whole quantum: 2147483647 under FCFS, the configured one otherwise. |
| KernelObject.Kernel.EnqueueReady | src/kernel/kernel.cpp:155-160 | The process becomes the last of the ready queue; under Priority it is put where everybody before has at least its priority and the next one has less. |
| KernelObject.Kernel.FiredSyscall | src/kernel/kernel.cpp:120-130 | The syscall of the stored profile at the CPU time of the process, or IoRead of duration 3. |
| KernelObject.Kernel.HandleSyscallBlock | src/kernel/kernel.cpp:119-147 | The process blocks until the current tick plus the duration of the syscall looked up for it, and the next one is dispatched. |
| KernelObject.Kernel.HandleQuantumExpired | src/kernel/kernel.cpp:149-165 | The process goes back to the ready queue, at the end or by priority, and the next one is dispatched. |
| KernelObject.Kernel.HandleProcessExit | src/kernel/kernel.cpp:167-184 | The process terminates, the next one is dispatched, and the end is announced if nobody is active. |
| KernelObject.Kernel.HasActiveProcesses | src/kernel/kernel.cpp:70-77 | The scan finds out whether some process has not terminated. |
| KernelObject.Kernel.CheckBlockedCompletions | src/kernel/kernel.cpp:223-235 | The blocked entries are partitioned by the current tick, and the completed ones are woken one after another in the order found; under FCFS and Round Robin they stand at the end of the ready queue in that order. |
| KernelObject.Kernel.NotifyTick | src/kernel/kernel.cpp:57-68 | A tick of the object is a tick of the state machine, for the partition that was found. |
| KernelObject.Kernel.RunProgram | src/kernel/kernel.cpp:26-55 | An unknown program changes nothing and fails; a stored one is admitted as in the state machine, with a fresh PID, although its control block joins the master list last. |
| KernelObject.Kernel.SetPriority | src/core/process_control_block.hpp:55 | Changing the priority of a shared control block between ticks is the change of priority of the state machine. |
| Engine.SimulationEngine.Run | src/kernel/simulation_engine.cpp:18-34 | The loop ends; what it did to the kernel is a run of ticks, none after everybody had terminated or at the limit; it stops only when nobody is active or the limit is reached, and nobody is active if (potential - 1) ticks of the clock end before the limit. |
| Engine.SimulationEngine.Step | src/kernel/simulation_engine.cpp:36-40 | One tick if somebody is active, otherwise nothing. |
| Engine.RanFacts | src/kernel/simulation_engine.cpp:8-15 | What the engine did is a legal run of ticks spaced by the tick interval, and the clock has advanced by the interval times their number. |
| Engine.EnoughTicks | src/kernel/simulation_engine.cpp:22-25 | A run that stopped only for one of the two reasons has terminated everybody if the tick limit left as many ticks as the potential. |
| Simulation.Simulate | app/cli/main.cpp:103-118 | Programs submitted, started and run: the final state is reachable by unit ticks, and everybody has terminated if the limit is at least 1 + all CPU time + all pauses. |
| Simulation.SimulationReaches | src/kernel/simulation_engine.cpp:18-34 | Whatever the engine makes of a workload is a state that the theorems about reachable states cover. |
| Simulation.ReportedCpuTime | app/gui/models/gantt_model.cpp:125-139 | The RUNNING sum of the report for a terminated process, computed from segments drawn from the notices alone, is the CPU time in its control block. |
| Programs.Finish | src/services/cpu.cpp:25-37 | The exit tick exists and is the least tick from max(1, estimate) on with no syscall, because a syscall at a tick wins over the exit. |
| Programs.ExitPoint | src/services/cpu.cpp:25-37 | Up to the exit tick, a CPU tick without syscall ends the process exactly if it is the exit tick. |
| Slices.SlicesOfProgram | src/services/cpu.cpp:16-43 | A program run to its end takes the sum, over its CPU bursts, of the burst divided by the quantum and rounded up. |
| Slices.CeilDivIsCeiling | src/services/cpu.cpp:39-43 | The count of slices of a burst is its length divided by the quantum, rounded up. |
| Slices.CutsAscend | src/services/cpu.cpp:25-37 | The bursts lie between 0, the fired syscalls and the exit tick: exactly these ticks, ascending. |
| Slices.FitsIffNoExpiry | src/services/cpu.cpp:39-43 | The quantum never expires on a program if and only if every one of its bursts fits into it. |
| Runs.RunKeepsInv | src/kernel/kernel.cpp:26-68 | The invariant holds in every state of every run, whatever is admitted, re-prioritised or woken, in any order. |
| Projection.TickStep | src/kernel/kernel.cpp:57-68 | A tick keeps the invariant, and an idle CPU after it means an empty ready queue. |
| Projection.TickLife | src/kernel/kernel.cpp:57-68 | What a tick does to one process depends on the others only through the choice whether it is dispatched. |
| Outcomes.LocationInvariant | src/kernel/kernel.cpp:119-235 | In every reachable state each process is in exactly one place, once, the one its state names; no transition ever threw; no notice of a context switch was ever sent. |
| Completion.DetectedIsServiced | src/kernel/kernel.cpp:120-130 | The syscall the CPU detects in its loaded profile is the one the kernel finds in the stored profile: the lookup succeeds, and the default is never used. |
| Outcomes.FlowConservation | src/core/process_control_block.hpp:78-104 | Per process: dispatches = expiries + blocks + exits + [running]; admissions + expiries + I/O completions = dispatches + [ready]; blocks = I/O completions + [blocked]; one admission; one exit exactly if terminated. |
| Outcomes.ScheduleIndependentProgress | src/services/cpu.cpp:16-37 | A live process has used less than its exit tick and a terminated one exactly that; at any moment it has blocked once for each syscall among the ticks it has used; its program counter is its CPU time. |
| Outcomes.SameOutcome | src/services/cpu.cpp:25-37 | Two terminated processes of the same program, in any two runs, used the same CPU time and blocked equally often; with the same quantum they were also dispatched and preempted equally often. |
| Outcomes.DispatchCount | src/kernel/kernel.cpp:119-221 | A terminated process was dispatched the sum over its bursts of burst / quantum rounded up, whoever its competitors were. |
| Outcomes.PreemptionCount | src/kernel/kernel.cpp:149-165 | At any moment a process has been preempted once for each tick so far at which its own program uses up a slice. |
| Outcomes.NeverPreemptedIff | src/kernel/kernel.cpp:149-165 | A terminated process was never preempted if and only if each of its bursts fits into the quantum. |
| Outcomes.FcfsNeverPreempts | src/services/scheduling/fcfs_strategy.cpp:17-20 | Under FCFS a process whose program exits by CPU tick 2147483647 is never preempted, and a terminated one was never preempted if and only if none of its bursts is longer than that. |
| Outcomes.TerminatedForGood | src/core/process_control_block.cpp:16-27 | Nothing is valid in TERMINATED: over any run a terminated process keeps its state, its CPU time and its history. |
| Termination.TickLowersPotential | src/kernel/kernel.cpp:57-68 | While anybody is active, every tick lowers the potential: CPU ticks to come, pauses to come, rests of current pauses, and one for an idle CPU with somebody ready. Any policy, any wake order. |
| Termination.PotentialPositive | src/kernel/kernel.cpp:70-77 | The potential is never negative, and at least 1 while anybody is active. |
| Termination.TicksTerminate | src/kernel/simulation_engine.cpp:22-25 | After as many ticks as the potential everybody has terminated. |
| Workloads.LoadedPotential | src/kernel/kernel.cpp:26-55 | The potential of a workload admitted up front is 1 + all CPU time + all pauses. |
| Workloads.MakespanBounds | src/kernel/simulation_engine.cpp:22-25 | Under every policy a workload is not done after as many ticks as its CPU time, and done after 1 + CPU time + pauses. |
| Workloads.Makespan | src/kernel/kernel.cpp:186-221 | A syscall-free workload takes exactly 1 + its CPU time, under every policy. |
| Workloads.TickAccounting | src/services/cpu.cpp:10-23 | Over any run, the ticks are the CPU time used plus the ticks that began with an idle CPU. |
| Completion.WorkConservation | src/kernel/kernel.cpp:186-221 | After a tick of a reachable kernel an idle CPU means that everybody is blocked or terminated. |
| Completion.AnnouncedWhenLastExits | src/kernel/kernel.cpp:167-184 | A tick announces the end exactly if the last active process exits in it, and then the CPU is idle and both queues are empty. |
| Completion.AnnouncedOnce | src/kernel/kernel.cpp:167-184 | Over a run of a fixed set of processes the end is announced once if all terminate, and not before. |
| Timing.ExactWakeup | src/kernel/kernel.cpp:138-141 | By unit ticks, a process that blocked in tick c for duration d stays blocked until tick c + max(1, d) and becomes ready in exactly that tick. |
| Timing.EntryOfBlocked | src/kernel/kernel.cpp:138-141 | The entry of a blocked process holds the tick of its syscall plus the duration. |
| Timing.NoOverdueEntries | src/services/blocked_queue.cpp:11-26 | After any tick an entry that was there before is not due, and any other entry is the one of the process that ran, with this tick and its syscall's duration. |
| Timing.RecordedTimes | src/kernel/kernel.cpp:57-68 | By unit ticks, the RUNNING stays of a terminated process add up to its CPU time and the BLOCKED ones to the pauses of its fired syscalls, although stamped with the previous tick. |
| Fifo.StarvationBound | src/services/scheduling/round_robin_strategy.cpp:10-19 | Under Round Robin or FCFS the process at index i of the ready queue is dispatched within the rest of the running quantum (1 if idle) plus i quanta, whatever is admitted, re-prioritised or woken. |
| Fifo.WakingAppends | src/kernel/kernel.cpp:223-235 | Under FCFS and Round Robin the processes woken in a tick join the end of the queue in the order of their notices, in whatever order they were partitioned. |
| TickEffects.TickQueue | src/kernel/kernel.cpp:57-68 | Under FCFS and Round Robin, the whole queue after a tick: those who were ready, the woken ones in the order of their notices, the preempted one last; a freed CPU takes the first of all of them, for a whole quantum (2147483647 under FCFS). |
| TickEffects.TickLoads | src/services/scheduling/fcfs_strategy.cpp:17-20 | Under every policy a process dispatched in a tick is loaded with its own profile and with a remaining quantum of 2147483647 (FCFS) or the configured one. |
| TickEffects.TickNotices | src/kernel/kernel.cpp:57-68 | All notices of a tick in their order: the woken processes, the event of the running one with its scheduler notice, the dispatch, the end of the simulation if its last process has just exited, the end of the tick; no others. |
| Fairness.RoundRobinIsFair | src/kernel/kernel.cpp:149-165 | With syscall-free programs admitted up front, the CPU times of two live processes differ by at most one quantum in every state of a Round Robin run. |
| Fairness.CompletionTimes | src/services/scheduling/fcfs_strategy.cpp:7-20 | With syscall-free programs that fit into the quantum, FCFS and Round Robin terminate the p-th process in exactly tick 1 + F(1) + ... + F(p). |
| RoundTimes.RoundRobinTimes | src/kernel/kernel.cpp:149-165 | With syscall-free programs of any length, Round Robin and FCFS terminate process p in exactly tick 1 + sum over j < p of min(F(j), n q) + F(p) + sum over j > p of min(F(j), (n - 1) q), with n = F(p) / q rounded up. |
| Comparisons.RoundRobinIsFcfs | src/services/scheduling/fcfs_strategy.cpp:17-20 | If every burst fits into the quantum, the same inputs lead Round Robin and FCFS to the same queues, running process, control blocks and log; only the remaining quantum differs. |
| Comparisons.RoundRobinIsFcfsOnlyIf | src/services/cpu.cpp:39-43 | Conversely, if a process terminated in a Round Robin and an FCFS run with equal logs, its bursts fit into the quantum. |
| EqualPriorities.PriorityIsRoundRobin | src/services/scheduling/priority_strategy.cpp:13-33 | With equal priorities throughout, a Priority run is the Round Robin run with the same quantum, state by state. |
| Overtaking.NoOvertaking | src/services/ready_queue.cpp:28-34 | First come, first served among those in the ready queue, over whole runs and under every policy: who stands behind another process in the ready queue does not get the CPU before it, whoever is admitted, woken or re-prioritised meanwhile; under Priority, as long as its own priority is not higher. |
| Overtaking.JoinsBehindIff | src/services/ready_queue.cpp:28-34 | In any queue, ordered or not, a process that joins by priority comes to stand behind process a if and only if nobody of lower priority than its own stands before a, or is a. |
| Joining.AdmittedBehindIff | src/kernel/kernel.cpp:48-52 | On the states: a newcomer stands behind a ready process a if and only if, under Priority, nobody of negative priority stands before a, or is a; the others keep their order. |
| Joining.WokenBehindIff | src/kernel/kernel.cpp:223-235 | On the states: a woken process stands behind a process a that was ready if and only if, under Priority, nobody of lower priority than its own stands before a, or is a, whoever else is woken in the tick. |
| Joining.WokenInTurn | src/kernel/kernel.cpp:223-235 | On the states: of two processes woken in the same tick the one whose notice comes first stands before the other, unless, under Priority, somebody of lower priority than the other stands before it, or is it; both directions. |
| Joining.PreemptedBehindIff | src/kernel/kernel.cpp:155-160 | On the states: a preempted process stands behind a ready process a if and only if, under Priority, nobody of lower priority than its own stands before a, or is a; the others keep their order. |
| TickEffects.TickKeepsOrder | src/kernel/kernel.cpp:57-68 | A tick keeps the order of two processes that are ready before and after it. |
| TickEffects.TickWokenBehindIff | src/kernel/kernel.cpp:57-68 | After a whole tick, a process that was ready and one woken in the tick stand in the order that WokenBehindIff says. |
| TickEffects.TickWokenInTurn | src/kernel/kernel.cpp:57-68 | After a whole tick, two processes woken in it stand in the order of their notices, with the exception that WokenInTurn says. |
| TickEffects.TickPreemptedBehindIff | src/kernel/kernel.cpp:149-165 | After a whole tick, the process preempted in it stands behind another one, woken ones included, if and only if, under Priority, nobody of lower priority stands before that one, or is that one. |
| Overtaking.FirstReadyFirstServed | src/kernel/kernel.cpp:223-235 | Who becomes ready later does not get the CPU before process a that is ready already; under Priority, if nobody of lower priority than the later one stands before a, or is a, at the start and after each change of priority (the queue need not be in order, and ticks and admissions keep this). |
| TickEffects.FirstWokenFirstServed | src/kernel/kernel.cpp:223-235 | Of two processes woken in the same tick the one whose notice comes second does not get the CPU before the other, over the rest of the run; under Priority, if nobody of lower priority than the second stands before the first, or is the first, when all are woken and after each later change of priority. |
| Overtaking.OrderedIsFair | src/services/ready_queue.cpp:28-34 | In an ordered queue that condition holds for every later process of no higher priority. |
| Disorder.NewcomerOvertakes | src/services/ready_queue.cpp:28-34 | Without that condition it fails: a reachable state in which a process of the same priority is admitted later and dispatched earlier, because the priority of a third one before both was lowered. |
| Overtaking.TickDispatches | src/kernel/kernel.cpp:57-68 | What a tick does with the CPU: it goes on with its process while no event is raised; otherwise it gets the earliest process of highest priority (Priority) or the front (Round Robin, FCFS) of everybody ready then, woken and preempted ones included, even if changes of priority have put the queue out of order; it stays idle only if nobody is ready. |
| Overtaking.HighestRuns | src/services/scheduling/priority_strategy.cpp:19-28 | Under Priority, once the CPU was freed in a tick nobody who is ready after it has a higher priority than the process on the CPU. |
| Priorities.StaysSorted | src/services/ready_queue.cpp:28-34 | If no ready process changes priority, the ready queue is in descending order in every state and the selection is its front. |
| Priorities.InsertAppendsToLevel | src/services/ready_queue.cpp:28-34 | In an ordered queue, inserting appends to the sub-queue of the same priority and leaves the others alone. |
| Priorities.SelectTakesFromLevel | src/services/scheduling/priority_strategy.cpp:19-28 | In an ordered queue, selecting takes the first of the sub-queue of its priority and leaves the others alone. |
| Levels.LevelsAreQueues | src/services/ready_queue.cpp:28-34 | While the ready queue is in order it is one queue per priority: in each tick processes join each of them at its end, and the dispatched one is the front of its own. |
| Levels.LevelBound | src/services/scheduling/priority_strategy.cpp:19-28 | Ties included: while nobody alive is above priority c, the process at index i among the ready ones of priority c is dispatched within the rest of the running quantum (1 if idle) plus i quanta, if nobody of lower priority stands before it, at the start and after each change of priority (the queue need not be in order, and ticks and admissions keep this). |
| Disorder.TieStarves | src/kernel/kernel.cpp:149-165 | Without that condition it fails: for any number n of ticks, a reachable state in which the only ready process of the highest priority, with a bound of 1, does not get the CPU in n ticks, because one of lower priority stands before it and its equal on the CPU is selected again each time. |
| Disorder.EqualWaits | src/kernel/kernel.cpp:149-165 | While nobody is above the running process and the front of the queue has lower priority, nobody else gets the CPU, equals included, for as long as its program computes. |
| Priorities.InversionBound | src/kernel/kernel.cpp:149-165 | A ready process whose priority stays above everybody else's is dispatched within the rest of the running quantum (1 if idle). |
| Monopoly.KeepsWithTies | src/kernel/kernel.cpp:149-165 | In the CPU part of a tick, with nobody ready above the running process and neither a syscall nor its exit, it keeps the CPU if and only if its quantum is not over, or nobody is ready, or the front of the ready queue has lower priority. |
| Monopoly.KeepsCpuIff | src/services/scheduling/priority_strategy.cpp:19-28 | Ties included: a running process that nobody alive is above is on the CPU after a tick if and only if this CPU tick is neither a syscall nor its exit, and its quantum is not over, or nobody is ready once the due ones are woken, or the front of the queue then has lower priority. |
| Monopoly.KeepsCpu | src/services/scheduling/priority_strategy.cpp:19-28 | A running process of strictly highest priority is on the CPU after a tick if and only if this CPU tick is neither a syscall nor its exit, whatever the quantum. |
| Monopoly.OthersStarve | src/kernel/kernel.cpp:149-165 | While a process of strictly highest priority computes, nobody else gets the CPU, for as many ticks as its program has before its next syscall or its exit. |
| PriorityTimes.PriorityLevels | src/services/scheduling/priority_strategy.cpp:19-28 | With syscall-free programs and any priorities given before the first tick, everybody of priority c or more has terminated exactly from tick 1 + the CPU time they take on, for every c, whatever the ties, the quantum and the order of the queue. |
| PriorityTimes.PriorityCompletion | src/services/scheduling/priority_strategy.cpp:13-29 | A process that is alone in its priority then terminates in exactly tick 1 + its CPU time + the CPU time of everybody of higher priority. |
| GanttModels.GanttModel.OnProcessCreated | app/gui/models/gantt_model.cpp:14-19 | A row with one open segment NEW from the clock of the chart is added, the other rows stay. |
| GanttModels.GanttModel.OnStateTransitioned | app/gui/models/gantt_model.cpp:21-29 | In the first row of the process the last segment is closed at the clock of the chart and an open one begins, and the other rows stay; an unknown process changes nothing, the number of rows included. |
| GanttModels.GanttModel.RunningTime | app/gui/models/gantt_model.cpp:130-138 | The loop adds up the RUNNING segments of the process, an open one up to the clock; 0 for an unknown process. |
| GanttModels.Replay | app/gui/models/gantt_model.cpp:14-33 | A model that received the notices of a log in order shows the chart of the log. |
| Gantt.ChartShowsHistories | app/gui/models/gantt_model.cpp:14-33 | The chart drawn from the notices shows every process's history: each segment ends where the next begins, the last is open. |
| Simulation.RunningIsOverstated | app/gui/models/gantt_model.cpp:125-139 | A reachable state in which the report shows one tick of RUNNING for a process that has not used the CPU yet: one program, after one tick. |
| Gantt.GanttIsExact | app/gui/models/gantt_model.cpp:125-139 | By unit ticks: segments contiguous from the creation on, legal transitions, only the last open and in the current state; reported RUNNING time is the CPU time plus 1 while running; reported BLOCKED time of a terminated process is the pauses of its fired syscalls. |

## Left out

- Qt widgets, table and queue models, dialogs, painting, and the text of the report: of the Gantt model only the segments, the clock and the RUNNING sum are modelled.
- Logging, parsing of command line arguments, conversion of enumerations to strings: output and plumbing.
- SyscallHandler, TimerInterrupt, IoDeviceSimulator, onProcessBlocked and onProcessExit: without effect on the kernel, or unused.
- ProgramStore and PidGenerator as components: they are a map and a counter inside the kernel.
- SyscallProfile as a class: the kernel and the CPU copy it, so it is a map value here.
- Resource descriptors, program names, the stack pointer and the other registers: stored and never acted on.
- Overflow of PIDs, ticks and counters: integers are unbounded, except that the quantum of FCFS is the largest 32-bit integer.
- stop() from another thread, and observers that call back into the kernel.
- Engine.SimulationEngine.Run: assumes a tick interval of at least 1 and a kernel that has not been ticked before, since with another interval or a second engine the clock may stand still or run backwards.
- Engine.SimulationEngine.Step: makes the same two assumptions, through the same constructor and invariant of the engine.
- The state after an exception: once the flag `thrown` is set the other fields mean nothing; no reachable state has it set.
- FCFSStrategy::selectNext and RoundRobinStrategy::selectNext have the same body and share the method SelectFront.
- The event callback of the CPU is the returned event, because the CPU does nothing after raising one; the callback of the clock is the method OnTick of the engine.
- How a standard library partitions: the method Partition is the usual exchange from both ends, and nothing but its contract is used.
