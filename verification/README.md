# MLFQ scheduler simulator in Dafny

A model of `njlr.py`, a multi-level feedback queue (MLFQ) CPU-scheduling
simulator that advances over integer ticks. The simulator has three levels:

- level 1 is round-robin with a quantum of 4 ticks;
- level 2 is first-come first-served;
- level 3 is nominally shortest-job-first.

Each process alternates CPU and I/O bursts. A process can be demoted once it
has used its level's allotment. A process waiting at a lower-numbered level
preempts the occupant of the CPU. Emptying the CPU may start a context switch
of configurable length.

The model is functional. The scheduler's state is an immutable record:

- a table of processes indexed by id;
- the three level queues, the arriving, returning, I/O and finished lists, all of ids;
- the CPU as an optional id;
- the context-switch flag and timer, and the clock.

Every engine operation of `MFLQScheduler` is a pure function on that record.
The loop body of `Controller.run` is the function `Step`, and the whole run
is `Run`/`Simulate`.

Modules:

- `Wrappers`: `Option` and `Result`.
- `Text`: splitting on `;`, Python's `int()` on decimal literals, and string order.
- `Processes`: the process record, its bookkeeping and the input-line parser.
- `Queues`: the three disciplines and the three-level queue set.
- `Scheduler`: the engine operations.
- `Sweep`: a stateless description of the I/O sweep, read off the I/O list and the records before it, and the proof that `run_io` does what it says.
- `Invariant`: what holds between ticks, and its preservation by every operation.
- `Controller`: the tick and the loop.
- `Accounting`: the service a process has had, read off its burst index and tick counter, and what each engine operation adds to it.
- `Service`: the service bound over a whole run.

The central proof obligation is `Invariant.Inv`. It says:

- every arrived process sits in exactly one place (a queue, a list or the CPU);
- no process that has yet to arrive is anywhere, or has been touched;
- waiting processes sit in the queue of their own queue number, at a CPU burst;
- processes in I/O are at an I/O burst;
- the CPU is never occupied while a context switch is pending;
- finished processes completed after they arrived.

Each operation preserves `Inv`, so `Step` can call them all in the source's
order with their preconditions discharged. `Simulate` ends before the clock
limit only when every process has finished.

Notes on the code that the model follows:

- Level 3 is first-in first-out. `SJFAlgorithm.sort` (njlr.py:144-145) builds
  a sorted copy and discards it.
- `quantum_passed` is not reset on demotion (njlr.py:362-369) or preemption.
  It counts the ticks of the current burst, and the allotment test compares
  that count with the level's allotment.
- A process leaving I/O rejoins the queue of its unchanged queue number
  (njlr.py:339-346).
- Waiting time is turnaround minus the sum of the CPU bursts (njlr.py:67-68).
  I/O time is not subtracted.
- An example: allotments 8 and 5, no context switch, P1 arriving at 0 with a
  single CPU burst of 8 and P2 arriving at 1 with a single CPU burst of 4.
  P1 runs its first 4-tick quantum, then cycles back to level 1
  (njlr.py:317-321) behind P2. P2 completes at 8 and P1 at 12.

A process is in the system at least as long as its bursts take: the service
accounting (`Accounting`, `Service`) shows that each tick serves the occupant
one CPU tick and each process in I/O one I/O tick, so every finished process
has a turnaround of at least its CPU and I/O bursts together.

## Model

| member | source | states |
|---|---|---|
| `Text.Split` | njlr.py:85 | `str.split(";")` yields at least one piece, no piece contains the separator, and joining the pieces with it gives back the line |
| `Text.SplitJoin` | njlr.py:85 | splitting a join of separator-free pieces gives back exactly those pieces |
| `Text.ParseInt` | njlr.py:88-90 | `int()` succeeds exactly on an optional sign followed by at least one decimal digit |
| `Text.IntRoundTrip` | njlr.py:88-90 | parsing the decimal rendering of any integer gives that integer back |
| `Text.LexLeTotal` | njlr.py:266 | `Text.LexLe`, Python's string order, which `sorted(key=name)` uses, relates any two names |
| `Text.LexLeTransitive` | njlr.py:266 | the string order is transitive |
| `Text.LexLeAntisymmetric` | njlr.py:266 | two names each no greater than the other are equal |
| `Processes.UpdateBurst` | njlr.py:75-76 | only the remaining-burst counter changes, and remaining plus passed equals the current CPU burst |
| `Processes.UpdateIo` | njlr.py:79-80 | only the remaining-I/O counter changes, and remaining plus passed equals the current I/O burst |
| `Processes.Evens` | njlr.py:89 | the CPU-burst fields are those at even positions, in order, and there are half the fields rounded up |
| `Processes.Odds` | njlr.py:90 | the I/O-burst fields are those at odd positions, in order, and there are half the fields rounded down |
| `Processes.ParseInts` | njlr.py:88-90 | converting a field list succeeds exactly when every field is an integer literal; then each value is its field's; otherwise the error names a rejected field |
| `Processes.CreateNewProcess` | njlr.py:83-91 | a line with fewer than two fields fails for the missing arrival time; a parsed process is fresh (level 1, counters at zero) and named by the first field |
| `Processes.ParseSucceedsIff` | njlr.py:83-91 | parsing succeeds if and only if there are at least two fields and every field after the name is an integer literal |
| `Processes.ParsedFields` | njlr.py:85-91 | the name is field 0 and the arrival time is field 1; CPU bursts come from positions 2, 4, … and I/O bursts from 3, 5, …, in input order; together they number the fields minus two, with at most one more CPU burst than I/O bursts and never fewer |
| `Queues.Sort` | njlr.py:122-123 | `sort` leaves the queue as it is for every discipline, SJF included (njlr.py:144-145 discards its sorted copy) |
| `Queues.AddProcess` | njlr.py:99-101 | adding appends at the tail and keeps the discipline |
| `Queues.RemoveProcess` | njlr.py:103-104 | the removed process is the head, and the rest stays in order |
| `Queues.AddAll` | njlr.py:270-274 | popping a list's head into a queue until the list is empty appends the whole list in order |
| `Queues.FirstInFirstOut` | njlr.py:99-104 | on every discipline, ids added to an empty queue are removed in the order they were added |
| `Queues.DrainAll` | njlr.py:103-104 | removing heads until the queue is empty yields its items in order |
| `Queues.AddToQueue` | njlr.py:357-358 | `add_to_queue` appends at the given level, leaves the other levels as they were, and adds exactly that id to the ids waiting |
| `Queues.HighestReady` | njlr.py:382-385 | the level computed is 1 to 3 for the first non-empty queue, every lower-numbered queue being empty, or 4 when all are empty |
| `Scheduler.Init` | njlr.py:148-164 | the constructed scheduler holds the table as given, has no process placed anywhere, round robin, FCFS and SJF at levels 1 to 3, an idle CPU, no switch under way and clock 0 |
| `Scheduler.UpdateTime` | njlr.py:258-259 | the clock advances by one and nothing else changes |
| `Scheduler.ArrivalsFrom` | njlr.py:263-265 | the ids collected are exactly the processes arriving at the current time, in table order, without repeats |
| `Scheduler.InsertByName` | njlr.py:266 | insertion into a name-sorted list keeps it sorted and adds exactly the one id |
| `Scheduler.SortByName` | njlr.py:266 | the sorted list is a permutation of the input, ordered by name |
| `Scheduler.UpdateArriving` | njlr.py:262-266 | the arriving list gains exactly the processes arriving now, ends sorted by name, and nothing else changes |
| `Scheduler.ArrivingToQueue` | njlr.py:269-274 | level 1 gains the arriving list and then the returning list, in order; both lists end empty; nothing else changes and the placed ids are the same |
| `Scheduler.Dispatch` | njlr.py:282-289 | the head of the chosen level takes the CPU and leaves that queue; nothing else changes |
| `Scheduler.QueueToCpu` | njlr.py:277-289 | nothing changes while a switch is pending, while the CPU is occupied, or when every queue is empty; otherwise the head of the lowest-numbered non-empty level is installed and the other levels are untouched |
| `Scheduler.RunCpu` | njlr.py:291-298 | while switching or idle only the switch timer advances; otherwise the occupant's tick counter grows by one, its remaining burst becomes burst minus ticks, and no other process changes |
| `Scheduler.EmptyCpu` | njlr.py:324-328 | the CPU is vacated and the switch timer reset; a switch starts exactly when the duration is positive |
| `Scheduler.ClearContextSwitch` | njlr.py:330-332 | the switch flag stays set only while the timer is below the duration |
| `Scheduler.Enqueue` | njlr.py:357-358 | the id joins the tail of its level, other levels are untouched, and the placed ids gain exactly that id |
| `Scheduler.MoveToIo` | njlr.py:372-375 | the occupant's tick and round counters restart and it joins the tail of the I/O list |
| `Scheduler.MoveProcessDownQueue` | njlr.py:362-369 | the occupant joins the tail of the next level, its queue number grows by one and its round counter is cleared; other levels and processes are untouched |
| `Scheduler.Retire` | njlr.py:303-305 | a finished process joins the finished list with completion time one past the current tick |
| `Scheduler.CycleBack` | njlr.py:318-319 | the occupant's round counter grows by one and it joins the returning list |
| `Scheduler.RunCpu2` | njlr.py:300-321 | with a vacant CPU, or when no branch fires, nothing changes; when one fires, the CPU is vacated and a switch starts exactly when the duration is positive |
| `Scheduler.RunCpu2Completes` | njlr.py:301-309 | an exhausted last burst finishes the process with completion time one past the tick; queues and I/O are untouched |
| `Scheduler.RunCpu2ToIo` | njlr.py:301-309 | an exhausted burst with I/O to follow sends the process to the tail of the I/O list with its counters reset |
| `Scheduler.RunCpu2Demotes` | njlr.py:311-315 | a reached allotment raises the queue number by exactly one, never past 3, and appends the process to that level only |
| `Scheduler.RunCpu2CyclesBack` | njlr.py:317-321 | a level-1 process with 4 ticks used goes to the returning list, its round counter going from 0 to 1, so this happens once per stay at level 1 |
| `Scheduler.Preempt` | njlr.py:387-390 | the occupant joins the tail of its own level, the CPU is emptied, and unless that starts a context switch the head of the lowest-numbered non-empty level takes the CPU and leaves its queue; the remaining level, records, lists and the clock are untouched |
| `Scheduler.CheckPreemption` | njlr.py:381-394 | when a lower-numbered level holds a process the result is `Preempt`'s, otherwise an occupied CPU is left alone; afterwards a vacant CPU means a switch is pending or every queue is empty; records, lists and the clock are untouched |
| `Scheduler.OfferCpu` | njlr.py:392-394 | a vacant CPU is offered to dispatch, so it stays vacant only while a switch is pending or every queue is empty; records, lists and the clock are untouched |
| `Scheduler.IoTick` | njlr.py:336-337 | one I/O tick: the tick counter grows by one and the remaining I/O becomes burst minus ticks |
| `Scheduler.LeaveIo` | njlr.py:339-350 | a process done with its I/O burst advances its burst index, restarts its counter and leaves the I/O list, either to the tail of the queue of its unchanged queue number or, after its last burst, to the finished list with completion one past the tick |
| `Scheduler.IoStep` | njlr.py:336-350 | one iteration of `run_io` keeps the I/O list free of repeats and never lengthens it, changes only I/O counters, burst indexes and completion times, and only extends the finished list |
| `Scheduler.IoLoop` | njlr.py:335-350 | the sweep changes only I/O counters, burst indexes and completion times, keeps the CPU, arriving and returning lists and clock, and only extends the finished list |
| `Scheduler.IoLoopFrame` | njlr.py:335-350 | the sweep from a position on touches only the processes listed from that position on |
| `Scheduler.IoLoopHead` | njlr.py:335-350 | the process at the sweep position gets exactly one tick, and leaves I/O if that tick ended its burst |
| `Scheduler.IoLoopSkipsNext` | njlr.py:335-350 | after a removal, the process that shifts into the freed slot gets no tick this time (Python's list iterator goes on at the next index) |
| `Scheduler.IoLoopAllTicked` | njlr.py:335-350 | when no process finishes its I/O burst, every one gets exactly one tick and the I/O list is unchanged |
| `Scheduler.RunIo` | njlr.py:334-350 | `run_io` changes only I/O-related counters, leaves processes outside the I/O list untouched, and only extends the finished list |
| `Sweep.IoLoopSweep` | njlr.py:335-350 | the sweep from a position on, whole: the I/O list keeps, in order, the processes not visited or still in their burst; the leavers with a CPU burst left join the end of their own level, and the others join the finished list, each in the order they leave; each visited process gets exactly its one tick, and each passed-over one is untouched |
| `Sweep.RunIoSweep` | njlr.py:334-350 | the same for `run_io` over the entire I/O list, against the stateless walk `Visits`/`Stay`/`Rejoin`/`Done`/`Swept` |
| `Sweep.SkippedNotVisited` | njlr.py:335-350 | the process that slides into the slot of a leaver is not among the visited ones |
| `Invariant.InitInv` | njlr.py:148-164 | the scheduler as constructed, over well-formed fresh processes, satisfies the invariant at time 0 |
| `Invariant.UpdateArrivingInv` | njlr.py:262-266 | admitting the arrivals of the current tick carries the invariant over to the horizon one tick later |
| `Invariant.ArrivingToQueueInv` | njlr.py:269-274 | `arriving_to_queue` preserves the invariant |
| `Invariant.QueueToCpuInv` | njlr.py:277-289 | `queue_to_cpu` preserves the invariant |
| `Invariant.CheckPreemptionInv` | njlr.py:381-394 | `check_preemption` preserves the invariant |
| `Invariant.RunCpuInv` | njlr.py:291-298 | `run_cpu` preserves the invariant, and an occupant is always at a CPU burst it can run |
| `Invariant.ClearContextSwitchInv` | njlr.py:330-332 | `clear_context_switch` preserves the invariant |
| `Invariant.IoLoopInv` | njlr.py:334-350 | the I/O sweep, including its pass-over, preserves the invariant |
| `Invariant.RunCpu2Inv` | njlr.py:300-321 | every branch of `run_cpu2` preserves the invariant |
| `Invariant.UpdateTimeInv` | njlr.py:258-259 | advancing the clock brings the invariant back to the clock's own horizon |
| `Invariant.CheckPreemptionRespectsPriority` | njlr.py:381-394 | after `check_preemption`, no queue numbered below the occupant's queue number holds a process |
| `Invariant.AllFinished` | njlr.py:490-491 | once the finished list is as long as the process table, every process is in it |
| `Controller.Admit` | njlr.py:465-469 | arrivals followed by the drain into level 1 leave the arriving and returning lists empty and establish the invariant with the current tick admitted |
| `Controller.Schedule` | njlr.py:470-472 | dispatch followed by the preemption check keeps the invariant and leaves the table, the I/O and finished lists and the clock as they were; afterwards no process waits at a level numbered below the occupant's, and the CPU is empty only during a context switch or when every level is empty |
| `Controller.Tick` | njlr.py:476-477 | the CPU tick followed by the end of a due context switch keeps the invariant and the finished list; a context switch is pending afterwards exactly when the CPU tick left one pending whose timer is still below the switch length |
| `Controller.Settle` | njlr.py:480-481 | the I/O tick followed by `run_cpu2` keeps the invariant and only extends the finished list |
| `Controller.Step` | njlr.py:461-485 | one pass of the loop body, with the operations in source order, keeps the invariant, advances the clock by one and only extends the finished list |
| `Controller.Run` | njlr.py:460-491 | entered with `ret_next` set, the loop runs exactly one more tick; a tick that moves the clock past 90 is the last; a tick that leaves every process finished is followed by exactly one more; at the end the clock is past 90 or every process has finished, and it is at most 91 if the loop began by 90 |
| `Controller.Simulate` | njlr.py:455-491 | a run from time 0 ends within ticks 1 to 91; if it ends by tick 90, every process finished; every finished process has a turnaround of at least one tick |
| `Controller.SimulateStops` | njlr.py:487-491 | when the first tick already finishes every process, the simulation is that tick and exactly one more |
| `Accounting.RunCpuLedger` | njlr.py:291-298 | `run_cpu` gives the occupant one tick of service and nobody else any |
| `Accounting.RunCpu2Ledger` | njlr.py:300-321 | no branch of `run_cpu2` gives service: the occupant's account carries over whether it finishes, goes to I/O, is demoted or cycles back |
| `Accounting.RetireLedger` | njlr.py:301-305 | a process finishing at the end of its last CPU burst has had exactly all of its CPU and I/O bursts |
| `Accounting.IoStepLedger` | njlr.py:336-350 | one iteration of `run_io` gives the process at the sweep position one tick, which carries over into the queue or the finished list when it ends the burst |
| `Accounting.RunIoLedger` | njlr.py:334-350 | `run_io` gives each process of the I/O list at most one tick and nobody else any |
| `Service.StepLedger` | njlr.py:461-485 | one pass of the loop gives each process at most one tick of service, only to processes that have arrived, keeps arrival times and bursts, and stamps newly finished processes with the next tick |
| `Service.StepBudget` | njlr.py:461-485 | a pass keeps every process's service within the time it has been in the system |
| `Service.RunBudget` | njlr.py:460-491 | the whole loop keeps every process's service within the time it has been in the system |
| `Service.FinishedService` | njlr.py:59-68 | within that bound, a finished process's turnaround (`Processes.Turnaround`) is at least its CPU and I/O bursts together, and its waiting time (`Processes.Waiting`) at least its I/O bursts |
| `Service.SimulateService` | njlr.py:59-68 | after a whole simulation every finished process keeps the bursts it was created with, its turnaround (`Processes.Turnaround`) is at least the sum of its CPU and I/O bursts, and its waiting time (`Processes.Waiting`) is at least the sum of its I/O bursts |

## Left out

- Reading the scheduler's parameters and the process lines from standard input or a file (njlr.py:166-220). This covers the retry loops and the fall-through that asks for input again after reading a file. `Simulate` takes the allotments, the switch duration and the process table as parameters. The process count is the table's length.
- The `View` class and every print call (njlr.py:396-448). This includes `done_processes`, which only the printing reads and drains. The average turnaround (njlr.py:429) is floating-point arithmetic with rounding.
- `sort_priority_queues` (njlr.py:352-354): nothing calls it. Every discipline's `sort` leaves the queue unchanged in any case.
- `Text.ParseInt`: `int()` also accepts surrounding whitespace, underscores between digits and non-ASCII digits. The model accepts only an optional sign and ASCII digits.
- `Scheduler.LeaveIo`: `list.remove` removes the first element equal by value, and dataclass equality compares every field. The model removes the process at the sweep position. The two differ only when two processes with identical fields are in I/O together.
- `Scheduler.SortByName`: stability is not stated. `sorted` keeps processes with equal names in table order, and the model's insertion sort does too, but no contract says so.
- `Scheduler.RunCpu2`: requires the level-1 allotment not to be 0. Otherwise the source would demote its empty-named placeholder. The source's input loop asks for at least 4.
- `Scheduler.MoveProcessDownQueue`: requires a queue number other than 3, because that would index past the three queues. `run_cpu2` never calls it then.
- `Invariant.WellFormed`: the invariant assumes non-empty names, at least one CPU burst, and CPU and I/O bursts alternating from a CPU burst (as many I/O bursts as CPU bursts, or one fewer). Every parsed line satisfies the alternation. The source treats a CPU with an empty-named process as vacant, and it fails on a line with no CPU burst. A table built by other means could break the alternation, and then some bursts would never run: with two or more CPU bursts beyond the I/O bursts, the process finishes early (njlr.py:303), and I/O bursts beyond the CPU bursts are skipped (njlr.py:343). The service bound of `Service.SimulateService` counts every burst, so it needs the alternation.
- A loop that never ends needs no model: the source's loop always ends once the clock passes 90.
