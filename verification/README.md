# Round-robin scheduler simulation (hw03), modelled in Dafny

The `hw03/` directory holds two round-robin CPU scheduler simulations. In
each, a parent process drives a PCB table, a circular FIFO ready queue and
a set of sleepers from one timer-tick routine. Both are modelled here as
pure state machines: an immutable state record and one function per
handler. Every `rand()` result and every notification from a worker is an
explicit argument.

- `hw03/hw03.c` (modules `Hw03`, `Hw03Proofs`, `Hw03History`,
  `Hw03Findings`). The parent tracks each process's CPU burst. It keeps a
  compacting sleep list and an 11-slot ready ring. On every alarm it
  ages the sleepers, charges the running process, applies the global
  quantum reset and dispatches. Dispatch refills the quantum. It also
  records wait, response and turnaround statistics.
- `hw03/osScheduling.c` (modules `OsScheduling`, `OsSchedulingProofs`,
  `OsSchedulingFindings`). Each worker tracks its own burst and reports by
  exiting or by raising SIGUSR2. A tick ages the sleepers, dispatches
  first, then charges one quantum unit. Preemption refills the quantum.
- Shared modules. `RingBuffer` is the C ring: array, head, tail,
  `(i + 1) % size`. It carries its abstraction `Contents`, the queued
  entries oldest first. `Collections` holds facts about index lists.

Main results:

- Each scheduler has an invariant, `Hw03Proofs.Inv` and
  `OsSchedulingProofs.OsInv`. It says the following:
  - every READY process is in the ready queue exactly once, and nothing
    else is;
  - every SLEEPING process is in the sleep list exactly once; in
    `hw03/hw03.c` the list may also hold DONE entries until
    `update_sleep_queue` purges them;
  - the RUNNING process, if any, is the current one, so at most one runs;
  - no process is in two places, and DONE processes are never queued;
  - `done_count` (in both files) equals the number of DONE records, and
    in `hw03/osScheduling.c` `sleep_cnt` equals the number of SLEEP
    records; in `hw03/hw03.c` `sleep_count` is the length of the sleep
    list, DONE entries included.
- In `hw03/hw03.c`, every tick keeps this invariant, for every random
  draw. So does the SIGCHLD handler as written, for any victim that is
  not READY, which is every SIGCHLD the program provokes itself. For a
  READY victim it does not hold (the hw03/hw03.c:232-244 finding below); the corrected
  handler keeps it for every victim.
- In `hw03/osScheduling.c`, every tick and every SIGUSR2 keeps the
  invariant, provided the ready ring has `NPROC + 1` slots. The `NPROC`
  slots as written break it at boot (the hw03/osScheduling.c:25 finding below).
- The invariant implies that the ready ring never overflows.
- A DONE record never changes across a tick of either file, nor across
  the corrected SIGCHLD handler. In `hw03/hw03.c` a first-run time, once
  set, also never changes, and accumulated wait only grows. Hence, for every finished process that ran, the statistics
  printed satisfy 0 <= response <= wait <= turnaround. With the
  corrected handler, a child killed before its first dispatch is never
  dispatched and prints a response time of -1. With the handler as
  written it is usually dispatched afterwards, which stamps its first-run
  time and makes it print that tick instead.

## Model

| member | source | states |
|---|---|---|
| RingBuffer.Push | hw03/hw03.c:142-151 | writing at the tail and advancing it appends the index at the rear of the FIFO when there is room; in a ring with one free slot left, the tail lands on the head and the queue reads as empty |
| RingBuffer.Pop | hw03/osScheduling.c:32-37 | head == tail exactly when the queue is empty, and then -1 comes back with nothing changed; otherwise the oldest entry comes back and the rest stay queued in order |
| RingBuffer.PushAll | hw03/osScheduling.c:189-197 | pushing a list in order, with room for all of it, appends the whole list at the rear |
| Hw03.CpuBurstDraw | hw03/hw03.c:284 | whatever `rand()` returns, a fresh CPU burst lies in [1, 10] |
| Hw03.IoWaitDraw | hw03/hw03.c:283 | whatever `rand()` returns, an I/O wait lies in [1, 5] |
| Hw03.PushReady | hw03/hw03.c:142-151 | a DONE process is never queued and nothing changes; any other is appended at the rear, becomes READY, gets its entry time stamped, and has its enqueue count raised by exactly one; nothing else changes |
| Hw03.PopReady | hw03/hw03.c:154-164 | -1 with no change exactly when front == rear; otherwise the oldest index, and only that PCB is charged the ticks it waited |
| Hw03.PushSleep | hw03/hw03.c:167-172 | a DONE process is never put to sleep and nothing changes; any other is appended at the end of the sleep list and becomes SLEEPING with the rest of its record kept; every other PCB, the ready queue, the CPU, the counters and the clock are untouched. Its partners `Hw03Proofs.ChargeKeepsInv` and `Hw03Proofs.Occupancy` show the new sleeper is listed exactly once and the lists stay within NUM_PROCESSES |
| Hw03.RemoveAt | hw03/hw03.c:180-183 | the shifting loop deletes position i and keeps every other entry in order |
| Hw03Proofs.UpdateSleepQueueEffect | hw03/hw03.c:175-201 | DONE entries are purged without being queued; every other listed sleeper loses exactly one tick of wait; those that reach zero join the rear of the ready queue in sleep-list order; the rest keep their relative order; no other PCB changes |
| Hw03Proofs.UpdateSleepQueueKeepsInv | hw03/hw03.c:175-201 | ageing the sleepers keeps every process in exactly one place and the counters exact |
| Hw03.AllQuantumZero | hw03/hw03.c:204-211 | true exactly when every process that is not DONE has quantum <= 0 |
| Hw03.ResetAllQuantum | hw03/hw03.c:214-221 | every process that is not DONE gets TIME_QUANTUM back; DONE records are untouched |
| Hw03.ResetWhenSpent | hw03/hw03.c:305-307 | the reset applies exactly when all live quanta are spent and some process is not DONE; only the PCB table changes |
| Hw03.Schedule | hw03/hw03.c:321-350 | dispatches only with no process running and a non-empty queue: the head becomes RUNNING with a full quantum, is charged its wait, and gets a first-run time only if it had none; the controller exits exactly when done_count has reached N |
| Hw03.ChargeRunning | hw03/hw03.c:258-303 | quantum and burst each drop by one, then exactly one outcome: DONE with completion time and done_count + 1; SLEEPING with a wait in [1, 5] and a new burst in [1, 10]; requeued READY at the rear; or still running. The CPU is free after the first three |
| Hw03.ChargeCurrent | hw03/hw03.c:258 | only a RUNNING current process is charged; with none, the tick leaves the kernel as it is |
| Hw03.TimerHandler | hw03/hw03.c:252-318 | each alarm advances the clock by exactly one tick |
| Hw03Proofs.TimerHandlerKeepsInv | hw03/hw03.c:252-318 | a timer tick, whatever `rand()` returns, keeps every process in exactly one place, at most one RUNNING, done_count equal to the number of DONE PCBs, and the timing bookkeeping consistent |
| Hw03Proofs.ScheduleKeepsInv | hw03/hw03.c:321-350 | dispatch keeps the invariant |
| Hw03Proofs.ChargeKeepsInv | hw03/hw03.c:258-303 | charging the running process keeps the invariant in all four outcomes |
| Hw03Proofs.ResetKeepsInv | hw03/hw03.c:214-221 | the quantum reset moves no process and keeps the invariant |
| Hw03Proofs.Occupancy | hw03/hw03.c:16 | queued, sleeping and running processes together number at most NUM_PROCESSES, so the NUM_PROCESSES + 1 slot ring never overflows |
| Hw03.MarkDone | hw03/hw03.c:232-244 | corrected handler, first step: the terminated process is DONE, stamped with the current tick, counted once, out of the ready queue and off the CPU |
| Hw03.ChildDone | hw03/hw03.c:224-249 | corrected handler: a SIGCHLD for a DONE process changes nothing; otherwise the process becomes DONE once, with done_count + 1 and its completion time, and it leaves the ready queue (the one change from the source). A victim that was not running leaves everything else as it was. For a running victim, `schedule` dispatches the first survivor of the queue, or exits once done_count reaches N. The sleep list and every PCB other than the victim and the dispatched one are untouched |
| Hw03.ChildDoneAsWritten | hw03/hw03.c:224-249 | the handler as written: duplicate notifications are ignored; a first one counts the process DONE once but leaves the ready ring's array as it was; for a victim that is not running, only its record (DONE, completion time) and the count change: the queue, the sleep list, the current process, the clock and the exit flag are kept |
| Hw03Proofs.ChildDoneAsWrittenKeepsInv | hw03/hw03.c:224-249 | the handler as written keeps the invariant for a RUNNING, SLEEPING or DONE victim, so done_count stays equal to the number of DONE PCBs on every SIGCHLD the program provokes itself |
| Hw03Proofs.ChildDoneKeepsInv | hw03/hw03.c:224-249 | with the corrected handler, a SIGCHLD for any process keeps the invariant, so done_count stays equal to the number of DONE PCBs |
| Hw03History.TimerHandlerEvolves | hw03/hw03.c:252-318 | across a tick no DONE record changes, a first-run time once set never changes, and accumulated wait never decreases |
| Hw03History.ChildDoneEvolves | hw03/hw03.c:232-244 | across a SIGCHLD handled by the corrected handler the same holds for every other process; the ending one keeps its first-run time and wait |
| Hw03History.ScheduleEvolves | hw03/hw03.c:322-333 | dispatch sets the first-run time at most once and only adds wait |
| Hw03History.ExitMeansAllDone | hw03/hw03.c:343-349 | the controller exits only when every process is DONE |
| Hw03History.AllDoneExits | hw03/hw03.c:343-349 | once every process is DONE, the next schedule exits |
| Hw03History.StatisticsOrdered | hw03/hw03.c:117-131 | for a finished process that ran, 0 <= response time <= total wait <= turnaround time |
| Hw03History.TotalsOrdered | hw03/hw03.c:117-131 | the column sums behind the printed averages keep the same order, 0 <= response sum <= wait sum <= turnaround sum, when every process finished after running |
| Hw03.NewPcb | hw03/hw03.c:385-396 | a new child is READY with a full quantum, no first-run time, and a burst in [1, 10] |
| Hw03Proofs.BootSpec | hw03/hw03.c:376-401 | after the creation loop every child is READY with its drawn burst and one enqueue, the queue holds 0..9 in creation order, and the kernel is consistent |
| Hw03Proofs.StartSpec | hw03/hw03.c:376-406 | the first schedule dispatches child 0 at tick 0 and leaves 1..9 queued, each still as created (never run, one wait) |
| Hw03Findings.ReadyVictimRedispatched | hw03/hw03.c:232-244 | as written, a SIGCHLD for the process at the head of the queue and then one for the running process dispatch the finished process again, and done_count then exceeds the number of DONE PCBs; a victim that had never run gets its first-run time stamped with the current tick |
| Hw03Findings.StartRedispatchesChildOne | hw03/hw03.c:232-244 | the same from the start: child 1 dies while waiting, child 0 finishes, child 1 runs; its first-run time goes from -1 to 0, so it reports a response time of 0 instead of -1 |
| Hw03Findings.ReadyVictimStaysDone | hw03/hw03.c:232-244 | with the corrected handler both processes stay DONE, neither runs, the waiting victim keeps its first-run time, and the invariant holds |
| OsScheduling.BurstDraw | hw03/osScheduling.c:89 | an initial burst lies in [1, 10] |
| OsScheduling.IoWaitDraw | hw03/osScheduling.c:143 | an I/O wait lies in [1, 5] |
| OsScheduling.PushReady | hw03/osScheduling.c:31 | with no DONE guard and no capacity check: appends at the rear when there is room; one push too many empties the queue |
| OsScheduling.PopReady | hw03/osScheduling.c:32-37 | -1 exactly when the queue is empty; otherwise the oldest entry, the rest staying in order; nothing else changes |
| OsScheduling.IoSignal | hw03/osScheduling.c:82-84 | SIGUSR2 raises the I/O request and leaves the PCB table, the queue, the running process and both counters as they were |
| OsSchedulingProofs.IoSignalThenTick | hw03/osScheduling.c:138-146 | after SIGUSR2, the next alarm puts the process it dispatches or keeps on the CPU to SLEEP with a wait in [1, 5], frees the CPU, raises sleep_cnt by one and clears the request; with nothing to run the request stays pending and the tick is otherwise unchanged |
| OsScheduling.Init | hw03/osScheduling.c:86-94 | every PCB is READY with time quantum INIT_TQ, io_wait 0 and a burst in [1, 10] |
| OsScheduling.BootWith | hw03/osScheduling.c:183-197 | main's start state: init's table, nothing running, both counters 0, no I/O request |
| OsScheduling.AgeOne | hw03/osScheduling.c:110-121 | a SLEEP process loses one tick of wait and, at zero, becomes READY, is pushed and leaves sleep_cnt; other processes are skipped |
| OsSchedulingProofs.AgeEffect | hw03/osScheduling.c:110-121 | the aging loop ages every SLEEP record exactly once and appends the expiring ones to the ready queue in index order, lowering sleep_cnt by their number; running, done_cnt and the I/O flag are untouched |
| OsScheduling.Dispatch | hw03/osScheduling.c:123-130 | with nothing running, the head of the queue becomes RUNNING with its quantum as it was; otherwise nothing changes |
| OsScheduling.Charge | hw03/osScheduling.c:132-168 | the running process loses one quantum unit; then a pending I/O request sends it to SLEEP with a wait in [1, 5], clears the flag and raises sleep_cnt; else an exited child becomes DONE with done_cnt + 1; else a spent quantum requeues it READY with INIT_TQ; the CPU is free after those three |
| OsScheduling.AllTqZero | hw03/osScheduling.c:96-102 | true exactly when every process that is not DONE has time_quantum <= 0 |
| OsScheduling.ResetWhenSpent | hw03/osScheduling.c:171-177 | when all live quanta are spent, every process that is not DONE gets INIT_TQ and DONE records are untouched; otherwise nothing changes |
| OsSchedulingProofs.DispatchKeepsInv | hw03/osScheduling.c:123-130 | dispatch keeps the invariant |
| OsSchedulingProofs.ChargeKeepsInv | hw03/osScheduling.c:132-168 | charging keeps the invariant, so sleep_cnt and done_cnt stay equal to the number of SLEEP and DONE records |
| OsSchedulingProofs.ResetKeepsInv | hw03/osScheduling.c:171-177 | the reset keeps the invariant |
| OsSchedulingProofs.TickKeepsInv | hw03/osScheduling.c:104-180 | a tick keeps the invariant whatever the worker reports and `rand()` returns |
| OsSchedulingProofs.TickKeepsDone | hw03/osScheduling.c:104-180 | no tick changes a DONE record, whatever the worker reports |
| OsSchedulingProofs.RunKeepsDone | hw03/osScheduling.c:202-204 | no sequence of alarms and SIGUSR2 signals changes a DONE record |
| OsSchedulingProofs.RunKeepsInv | hw03/osScheduling.c:202-204 | any sequence of alarms and SIGUSR2 signals keeps the invariant |
| OsSchedulingProofs.BootSpec | hw03/osScheduling.c:189-197 | with one spare ring slot, main's ten pushes queue 0..9 in order and the machine is consistent |
| OsSchedulingProofs.BootFirstTick | hw03/osScheduling.c:123-134 | then the first alarm dispatches child 0, charges it one quantum unit and leaves 1..9 queued |
| OsSchedulingFindings.AsWrittenBootLosesQueue | hw03/osScheduling.c:189-197 | with the NPROC-slot ring, after main's ten pushes the queue is empty although every child is READY |
| OsSchedulingFindings.AsWrittenTickIdles | hw03/osScheduling.c:104-180 | in that state a tick changes nothing, whatever the worker reports |
| OsSchedulingFindings.AsWrittenNeverRuns | hw03/osScheduling.c:202-204 | so under any sequence of signals nothing is dispatched and done_cnt stays 0: the wait loop never ends |
| OsSchedulingFindings.CorrectedBootRuns | hw03/osScheduling.c:189-197 | with NPROC + 1 slots every run stays consistent and the first alarm dispatches child 0 |

## Left out

- Signals, `fork`, `kill`, `alarm`, `pause`, `waitpid`, `sleep` and the
  worker bodies (`child_process` in both files) are OS transport. SIGALRM
  is the tick function, SIGUSR2 is `OsScheduling.IoSignal`, and SIGCHLD for
  the child of PCB `i` is `Hw03.ChildDoneAsWritten(k, i)`; `Hw03.ChildDone`
  is the corrected handler. The osScheduling.c
  `waitpid` result is the tick's `exited` input. The `while (waitpid(...))`
  loop of `child_done_handler` handles one child per call here.
- `rand()`/`srand()`: each draw is a `nat` argument. The source's own
  `% range + min` formula is applied to it.
- Process ids (`pid` fields) are left out; a PCB is named by its index.
- `printf`, `print_queue_status` and the floating-point division of
  `print_statistics`. Only the integer column sums are modelled
  (`Hw03.SumFrom`); dividing each by the same positive NUM_PROCESSES
  keeps their order, so the printed averages are ordered alike.
- The `static int tick` counter of osScheduling.c only feeds `printf`.
- The `if (done_count < NUM_PROCESSES) alarm(1)` re-arm of
  `timer_handler` is not modelled. Instead `Hw03.TimerHandler` requires
  that the controller has not exited, because after `exit(0)` no handler
  runs.
- Hw03.TimerHandler: its own contract states only the clock step. What a
  tick does is stated by `Hw03Proofs.TimerHandlerKeepsInv` and
  `Hw03History.TimerHandlerEvolves`.
- OsScheduling.Tick and OsScheduling.Run: their own contracts state only
  well-formedness. Their behaviour is stated by the phase functions and
  by `OsSchedulingProofs.TickKeepsInv` and `RunKeepsInv`.
- Hw03.ChildDoneAsWritten: for a running victim its contract does not
  say what the following `schedule` does. Without the invariant, the
  queue may still hold the victim, and the point of the member is the
  failure `Hw03Findings.ReadyVictimRedispatched` exhibits. What it keeps
  is stated by `Hw03Proofs.ChildDoneAsWrittenKeepsInv`.
- Modelling choices:
  - `OsScheduling.PushReady` is total and wraps, rather than requiring
    room. Its contract states both the append and the wrap outcome.
  - The osScheduling.c global reset has no `done_cnt` condition, unlike
    the one in hw03.c.
- lect02/calc.c and lect05 (Taylor series) are not part of this model:
  they are floating-point programs outside the scheduler.

## Findings

| source | as written | input that shows it | evidently intended | confidence | as-written member | corrected member |
|---|---|---|---|---|---|---|
| hw03/osScheduling.c:25 | `int ready_q[NPROC]`: a ring of NPROC slots holds at most NPROC - 1 entries, and `main` pushes all NPROC children (lines 189-197), so the tail wraps onto the head | any start: after the tenth push `rq_head == rq_tail`, the queue reads as empty, no tick ever dispatches, and `while (done_cnt < NPROC)` never ends | a ring with NPROC + 1 slots, as hw03.c sizes its own | not executed | OsSchedulingFindings.AsWrittenNeverRuns | OsSchedulingFindings.CorrectedBootRuns |
| hw03/hw03.c:232-244 | `child_done_handler` marks a READY process DONE but leaves its index in the ready ring | a child killed while READY at the head of the queue, then the running child ends: `schedule` pops the DONE index and makes it RUNNING, and done_count exceeds the number of DONE PCBs | a terminated process also leaves the ready queue | not executed | Hw03Findings.ReadyVictimRedispatched | Hw03Findings.ReadyVictimStaysDone |
