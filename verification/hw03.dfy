/** The round-robin scheduler of hw03/hw03.c as a pure state machine.

    The controller keeps a table of PCBs, a circular ready queue of
    `NumProcesses + 1` slots and a compacting sleep list. Each timer tick ages
    the sleepers, charges the running process one tick of quantum and CPU
    burst, decides termination / I/O / preemption, resets every quantum when
    all live quanta are spent, and dispatches the head of the ready queue.

    Signals, fork, kill and printing are transport and are not modelled: a
    SIGCHLD for the child of PCB `i` is the call `ChildDoneAsWritten(k, i)`
    (`ChildDone` is the corrected handler), a SIGALRM is `TimerHandler`, and
    every `rand()` result is a `nat` parameter to which the source's own
    `% range + min` formula is applied. */
module Hw03 {
  import opened Collections
  import opened RingBuffer

  const NumProcesses := 10
  const TimeQuantum := 1
  const MaxCpuBurst := 10
  const MinCpuBurst := 1
  const MaxIoWait := 5
  const MinIoWait := 1
  const QueueSize := NumProcesses + 1

  datatype ProcessState = Ready | Running | Sleeping | Done

  /** One process control block; the worker's pid is left out. Times are in
      timer ticks. */
  datatype Pcb = Pcb(
    quantum: int,
    cpuBurst: int,
    ioWait: int,
    state: ProcessState,
    creationTime: int,
    firstRunTime: int,
    completionTime: int,
    totalWaitTime: int,
    readyEnterTime: int,
    waitCount: int)

  /** The controller's global state. `ready` is the ring buffer, `sleep` the
      live prefix `sleep_queue[0..sleep_count)`, `current` the running index
      or -1. `exited` records that the controller has called `exit(0)`. */
  datatype Kernel = Kernel(
    pcb: seq<Pcb>,
    ready: Ring,
    sleep: seq<int>,
    current: int,
    doneCount: int,
    timerTick: int,
    exited: bool)

  /** What the C arrays guarantee by their types: a full PCB table, an
      eleven-slot ring holding table indices, and index-valued sleep entries. */
  predicate WellFormed(k: Kernel) {
    && |k.pcb| == NumProcesses
    && Valid(k.ready)
    && |k.ready.buf| == QueueSize
    && InRange(k.ready.buf, NumProcesses)
    && InRange(k.sleep, NumProcesses)
    && -1 <= k.current < NumProcesses
  }

  /** The state column of the PCB table. */
  function States(ps: seq<Pcb>): (ss: seq<ProcessState>)
    ensures |ss| == |ps|
    ensures forall i :: 0 <= i < |ps| ==> ss[i] == ps[i].state
  {
    seq(|ps|, i requires 0 <= i < |ps| => ps[i].state)
  }

  /** `rand() % (MAX_CPU_BURST - MIN_CPU_BURST + 1) + MIN_CPU_BURST`. */
  function CpuBurstDraw(r: nat): (b: int)
    ensures MinCpuBurst <= b <= MaxCpuBurst
  {
    r % (MaxCpuBurst - MinCpuBurst + 1) + MinCpuBurst
  }

  /** `rand() % (MAX_IO_WAIT - MIN_IO_WAIT + 1) + MIN_IO_WAIT`. */
  function IoWaitDraw(r: nat): (w: int)
    ensures MinIoWait <= w <= MaxIoWait
  {
    r % (MaxIoWait - MinIoWait + 1) + MinIoWait
  }

  // ---------------------------------------------------------------- queues

  /** `push_ready`: a DONE process is never queued again. Any other process is
      appended at the rear, becomes READY, and has its entry time stamped and
      its enqueue count bumped. */
  function PushReady(k: Kernel, idx: int): (r: Kernel)
    requires WellFormed(k) && 0 <= idx < NumProcesses
    ensures WellFormed(r)
    ensures k.pcb[idx].state == Done ==> r == k
    ensures k.pcb[idx].state != Done ==>
      && r == k.(ready := r.ready, pcb := r.pcb)
      && (Size(k.ready) + 1 < QueueSize ==> Contents(r.ready) == Contents(k.ready) + [idx])
      && r.pcb == k.pcb[idx := k.pcb[idx].(state := Ready,
                                          readyEnterTime := k.timerTick,
                                          waitCount := k.pcb[idx].waitCount + 1)]
  {
    if k.pcb[idx].state == Done then k
    else
      var p := k.pcb[idx];
      k.(ready := Push(k.ready, idx),
         pcb := k.pcb[idx := p.(state := Ready, readyEnterTime := k.timerTick, waitCount := p.waitCount + 1)])
  }

  datatype Popped = Popped(idx: int, kernel: Kernel)

  /** `pop_ready`: -1 and no change exactly when front == rear; otherwise the
      oldest entry, whose PCB alone is charged the ticks it spent waiting. */
  function PopReady(k: Kernel): (r: Popped)
    requires WellFormed(k)
    ensures WellFormed(r.kernel)
    ensures r.idx == -1 <==> k.ready.head == k.ready.tail
    ensures r.idx == -1 ==> r.kernel == k
    ensures r.idx != -1 ==>
      && 0 <= r.idx < NumProcesses
      && Contents(k.ready) != []
      && r.idx == Contents(k.ready)[0]
      && Contents(r.kernel.ready) == Contents(k.ready)[1..]
      && r.kernel == k.(ready := r.kernel.ready, pcb := r.kernel.pcb)
      && r.kernel.pcb == k.pcb[r.idx := k.pcb[r.idx].(totalWaitTime :=
           k.pcb[r.idx].totalWaitTime + (k.timerTick - k.pcb[r.idx].readyEnterTime))]
  {
    if k.ready.head == k.ready.tail then Popped(-1, k)
    else
      var (idx, q) := Pop(k.ready);
      assert idx in k.ready.buf;
      var p := k.pcb[idx];
      Popped(idx, k.(ready := q,
                     pcb := k.pcb[idx := p.(totalWaitTime := p.totalWaitTime + (k.timerTick - p.readyEnterTime))]))
  }

  /** `push_sleep`: a DONE process is never put to sleep; any other is
      appended to the sleep list and marked SLEEPING. */
  function PushSleep(k: Kernel, idx: int): (r: Kernel)
    requires WellFormed(k) && 0 <= idx < NumProcesses
    ensures WellFormed(r)
    ensures k.pcb[idx].state == Done ==> r == k
    ensures k.pcb[idx].state != Done ==>
      && r.sleep == k.sleep + [idx]
      && r.pcb[idx].state == Sleeping
      && r.pcb[idx] == k.pcb[idx].(state := r.pcb[idx].state)
      && (forall j :: 0 <= j < NumProcesses && j != idx ==> r.pcb[j] == k.pcb[j])
    // the ready queue, the CPU and the counters are never touched
    ensures r.ready == k.ready && r.current == k.current && r.doneCount == k.doneCount
    ensures r.timerTick == k.timerTick && r.exited == k.exited
  {
    if k.pcb[idx].state == Done then k
    else k.(sleep := k.sleep + [idx], pcb := k.pcb[idx := k.pcb[idx].(state := Sleeping)])
  }

  /** The shifting loop `for (j = i; j < sleep_count - 1; j++) q[j] = q[j+1]`
      followed by `sleep_count--`. */
  function RemoveAt(xs: seq<int>, i: int): (ys: seq<int>)
    requires 0 <= i < |xs|
    ensures |ys| == |xs| - 1
    ensures forall y :: y in ys ==> y in xs
    ensures forall j :: 0 <= j < i ==> ys[j] == xs[j]
    ensures forall j :: i <= j < |ys| ==> ys[j] == xs[j + 1]
  {
    xs[..i] + xs[i + 1..]
  }

  /** The loop of `update_sleep_queue` from position `i`: a DONE entry is
      deleted in place; any other has its wait decremented and, once the wait
      reaches zero, is handed to `push_ready` and deleted. A deletion leaves
      `i` where it is (the source's `i--` before `i++`). */
  function UpdateSleepFrom(k: Kernel, i: nat): (r: Kernel)
    requires WellFormed(k) && i <= |k.sleep|
    ensures WellFormed(r)
    ensures r.current == k.current && r.doneCount == k.doneCount
    ensures r.timerTick == k.timerTick && r.exited == k.exited
    decreases |k.sleep| - i
  {
    if i == |k.sleep| then k
    else
      var idx := k.sleep[i];
      assert idx in k.sleep;
      if k.pcb[idx].state == Done then
        UpdateSleepFrom(k.(sleep := RemoveAt(k.sleep, i)), i)
      else
        var k1 := k.(pcb := k.pcb[idx := k.pcb[idx].(ioWait := k.pcb[idx].ioWait - 1)]);
        if k1.pcb[idx].ioWait <= 0 then
          UpdateSleepFrom(PushReady(k1, idx).(sleep := RemoveAt(k.sleep, i)), i)
        else
          UpdateSleepFrom(k1, i + 1)
  }

  /** `update_sleep_queue`. */
  function UpdateSleepQueue(k: Kernel): (r: Kernel)
    requires WellFormed(k)
    ensures WellFormed(r)
    ensures r.current == k.current && r.doneCount == k.doneCount
    ensures r.timerTick == k.timerTick && r.exited == k.exited
  {
    UpdateSleepFrom(k, 0)
  }

  // -------------------------------------------------------------- quantum

  /** The loop of `all_quantum_zero` from position `i`. */
  function AllQuantumZeroFrom(ps: seq<Pcb>, i: nat): (b: bool)
    requires i <= |ps|
    ensures b <==> forall j :: i <= j < |ps| ==> ps[j].state == Done || ps[j].quantum <= 0
    decreases |ps| - i
  {
    if i == |ps| then true
    else if ps[i].state != Done && ps[i].quantum > 0 then false
    else AllQuantumZeroFrom(ps, i + 1)
  }

  /** `all_quantum_zero`: every live process has used up its quantum. */
  function AllQuantumZero(ps: seq<Pcb>): (b: bool)
    ensures b <==> forall j :: 0 <= j < |ps| ==> ps[j].state == Done || ps[j].quantum <= 0
  {
    AllQuantumZeroFrom(ps, 0)
  }

  /** The loop of `reset_all_quantum` from position `i`. */
  function ResetQuantumFrom(ps: seq<Pcb>, i: nat): (r: seq<Pcb>)
    requires i <= |ps|
    ensures |r| == |ps|
    ensures forall j :: 0 <= j < i ==> r[j] == ps[j]
    ensures forall j :: i <= j < |ps| && ps[j].state == Done ==> r[j] == ps[j]
    ensures forall j :: i <= j < |ps| && ps[j].state != Done ==> r[j] == ps[j].(quantum := TimeQuantum)
    decreases |ps| - i
  {
    if i == |ps| then ps
    else if ps[i].state != Done then ResetQuantumFrom(ps[i := ps[i].(quantum := TimeQuantum)], i + 1)
    else ResetQuantumFrom(ps, i + 1)
  }

  /** `reset_all_quantum`: live processes get a fresh quantum, DONE ones are
      left untouched. */
  function ResetAllQuantum(ps: seq<Pcb>): (r: seq<Pcb>)
    ensures |r| == |ps|
    ensures forall j :: 0 <= j < |ps| && ps[j].state == Done ==> r[j] == ps[j]
    ensures forall j :: 0 <= j < |ps| && ps[j].state != Done ==> r[j] == ps[j].(quantum := TimeQuantum)
  {
    ResetQuantumFrom(ps, 0)
  }

  // ------------------------------------------------------------ scheduling

  /** `schedule`: with no process running, pop the ready queue; a popped
      process becomes RUNNING with a full quantum and, on its first dispatch
      only, gets its first-run time. The controller exits once every process
      is done. */
  function Schedule(k: Kernel): (r: Kernel)
    requires WellFormed(k)
    ensures WellFormed(r)
    ensures r.exited == (k.exited || k.doneCount >= NumProcesses)
    ensures k.current != -1 || Contents(k.ready) == [] ==> r == k.(exited := r.exited)
    ensures k.current == -1 && Contents(k.ready) != [] ==>
      var i := Contents(k.ready)[0];
      var p := k.pcb[i];
      && r == k.(current := i, ready := r.ready, pcb := r.pcb, exited := r.exited)
      && Contents(r.ready) == Contents(k.ready)[1..]
      && r.pcb == k.pcb[i := p.(state := Running,
                                quantum := TimeQuantum,
                                totalWaitTime := p.totalWaitTime + (k.timerTick - p.readyEnterTime),
                                firstRunTime := if p.firstRunTime == -1 then k.timerTick else p.firstRunTime)]
  {
    var k1 :=
      if k.current == -1 then
        var popped := PopReady(k);
        if popped.idx != -1 then
          var next := popped.idx;
          var p := popped.kernel.pcb[next];
          var p' := p.(state := Running,
                       quantum := TimeQuantum,
                       firstRunTime := if p.firstRunTime == -1 then k.timerTick else p.firstRunTime);
          assert popped.kernel.pcb[next := p'] == k.pcb[next := p'];
          popped.kernel.(current := next, pcb := popped.kernel.pcb[next := p'])
        else popped.kernel
      else k;
    k1.(exited := k.exited || k1.doneCount >= NumProcesses)
  }

  /** The running-process part of `timer_handler`: quantum and burst drop by
      one; an exhausted burst ends in termination (`choice == 0`) or in an
      I/O sleep with a fresh wait and burst; otherwise an exhausted quantum
      sends the process to the rear of the ready queue; otherwise it keeps
      running. */
  function ChargeRunning(k: Kernel, rChoice: nat, rIo: nat, rBurst: nat): (r: Kernel)
    requires WellFormed(k) && k.current != -1 && k.pcb[k.current].state == Running
    ensures WellFormed(r)
    ensures r.timerTick == k.timerTick && r.exited == k.exited
    ensures var c := k.current;
            var p := k.pcb[c];
            && r.pcb[c].quantum == p.quantum - 1
            && (p.cpuBurst - 1 <= 0 && rChoice % 2 == 0 ==>
                  && r.pcb == k.pcb[c := p.(quantum := p.quantum - 1, cpuBurst := p.cpuBurst - 1,
                                            state := Done, completionTime := k.timerTick)]
                  && r.doneCount == k.doneCount + 1
                  && r.current == -1 && r.ready == k.ready && r.sleep == k.sleep)
            && (p.cpuBurst - 1 <= 0 && rChoice % 2 == 1 ==>
                  && r.pcb[c].state == Sleeping
                  && MinIoWait <= r.pcb[c].ioWait <= MaxIoWait
                  && MinCpuBurst <= r.pcb[c].cpuBurst <= MaxCpuBurst
                  && r.pcb == k.pcb[c := p.(quantum := p.quantum - 1, state := Sleeping,
                                            ioWait := r.pcb[c].ioWait, cpuBurst := r.pcb[c].cpuBurst)]
                  && r.sleep == k.sleep + [c]
                  && r.current == -1 && r.ready == k.ready && r.doneCount == k.doneCount)
            && (p.cpuBurst - 1 > 0 && p.quantum - 1 <= 0 ==>
                  && r.pcb[c] == p.(quantum := p.quantum - 1, cpuBurst := p.cpuBurst - 1, state := Ready,
                                    readyEnterTime := k.timerTick, waitCount := p.waitCount + 1)
                  && (forall j :: 0 <= j < NumProcesses && j != c ==> r.pcb[j] == k.pcb[j])
                  && (Size(k.ready) + 1 < QueueSize ==> Contents(r.ready) == Contents(k.ready) + [c])
                  && r.current == -1 && r.sleep == k.sleep && r.doneCount == k.doneCount)
            && (p.cpuBurst - 1 > 0 && p.quantum - 1 > 0 ==>
                  r == k.(pcb := k.pcb[c := p.(quantum := p.quantum - 1, cpuBurst := p.cpuBurst - 1)]))
  {
    var c := k.current;
    var p := k.pcb[c].(quantum := k.pcb[c].quantum - 1, cpuBurst := k.pcb[c].cpuBurst - 1);
    var k1 := k.(pcb := k.pcb[c := p]);
    if p.cpuBurst <= 0 then
      if rChoice % 2 == 0 then
        k1.(pcb := k1.pcb[c := p.(state := Done, completionTime := k.timerTick)],
            doneCount := k.doneCount + 1,
            current := -1)
      else
        var k2 := k1.(pcb := k1.pcb[c := p.(ioWait := IoWaitDraw(rIo), cpuBurst := CpuBurstDraw(rBurst))]);
        PushSleep(k2, c).(current := -1)
    else if p.quantum <= 0 then
      PushReady(k1, c).(current := -1)
    else
      k1
  }

  /** The running-process step of `timer_handler`: only a RUNNING current
      process is charged. */
  function ChargeCurrent(k: Kernel, rChoice: nat, rIo: nat, rBurst: nat): (r: Kernel)
    requires WellFormed(k)
    ensures WellFormed(r)
    ensures r.timerTick == k.timerTick && r.exited == k.exited
    ensures (k.current == -1 || k.pcb[k.current].state != Running) ==> r == k
  {
    if k.current != -1 && k.pcb[k.current].state == Running
    then ChargeRunning(k, rChoice, rIo, rBurst)
    else k
  }

  /** The global reset step of `timer_handler`: applied only while some
      process is not DONE and every live quantum is spent. */
  function ResetWhenSpent(k: Kernel): (r: Kernel)
    requires WellFormed(k)
    ensures WellFormed(r)
    ensures r == k.(pcb := r.pcb)
    ensures AllQuantumZero(k.pcb) && k.doneCount < NumProcesses ==> r.pcb == ResetAllQuantum(k.pcb)
    ensures !(AllQuantumZero(k.pcb) && k.doneCount < NumProcesses) ==> r == k
  {
    if AllQuantumZero(k.pcb) && k.doneCount < NumProcesses
    then k.(pcb := ResetAllQuantum(k.pcb))
    else k
  }

  /** `timer_handler` (SIGALRM): advance the clock, age the sleepers, charge
      the running process, apply the global quantum reset while some process
      is live, and dispatch. */
  function TimerHandler(k: Kernel, rChoice: nat, rIo: nat, rBurst: nat): (r: Kernel)
    requires WellFormed(k) && !k.exited
    ensures WellFormed(r)
    ensures r.timerTick == k.timerTick + 1
  {
    var k1 := UpdateSleepQueue(k.(timerTick := k.timerTick + 1));
    Schedule(ResetWhenSpent(ChargeCurrent(k1, rChoice, rIo, rBurst)))
  }

  /** `child_done_handler` for the child of PCB `i`, exactly as written: a
      second notification for a DONE process is ignored; otherwise the
      process becomes DONE and, if it was running, the next one is
      dispatched. Its index is NOT taken out of the ready queue. */
  function ChildDoneAsWritten(k: Kernel, i: int): (r: Kernel)
    requires WellFormed(k) && 0 <= i < NumProcesses
    ensures WellFormed(r)
    ensures k.pcb[i].state == Done ==> r == k
    ensures k.pcb[i].state != Done ==>
      r.doneCount == k.doneCount + 1 && r.ready.buf == k.ready.buf && r.timerTick == k.timerTick
    ensures k.pcb[i].state != Done && k.current != i ==>
      && r.pcb == k.pcb[i := k.pcb[i].(state := Done, completionTime := k.timerTick)]
      && r.ready == k.ready && r.sleep == k.sleep && r.current == k.current
      && r.timerTick == k.timerTick && r.exited == k.exited
  {
    if k.pcb[i].state == Done then k
    else
      var k1 := k.(pcb := k.pcb[i := k.pcb[i].(state := Done, completionTime := k.timerTick)],
                   doneCount := k.doneCount + 1);
      if k.current == i then Schedule(k1.(current := -1)) else k1
  }

  /** `child_done_handler` with the termination also taking the process out
      of the ready queue, so that a DONE index can never be dispatched. A
      DONE entry left in the sleep list is dropped by `update_sleep_queue`. */
  function ChildDone(k: Kernel, i: int): (r: Kernel)
    requires WellFormed(k) && 0 <= i < NumProcesses
    ensures WellFormed(r)
    ensures k.pcb[i].state == Done ==> r == k
    ensures k.pcb[i].state != Done ==>
      && r.pcb[i] == k.pcb[i].(state := Done, completionTime := k.timerTick)
      && r.doneCount == k.doneCount + 1
      && i !in Contents(r.ready)
      && r.sleep == k.sleep && r.timerTick == k.timerTick
    // a victim that was not running: nothing else changes
    ensures k.pcb[i].state != Done && k.current != i ==>
      && r.current == k.current && r.exited == k.exited
      && Contents(r.ready) == Without(Contents(k.ready), i)
      && (forall j :: 0 <= j < NumProcesses && j != i ==> r.pcb[j] == k.pcb[j])
    // the running victim: `schedule` dispatches the next survivor, if any,
    // and exits once every process is done
    ensures k.pcb[i].state != Done && k.current == i ==>
      var q := Without(Contents(k.ready), i);
      && r.exited == (k.exited || k.doneCount + 1 >= NumProcesses)
      && (q == [] ==>
            && r.current == -1 && Contents(r.ready) == []
            && (forall j :: 0 <= j < NumProcesses && j != i ==> r.pcb[j] == k.pcb[j]))
      && (q != [] ==>
            && r.current == q[0] && r.current != -1 && r.pcb[r.current].state == Running
            && Contents(r.ready) == q[1..]
            && (forall j :: 0 <= j < NumProcesses && j != i && j != q[0] ==> r.pcb[j] == k.pcb[j]))
  {
    if k.pcb[i].state == Done then k
    else
      var k1 := MarkDone(k, i);
      if k.current == i then
        MarkedThenScheduled(k, i, k1, Schedule(k1));
        Schedule(k1)
      else k1
  }

  /** What `schedule` does right after the running process `i` was marked
      DONE: `k1` is the marked kernel and `r` the rescheduled one. */
  lemma MarkedThenScheduled(k: Kernel, i: int, k1: Kernel, r: Kernel)
    requires WellFormed(k) && 0 <= i < NumProcesses && k.current == i
    requires k1 == MarkDone(k, i) && r == Schedule(k1)
    ensures var q := Without(Contents(k.ready), i);
      && r.pcb[i] == k.pcb[i].(state := Done, completionTime := k.timerTick)
      && r.doneCount == k.doneCount + 1
      && i !in Contents(r.ready)
      && r.sleep == k.sleep && r.timerTick == k.timerTick
      && r.exited == (k.exited || k.doneCount + 1 >= NumProcesses)
      && (q == [] ==>
            && r.current == -1 && Contents(r.ready) == []
            && (forall j :: 0 <= j < NumProcesses && j != i ==> r.pcb[j] == k.pcb[j]))
      && (q != [] ==>
            && r.current == q[0] && r.current != -1 && r.pcb[r.current].state == Running
            && Contents(r.ready) == q[1..]
            && (forall j :: 0 <= j < NumProcesses && j != i && j != q[0] ==> r.pcb[j] == k.pcb[j]))
  {
    var q := Contents(k1.ready);
    assert q == Without(Contents(k.ready), i) && i !in q;
    assert k1.current == -1 && k1.pcb[i].state == Done;
    if q != [] {
      assert q[0] in q;
      assert Contents(r.ready) == q[1..];
      assert forall x :: x in q[1..] ==> x in q;
      assert r.pcb == k1.pcb[q[0] := r.pcb[q[0]]];
      forall j | 0 <= j < NumProcesses && j != i && j != q[0]
        ensures r.pcb[j] == k.pcb[j]
      {
        assert r.pcb[j] == k1.pcb[j];
      }
    } else {
      assert r == k1.(exited := r.exited);
    }
  }

  /** The corrected termination step before any rescheduling: process `i`
      is DONE, stamped with the current time, counted, out of the ready
      queue, and off the CPU. */
  function MarkDone(k: Kernel, i: int): (r: Kernel)
    requires WellFormed(k) && 0 <= i < NumProcesses
    ensures WellFormed(r)
    ensures r.pcb == k.pcb[i := k.pcb[i].(state := Done, completionTime := k.timerTick)]
    ensures r.doneCount == k.doneCount + 1
    ensures Contents(r.ready) == Without(Contents(k.ready), i)
    ensures i !in Contents(r.ready)
    ensures r.current == if k.current == i then -1 else k.current
    ensures r.sleep == k.sleep && r.timerTick == k.timerTick && r.exited == k.exited
  {
    k.(pcb := k.pcb[i := k.pcb[i].(state := Done, completionTime := k.timerTick)],
       doneCount := k.doneCount + 1,
       ready := Remove(k.ready, i),
       current := if k.current == i then -1 else k.current)
  }

  // ---------------------------------------------------------------- start

  /** A PCB slot before `parent_process` fills it: C zero-initialises globals. */
  const Unborn := Pcb(0, 0, 0, Ready, 0, 0, 0, 0, 0, 0)

  /** The PCB `parent_process` builds for a freshly forked child, before it is
      pushed to the ready queue. */
  function NewPcb(rBurst: nat): (p: Pcb)
    ensures p.state == Ready && p.quantum == TimeQuantum && p.firstRunTime == -1
    ensures MinCpuBurst <= p.cpuBurst <= MaxCpuBurst
  {
    Pcb(quantum := TimeQuantum, cpuBurst := CpuBurstDraw(rBurst), ioWait := 0, state := Ready,
        creationTime := 0, firstRunTime := -1, completionTime := 0,
        totalWaitTime := 0, readyEnterTime := 0, waitCount := 0)
  }

  /** The creation loop of `parent_process` from child `i`. */
  function CreateFrom(k: Kernel, rs: seq<nat>, i: nat): (r: Kernel)
    requires WellFormed(k) && |rs| == NumProcesses && i <= NumProcesses
    ensures WellFormed(r)
    decreases NumProcesses - i
  {
    if i == NumProcesses then k
    else CreateFrom(PushReady(k.(pcb := k.pcb[i := NewPcb(rs[i])]), i), rs, i + 1)
  }

  /** The state after `parent_process` has created and queued every child;
      `rs[i]` is the `rand()` result behind child i's first burst. */
  function Boot(rs: seq<nat>): (r: Kernel)
    requires |rs| == NumProcesses
    ensures WellFormed(r)
  {
    CreateFrom(Kernel(seq(NumProcesses, _ => Unborn), Empty(QueueSize), [], -1, 0, 0, false), rs, 0)
  }

  /** `parent_process` up to the first alarm: creation, then one `schedule`. */
  function Start(rs: seq<nat>): (r: Kernel)
    requires |rs| == NumProcesses
    ensures WellFormed(r)
  {
    Schedule(Boot(rs))
  }

  // ----------------------------------------------------------- statistics

  /** Response time as `print_statistics` computes it. */
  function ResponseTime(p: Pcb): int {
    p.firstRunTime - p.creationTime
  }

  /** Turnaround time as `print_statistics` computes it. */
  function TurnaroundTime(p: Pcb): int {
    p.completionTime - p.creationTime
  }

  /** The three integer column totals `print_statistics` accumulates. */
  datatype Totals = Totals(wait: int, response: int, turnaround: int)

  function SumFrom(ps: seq<Pcb>, i: nat): Totals
    requires i <= |ps|
    decreases |ps| - i
  {
    if i == |ps| then Totals(0, 0, 0)
    else
      var t := SumFrom(ps, i + 1);
      Totals(ps[i].totalWaitTime + t.wait,
             ResponseTime(ps[i]) + t.response,
             TurnaroundTime(ps[i]) + t.turnaround)
  }
}
