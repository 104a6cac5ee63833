/** The round-robin scheduler of hw03/osScheduling.c as a pure state machine.

    Unlike hw03/hw03.c, the parent does not track CPU bursts (each worker
    counts its own and reports by exiting or by raising SIGUSR2), a tick
    dispatches before it charges, and a preempted process gets its quantum
    back at once. The ready queue is the same kind of ring as in hw03/hw03.c,
    but `ready_q` has only `NPROC` slots.

    Signals and `waitpid` are transport: SIGUSR2 is the event `IoSignal`, and
    "the running child has exited" is the boolean tick input `exited`. Every
    `rand()` result is a `nat` parameter to which the source's own
    `% range + min` formula is applied. */
module OsScheduling {
  import opened Collections
  import opened RingBuffer

  const NProc := 10
  const InitTq := 3
  const IoWaitMin := 1
  const IoWaitMax := 5

  datatype State = Ready | Running | Sleep | Done

  /** One PCB; the worker's pid is left out. */
  datatype OsPcb = OsPcb(cpuBurst: int, timeQuantum: int, state: State, ioWait: int)

  /** The parent's globals. `ioRequest` is the `io_request` flag the SIGUSR2
      handler raises and the tick consumes. */
  datatype Machine = Machine(
    pcb: seq<OsPcb>,
    ready: Ring,
    running: int,
    sleepCnt: int,
    doneCnt: int,
    ioRequest: bool)

  /** What the C arrays guarantee by their types. The ring length is left
      open so that both the `NPROC`-slot original and the corrected ring fit. */
  predicate WellFormed(m: Machine) {
    && |m.pcb| == NProc
    && Valid(m.ready)
    && InRange(m.ready.buf, NProc)
    && -1 <= m.running < NProc
  }

  /** The state column of the PCB table. */
  function States(ps: seq<OsPcb>): (ss: seq<State>)
    ensures |ss| == |ps|
    ensures forall i :: 0 <= i < |ps| ==> ss[i] == ps[i].state
  {
    seq(|ps|, i requires 0 <= i < |ps| => ps[i].state)
  }

  /** `rand() % 10 + 1`, the initial burst `init` draws. */
  function BurstDraw(r: nat): (b: int)
    ensures 1 <= b <= 10
  {
    r % 10 + 1
  }

  /** `rand() % (IO_WAIT_MAX - IO_WAIT_MIN + 1) + IO_WAIT_MIN`. */
  function IoWaitDraw(r: nat): (w: int)
    ensures IoWaitMin <= w <= IoWaitMax
  {
    r % (IoWaitMax - IoWaitMin + 1) + IoWaitMin
  }

  // ---------------------------------------------------------------- queues

  /** `push_ready`: write at the tail and advance it, with no DONE guard and
      no capacity check. On a full ring the tail lands on the head and the
      queue reads as empty. */
  function PushReady(m: Machine, i: int): (r: Machine)
    requires WellFormed(m) && 0 <= i < NProc
    ensures WellFormed(r) && |r.ready.buf| == |m.ready.buf|
    ensures r == m.(ready := r.ready)
    ensures Size(m.ready) + 1 < |m.ready.buf| ==> Contents(r.ready) == Contents(m.ready) + [i]
    ensures Size(m.ready) + 1 == |m.ready.buf| ==> Contents(r.ready) == []
  {
    m.(ready := Push(m.ready, i))
  }

  datatype Popped = Popped(idx: int, machine: Machine)

  /** `pop_ready`: -1 exactly when head == tail; otherwise the oldest entry. */
  function PopReady(m: Machine): (r: Popped)
    requires WellFormed(m)
    ensures WellFormed(r.machine) && |r.machine.ready.buf| == |m.ready.buf|
    ensures r.machine == m.(ready := r.machine.ready)
    ensures r.idx == -1 <==> Contents(m.ready) == []
    ensures r.idx == -1 ==> r.machine == m
    ensures r.idx != -1 ==>
      && 0 <= r.idx < NProc
      && r.idx == Contents(m.ready)[0]
      && Contents(r.machine.ready) == Contents(m.ready)[1..]
  {
    var (x, q) := Pop(m.ready);
    if x == -1 then Popped(-1, m)
    else
      assert x in m.ready.buf;
      Popped(x, m.(ready := q))
  }

  // ------------------------------------------------------------------ init

  /** The PCB table `init` builds from the draws `rs`. */
  function Init(rs: seq<nat>): (ps: seq<OsPcb>)
    requires |rs| == NProc
    ensures |ps| == NProc
    ensures forall i :: 0 <= i < NProc ==>
      && ps[i].state == Ready && ps[i].timeQuantum == InitTq && ps[i].ioWait == 0
      && 1 <= ps[i].cpuBurst <= 10 && ps[i].cpuBurst == rs[i] % 10 + 1
  {
    seq(NProc, i requires 0 <= i < NProc => OsPcb(BurstDraw(rs[i]), InitTq, Ready, 0))
  }

  /** `main` before the first alarm: `init`, then `push_ready(i)` for every
      child in order, into a zero-filled ring of `slots` entries. */
  function BootWith(rs: seq<nat>, slots: nat): (m: Machine)
    requires |rs| == NProc && 0 < slots
    ensures WellFormed(m) && |m.ready.buf| == slots
    ensures m.pcb == Init(rs) && m.running == -1 && m.sleepCnt == 0 && m.doneCnt == 0 && !m.ioRequest
  {
    var q := PushAll(Empty(slots), seq(NProc, j => j));
    assert forall y :: y in q.buf ==> y in seq(NProc, j => j) || y == 0;
    Machine(Init(rs), q, -1, 0, 0, false)
  }

  /** The ring as declared, `int ready_q[NPROC]`. */
  function BootAsWritten(rs: seq<nat>): (m: Machine)
    requires |rs| == NProc
    ensures WellFormed(m) && |m.ready.buf| == NProc
  {
    BootWith(rs, NProc)
  }

  /** The ring with one spare slot, as hw03/hw03.c sizes it, so that all
      `NPROC` children fit. */
  function Boot(rs: seq<nat>): (m: Machine)
    requires |rs| == NProc
    ensures WellFormed(m) && |m.ready.buf| == NProc + 1
  {
    BootWith(rs, NProc + 1)
  }

  // ----------------------------------------------------------------- aging

  /** One iteration of the I/O aging loop: a SLEEP process loses one tick of
      wait and, once it reaches zero, becomes READY, is queued and leaves the
      sleep count. Any other process is skipped. */
  function AgeOne(m: Machine, i: int): (r: Machine)
    requires WellFormed(m) && 0 <= i < NProc
    ensures WellFormed(r) && |r.ready.buf| == |m.ready.buf|
    ensures m.pcb[i].state != Sleep ==> r == m
    ensures m.pcb[i].state == Sleep && m.pcb[i].ioWait - 1 > 0 ==>
      r == m.(pcb := m.pcb[i := m.pcb[i].(ioWait := m.pcb[i].ioWait - 1)])
    ensures m.pcb[i].state == Sleep && m.pcb[i].ioWait - 1 <= 0 ==>
      && r == m.(pcb := r.pcb, ready := r.ready, sleepCnt := m.sleepCnt - 1)
      && r.pcb == m.pcb[i := m.pcb[i].(ioWait := m.pcb[i].ioWait - 1, state := Ready)]
      && r.ready == Push(m.ready, i)
      && (Size(m.ready) + 1 < |m.ready.buf| ==> Contents(r.ready) == Contents(m.ready) + [i])
  {
    if m.pcb[i].state != Sleep then m
    else
      var p := m.pcb[i].(ioWait := m.pcb[i].ioWait - 1);
      if p.ioWait <= 0 then
        PushReady(m.(pcb := m.pcb[i := p.(state := Ready)]), i).(sleepCnt := m.sleepCnt - 1)
      else
        m.(pcb := m.pcb[i := p])
  }

  /** The aging loop from process `i` on. */
  function AgeFrom(m: Machine, i: nat): (r: Machine)
    requires WellFormed(m) && i <= NProc
    ensures WellFormed(r) && |r.ready.buf| == |m.ready.buf|
    ensures r.running == m.running && r.doneCnt == m.doneCnt && r.ioRequest == m.ioRequest
    decreases NProc - i
  {
    if i == NProc then m else AgeFrom(AgeOne(m, i), i + 1)
  }

  /** The aging loop of `timer_tick`. */
  function Age(m: Machine): (r: Machine)
    requires WellFormed(m)
    ensures WellFormed(r) && |r.ready.buf| == |m.ready.buf|
    ensures r.running == m.running && r.doneCnt == m.doneCnt && r.ioRequest == m.ioRequest
  {
    AgeFrom(m, 0)
  }

  // -------------------------------------------------------------- dispatch

  /** With nothing running, the head of the ready queue becomes RUNNING; its
      quantum is left as it is. */
  function Dispatch(m: Machine): (r: Machine)
    requires WellFormed(m)
    ensures WellFormed(r) && |r.ready.buf| == |m.ready.buf|
    ensures m.running != -1 || Contents(m.ready) == [] ==> r == m
    ensures m.running == -1 && Contents(m.ready) != [] ==>
      var i := Contents(m.ready)[0];
      && r == m.(running := i, ready := r.ready, pcb := m.pcb[i := m.pcb[i].(state := Running)])
      && Contents(r.ready) == Contents(m.ready)[1..]
  {
    if m.running != -1 then m
    else
      var popped := PopReady(m);
      if popped.idx == -1 then popped.machine
      else
        var i := popped.idx;
        popped.machine.(running := i, pcb := m.pcb[i := m.pcb[i].(state := Running)])
  }

  // ---------------------------------------------------------------- charge

  /** The running-process part of `timer_tick`: one quantum unit is charged;
      then a pending I/O request puts it to sleep with a fresh wait; else an
      exited child makes it DONE; else a spent quantum sends it to the rear
      of the ready queue with a fresh quantum; else it keeps running. */
  function Charge(m: Machine, exited: bool, rIo: nat): (r: Machine)
    requires WellFormed(m)
    ensures WellFormed(r) && |r.ready.buf| == |m.ready.buf|
    ensures m.running == -1 ==> r == m
    ensures m.running != -1 ==>
      var c := m.running;
      var p := m.pcb[c].(timeQuantum := m.pcb[c].timeQuantum - 1);
      && (m.ioRequest ==>
            && r.pcb[c].state == Sleep
            && IoWaitMin <= r.pcb[c].ioWait <= IoWaitMax
            && r == m.(pcb := m.pcb[c := p.(state := Sleep, ioWait := r.pcb[c].ioWait)],
                       ioRequest := false, sleepCnt := m.sleepCnt + 1, running := -1))
      && (!m.ioRequest && exited ==>
            r == m.(pcb := m.pcb[c := p.(state := Done)], doneCnt := m.doneCnt + 1, running := -1))
      && (!m.ioRequest && !exited && p.timeQuantum <= 0 ==>
            && r == m.(pcb := m.pcb[c := p.(state := Ready, timeQuantum := InitTq)],
                       ready := r.ready, running := -1)
            && (Size(m.ready) + 1 < |m.ready.buf| ==> Contents(r.ready) == Contents(m.ready) + [c]))
      && (!m.ioRequest && !exited && p.timeQuantum > 0 ==>
            r == m.(pcb := m.pcb[c := p]))
  {
    if m.running == -1 then m
    else
      var c := m.running;
      var p := m.pcb[c].(timeQuantum := m.pcb[c].timeQuantum - 1);
      if m.ioRequest then
        m.(pcb := m.pcb[c := p.(state := Sleep, ioWait := IoWaitDraw(rIo))],
           ioRequest := false, sleepCnt := m.sleepCnt + 1, running := -1)
      else if exited then
        m.(pcb := m.pcb[c := p.(state := Done)], doneCnt := m.doneCnt + 1, running := -1)
      else if p.timeQuantum <= 0 then
        PushReady(m.(pcb := m.pcb[c := p.(state := Ready, timeQuantum := InitTq)]), c).(running := -1)
      else
        m.(pcb := m.pcb[c := p])
  }

  // ----------------------------------------------------------------- reset

  /** The loop of `all_tq_zero` from position `i`. */
  function AllTqZeroFrom(ps: seq<OsPcb>, i: nat): (b: bool)
    requires i <= |ps|
    ensures b <==> forall j :: i <= j < |ps| ==> ps[j].state == Done || ps[j].timeQuantum <= 0
    decreases |ps| - i
  {
    if i == |ps| then true
    else if ps[i].state != Done && ps[i].timeQuantum > 0 then false
    else AllTqZeroFrom(ps, i + 1)
  }

  /** `all_tq_zero`: every process that is not DONE has spent its quantum. */
  function AllTqZero(ps: seq<OsPcb>): (b: bool)
    ensures b <==> forall j :: 0 <= j < |ps| ==> ps[j].state == Done || ps[j].timeQuantum <= 0
  {
    AllTqZeroFrom(ps, 0)
  }

  /** The reset loop from position `i`. */
  function RefillFrom(ps: seq<OsPcb>, i: nat): (r: seq<OsPcb>)
    requires i <= |ps|
    ensures |r| == |ps|
    ensures forall j :: 0 <= j < i ==> r[j] == ps[j]
    ensures forall j :: i <= j < |ps| && ps[j].state == Done ==> r[j] == ps[j]
    ensures forall j :: i <= j < |ps| && ps[j].state != Done ==> r[j] == ps[j].(timeQuantum := InitTq)
    decreases |ps| - i
  {
    if i == |ps| then ps
    else if ps[i].state != Done then RefillFrom(ps[i := ps[i].(timeQuantum := InitTq)], i + 1)
    else RefillFrom(ps, i + 1)
  }

  /** The global reset at the end of `timer_tick`: when every live quantum
      is spent, each process that is not DONE gets `INIT_TQ` again. */
  function ResetWhenSpent(m: Machine): (r: Machine)
    requires WellFormed(m)
    ensures WellFormed(r) && |r.ready.buf| == |m.ready.buf|
    ensures r == m.(pcb := r.pcb) && |r.pcb| == |m.pcb|
    ensures !AllTqZero(m.pcb) ==> r == m
    ensures AllTqZero(m.pcb) ==>
      forall j :: 0 <= j < NProc ==>
        r.pcb[j] == if m.pcb[j].state == Done then m.pcb[j] else m.pcb[j].(timeQuantum := InitTq)
  {
    if AllTqZero(m.pcb) then m.(pcb := RefillFrom(m.pcb, 0)) else m
  }

  // ------------------------------------------------------------------ tick

  /** `parent_io_signal` (SIGUSR2): the I/O request is raised for the next
      tick to consume; no PCB, queue or counter is touched. */
  function IoSignal(m: Machine): (r: Machine)
    ensures r.ioRequest
    ensures r.pcb == m.pcb && r.ready == m.ready && r.running == m.running
    ensures r.sleepCnt == m.sleepCnt && r.doneCnt == m.doneCnt
  {
    m.(ioRequest := true)
  }

  /** `timer_tick` (SIGALRM): age the sleepers, dispatch if idle, charge the
      running process, and apply the global quantum reset. */
  function Tick(m: Machine, exited: bool, rIo: nat): (r: Machine)
    requires WellFormed(m)
    ensures WellFormed(r) && |r.ready.buf| == |m.ready.buf|
  {
    ResetWhenSpent(Charge(Dispatch(Age(m)), exited, rIo))
  }

  /** A signal delivered to the parent while `main` waits in `pause()`. */
  datatype Event = Alarm(exited: bool, rIo: nat) | Usr2

  /** The parent's state after handling `evs` in order. */
  function Run(m: Machine, evs: seq<Event>): (r: Machine)
    requires WellFormed(m)
    ensures WellFormed(r) && |r.ready.buf| == |m.ready.buf|
    decreases |evs|
  {
    if evs == [] then m
    else
      var m1 := match evs[0]
        case Alarm(exited, rIo) => Tick(m, exited, rIo)
        case Usr2 => IoSignal(m);
      Run(m1, evs[1..])
  }
}
