/** `int ready_q[NPROC]` in hw03/osScheduling.c is one slot short: `main`
    pushes all `NPROC` children, the tail wraps onto the head, and the queue
    reads as empty while every child is READY. No tick ever dispatches, so
    the parent's `while (done_cnt < NPROC)` loop never ends. */
module OsSchedulingFindings {
  import opened Collections
  import opened RingBuffer
  import opened OsScheduling
  import opened OsSchedulingProofs

  /** After `main`'s ten pushes into ten slots the queue is empty although
      every child is READY. */
  lemma AsWrittenBootLosesQueue(rs: seq<nat>)
    requires |rs| == NProc
    ensures var m := BootAsWritten(rs);
            && Contents(m.ready) == []
            && (forall i :: 0 <= i < NProc ==> m.pcb[i].state == Ready)
  {
    var e := Empty(NProc);
    var first := seq(NProc - 1, j => j);
    assert seq(NProc, j => j) == first + [NProc - 1];
    PushAllSnoc(e, first, NProc - 1);
    assert Contents(PushAll(e, first)) == first;
  }

  /** In that state, or in it with an I/O request pending, a tick changes
      nothing at all, whatever the worker reports. */
  lemma AsWrittenTickIdles(rs: seq<nat>, pending: bool, exited: bool, rIo: nat)
    requires |rs| == NProc
    ensures var m := BootAsWritten(rs).(ioRequest := pending);
            Tick(m, exited, rIo) == m
  {
    AsWrittenBootLosesQueue(rs);
    var m := BootAsWritten(rs).(ioRequest := pending);
    AgeWithoutSleepers(m);
    assert m.pcb[0].state == Ready && m.pcb[0].timeQuantum == InitTq;
    assert !AllTqZero(m.pcb);
  }

  /** Hence, under any sequence of signals, nothing is ever dispatched and
      no child ever finishes. */
  lemma {:induction false} AsWrittenNeverRuns(rs: seq<nat>, pending: bool, evs: seq<Event>)
    requires |rs| == NProc
    ensures var r := Run(BootAsWritten(rs).(ioRequest := pending), evs);
            && r.(ioRequest := false) == BootAsWritten(rs)
            && r.running == -1 && r.doneCnt == 0
    decreases |evs|
  {
    var m := BootAsWritten(rs).(ioRequest := pending);
    if evs != [] {
      match evs[0]
      case Alarm(exited, rIo) =>
        AsWrittenTickIdles(rs, pending, exited, rIo);
        AsWrittenNeverRuns(rs, pending, evs[1..]);
      case Usr2 =>
        assert IoSignal(m) == BootAsWritten(rs).(ioRequest := true);
        AsWrittenNeverRuns(rs, true, evs[1..]);
    }
  }

  /** With `NPROC + 1` slots the same run stays consistent, so every READY
      child is in the queue and the first alarm dispatches child 0. */
  lemma CorrectedBootRuns(rs: seq<nat>, evs: seq<Event>, rIo: nat)
    requires |rs| == NProc
    ensures OsInv(Run(Boot(rs), evs))
    ensures Tick(Boot(rs), false, rIo).running == 0
  {
    BootSpec(rs);
    RunKeepsInv(Boot(rs), evs);
    BootFirstTick(rs, rIo);
  }
}
