/** `child_done_handler` as written in hw03/hw03.c marks a READY process
    DONE but leaves its index in the ready queue; `schedule` then pops that
    index and runs a finished process. */
module Hw03Findings {
  import opened Collections
  import opened RingBuffer
  import opened Hw03
  import opened Hw03Proofs
  import opened Hw03History

  /** A SIGCHLD for the process at the head of the queue, followed by one
      for the running process, dispatches the finished one: it is RUNNING
      again and the DONE counter now exceeds the number of DONE records. */
  lemma ReadyVictimRedispatched(k: Kernel)
    requires Inv(k) && k.current != -1 && Contents(k.ready) != []
    ensures var i := Contents(k.ready)[0];
            var r := ChildDoneAsWritten(ChildDoneAsWritten(k, i), k.current);
            && r.current == i
            && r.pcb[i].state == Running
            && r.doneCount == Count(States(r.pcb), Done) + 1
            && r.pcb[i].creationTime == k.pcb[i].creationTime
            && (k.pcb[i].firstRunTime == -1 ==> r.pcb[i].firstRunTime == k.timerTick)
  {
    var i := Contents(k.ready)[0];
    var c := k.current;
    assert i in Contents(k.ready);
    var p := k.pcb[i].(state := Done, completionTime := k.timerTick);
    var k1 := k.(pcb := k.pcb[i := p], doneCount := k.doneCount + 1);
    assert ChildDoneAsWritten(k, i) == k1;
    DoneCountUpdate(k.pcb, i, p);
    var p' := k1.pcb[c].(state := Done, completionTime := k1.timerTick);
    var k2 := k1.(pcb := k1.pcb[c := p'], doneCount := k1.doneCount + 1, current := -1);
    assert ChildDoneAsWritten(k1, c) == Schedule(k2);
    DoneCountUpdate(k1.pcb, c, p');
    var r := Schedule(k2);
    assert Contents(k2.ready) == Contents(k.ready);
    DoneCountUpdate(k2.pcb, i, r.pcb[i]);
  }

  /** The same thing from the very start: child 1 is killed while it waits,
      child 0 finishes, and child 1 is dispatched. Having never run before
      it was killed, it is stamped as first run at tick 0 and so reports a
      response time of 0 rather than -1. */
  lemma StartRedispatchesChildOne(rs: seq<nat>)
    requires |rs| == NumProcesses
    ensures var r := ChildDoneAsWritten(ChildDoneAsWritten(Start(rs), 1), 0);
            && r.current == 1 && r.pcb[1].state == Running
            && r.doneCount == Count(States(r.pcb), Done) + 1
            && Start(rs).pcb[1].firstRunTime == -1
            && r.pcb[1].firstRunTime == 0 && ResponseTime(r.pcb[1]) == 0
  {
    var k := Start(rs);
    StartSpec(rs);
    assert k.pcb[1] == NewPcb(rs[1]).(waitCount := 1);
    ChildOneRedispatched(k);
  }

  /** The state `Start` reaches, described by its properties. */
  lemma ChildOneRedispatched(k: Kernel)
    requires Inv(k) && k.current == 0 && Contents(k.ready) == seq(NumProcesses - 1, j => j + 1)
    requires k.timerTick == 0 && k.pcb[1].firstRunTime == -1 && k.pcb[1].creationTime == 0
    ensures var r := ChildDoneAsWritten(ChildDoneAsWritten(k, 1), 0);
            && r.current == 1 && r.pcb[1].state == Running
            && r.doneCount == Count(States(r.pcb), Done) + 1
            && r.pcb[1].firstRunTime == 0 && ResponseTime(r.pcb[1]) == 0
  {
    assert Contents(k.ready)[0] == 1;
    ReadyVictimRedispatched(k);
  }

  /** With the corrected handler the same two signals leave both processes
      DONE, nothing DONE running, and the counter exact; the waiting victim
      keeps the first-run time it had when it was killed. */
  lemma ReadyVictimStaysDone(k: Kernel)
    requires Inv(k) && k.current != -1 && Contents(k.ready) != []
    ensures var i := Contents(k.ready)[0];
            var r := ChildDone(ChildDone(k, i), k.current);
            && Inv(r)
            && r.pcb[i].state == Done && r.pcb[k.current].state == Done
            && r.current != i
            && r.pcb[i].firstRunTime == k.pcb[i].firstRunTime
  {
    var i := Contents(k.ready)[0];
    var c := k.current;
    assert i in Contents(k.ready);
    var k1 := ChildDone(k, i);
    ChildDoneKeepsInv(k, i);
    ChildDoneKeepsInv(k1, c);
    assert k1.current == c;
    ChildDoneEvolves(k1, c);
  }
}
