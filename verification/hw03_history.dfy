/** What the hw03/hw03.c scheduler never undoes: a DONE record is frozen,
    a first-run time once stamped stays, accumulated wait only grows; and
    what the final statistics therefore report. */
module Hw03History {
  import opened Collections
  import opened RingBuffer
  import opened Hw03
  import opened Hw03Proofs

  /** How one PCB may change across a handler. */
  predicate Evolves(p: Pcb, p': Pcb) {
    && (p.state == Done ==> p' == p)
    && (p.firstRunTime != -1 ==> p'.firstRunTime == p.firstRunTime)
    && p'.creationTime == p.creationTime
    && p.totalWaitTime <= p'.totalWaitTime
  }

  /** Every PCB of `k` evolves into the same-numbered PCB of `r`. */
  predicate AllEvolve(k: Kernel, r: Kernel)
    requires WellFormed(k) && WellFormed(r)
  {
    forall x :: 0 <= x < NumProcesses ==> Evolves(k.pcb[x], r.pcb[x])
  }

  lemma AllEvolveTrans(a: Kernel, b: Kernel, c: Kernel)
    requires WellFormed(a) && WellFormed(b) && WellFormed(c)
    requires AllEvolve(a, b) && AllEvolve(b, c)
    ensures AllEvolve(a, c)
  {
    forall x | 0 <= x < NumProcesses
      ensures Evolves(a.pcb[x], c.pcb[x])
    {
      assert Evolves(a.pcb[x], b.pcb[x]) && Evolves(b.pcb[x], c.pcb[x]);
    }
  }

  // ---------------------------------------------------------------- phases

  lemma SleepAgingEvolves(k: Kernel)
    requires Inv(k)
    ensures AllEvolve(k, UpdateSleepQueue(k))
  {
    var r := UpdateSleepQueue(k);
    UpdateSleepQueueEffect(k);
    forall x | 0 <= x < NumProcesses
      ensures Evolves(k.pcb[x], r.pcb[x])
    {
      if x in k.sleep {
        assert r.pcb[x] == AfterWait(k.pcb[x], k.timerTick);
      }
    }
  }

  lemma ChargeEvolves(k: Kernel, rChoice: nat, rIo: nat, rBurst: nat)
    requires Inv(k)
    ensures AllEvolve(k, ChargeCurrent(k, rChoice, rIo, rBurst))
  {
    var r := ChargeCurrent(k, rChoice, rIo, rBurst);
    if k.current != -1 && k.pcb[k.current].state == Running {
      var c := k.current;
      forall x | 0 <= x < NumProcesses
        ensures Evolves(k.pcb[x], r.pcb[x])
      {
        if x != c {
          assert r.pcb[x] == k.pcb[x];
        }
      }
    }
  }

  lemma ResetEvolves(k: Kernel)
    requires WellFormed(k)
    ensures AllEvolve(k, ResetWhenSpent(k))
  {
  }

  /** Dispatch touches only a READY process, and charges it a non-negative wait. */
  lemma ScheduleEvolves(k: Kernel)
    requires Inv(k)
    ensures AllEvolve(k, Schedule(k))
  {
    var r := Schedule(k);
    if k.current == -1 && Contents(k.ready) != [] {
      var i := Contents(k.ready)[0];
      assert i in Contents(k.ready);
      assert Bookkeeping(k.pcb[i], k.timerTick);
      forall x | 0 <= x < NumProcesses
        ensures Evolves(k.pcb[x], r.pcb[x])
      {
        if x != i {
          assert r.pcb[x] == k.pcb[x];
        }
      }
    }
  }

  // -------------------------------------------------------------- handlers

  /** Across a timer tick no DONE record changes, no first-run time is
      restamped and no accumulated wait shrinks. */
  lemma TimerHandlerEvolves(k: Kernel, rChoice: nat, rIo: nat, rBurst: nat)
    requires Inv(k) && !k.exited
    ensures AllEvolve(k, TimerHandler(k, rChoice, rIo, rBurst))
  {
    var k0 := k.(timerTick := k.timerTick + 1);
    var k1 := UpdateSleepQueue(k0);
    var k2 := ChargeCurrent(k1, rChoice, rIo, rBurst);
    var k3 := ResetWhenSpent(k2);
    ClockKeepsInv(k);
    assert AllEvolve(k, k0);
    UpdateSleepQueueKeepsInv(k0);
    SleepAgingEvolves(k0);
    AllEvolveTrans(k, k0, k1);
    ChargeCurrentKeepsInv(k1, rChoice, rIo, rBurst);
    ChargeEvolves(k1, rChoice, rIo, rBurst);
    AllEvolveTrans(k, k1, k2);
    ResetWhenSpentKeepsInv(k2);
    ResetEvolves(k2);
    AllEvolveTrans(k, k2, k3);
    ScheduleEvolves(k3);
    AllEvolveTrans(k, k3, Schedule(k3));
    TimerHandlerPhases(k, rChoice, rIo, rBurst);
  }

  /** The same across a SIGCHLD, for every process but the one that ends. */
  lemma ChildDoneEvolves(k: Kernel, i: int)
    requires Inv(k) && 0 <= i < NumProcesses
    ensures var r := ChildDone(k, i);
            forall x :: 0 <= x < NumProcesses && x != i ==> Evolves(k.pcb[x], r.pcb[x])
    ensures var r := ChildDone(k, i);
            && (k.pcb[i].firstRunTime != -1 ==> r.pcb[i].firstRunTime == k.pcb[i].firstRunTime)
            && r.pcb[i].totalWaitTime == k.pcb[i].totalWaitTime
  {
    if k.pcb[i].state != Done {
      var k1 := MarkDone(k, i);
      MarkDoneKeepsInv(k, i, k1);
      if k.current == i {
        ScheduleEvolves(k1);
        MarkedThenEvolved(k, i, k1, Schedule(k1));
      } else {
        MarkedThenEvolved(k, i, k1, k1);
      }
    }
  }

  /** Marking `i` DONE and then letting every PCB evolve changes no other
      PCB except by evolving it, and keeps `i`'s first-run time and wait. */
  lemma MarkedThenEvolved(k: Kernel, i: int, k1: Kernel, r: Kernel)
    requires WellFormed(k) && WellFormed(k1) && WellFormed(r) && 0 <= i < NumProcesses
    requires k1.pcb == k.pcb[i := k.pcb[i].(state := Done, completionTime := k.timerTick)]
    requires AllEvolve(k1, r)
    ensures forall x :: 0 <= x < NumProcesses && x != i ==> Evolves(k.pcb[x], r.pcb[x])
    ensures k.pcb[i].firstRunTime != -1 ==> r.pcb[i].firstRunTime == k.pcb[i].firstRunTime
    ensures r.pcb[i].totalWaitTime == k.pcb[i].totalWaitTime
  {
    assert Evolves(k1.pcb[i], r.pcb[i]);
    forall x | 0 <= x < NumProcesses && x != i
      ensures Evolves(k.pcb[x], r.pcb[x])
    {
      assert k1.pcb[x] == k.pcb[x];
      assert Evolves(k1.pcb[x], r.pcb[x]);
    }
  }

  // ------------------------------------------------------------------ exit

  /** The controller only exits when every process is DONE. */
  lemma ExitMeansAllDone(k: Kernel)
    requires Inv(k) && k.exited
    ensures forall j :: 0 <= j < NumProcesses ==> k.pcb[j].state == Done
  {
    assert Count(States(k.pcb), Done) == |States(k.pcb)|;
    assert forall j :: 0 <= j < NumProcesses ==> States(k.pcb)[j] == k.pcb[j].state;
  }

  /** Conversely, once every process is DONE the next `schedule` exits. */
  lemma AllDoneExits(k: Kernel)
    requires Inv(k)
    requires forall j :: 0 <= j < NumProcesses ==> k.pcb[j].state == Done
    ensures Schedule(k).exited
  {
    assert forall j :: 0 <= j < |States(k.pcb)| ==> States(k.pcb)[j] == Done;
  }

  // ------------------------------------------------------------ statistics

  /** For a finished process that ran, `print_statistics` prints
      0 <= response <= wait <= turnaround. */
  lemma StatisticsOrdered(k: Kernel, j: int)
    requires Inv(k) && 0 <= j < NumProcesses
    requires k.pcb[j].state == Done && k.pcb[j].firstRunTime != -1
    ensures 0 <= ResponseTime(k.pcb[j]) <= k.pcb[j].totalWaitTime <= TurnaroundTime(k.pcb[j])
  {
    assert Bookkeeping(k.pcb[j], k.timerTick);
  }

  /** The column totals keep the same order, so do the averages. */
  lemma {:induction false} TotalsOrdered(ps: seq<Pcb>, now: int, i: nat)
    requires i <= |ps|
    requires forall j :: i <= j < |ps| ==>
               Bookkeeping(ps[j], now) && ps[j].state == Done && ps[j].firstRunTime != -1
    ensures var t := SumFrom(ps, i);
            0 <= t.response <= t.wait <= t.turnaround
    decreases |ps| - i
  {
    if i < |ps| {
      TotalsOrdered(ps, now, i + 1);
    }
  }
}
