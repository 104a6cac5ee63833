/** Invariants of the hw03/osScheduling.c scheduler with a ring large enough
    for every process, and the proofs that every handler keeps them. */
module OsSchedulingProofs {
  import opened Collections
  import opened RingBuffer
  import opened OsScheduling

  /** The ready queue holds exactly the READY processes, each once; `running`
      is the one RUNNING process or -1; the two counters count SLEEP and DONE
      records. */
  predicate OsInv(m: Machine) {
    && WellFormed(m)
    && |m.ready.buf| == NProc + 1
    && Distinct(Contents(m.ready))
    && (forall x :: x in Contents(m.ready) ==> m.pcb[x].state == Ready && x != m.running)
    && (m.running != -1 ==> m.pcb[m.running].state == Running)
    && (forall i :: 0 <= i < NProc ==>
          && (m.pcb[i].state == Ready ==> i in Contents(m.ready))
          && (m.pcb[i].state == Running ==> i == m.running))
    && m.sleepCnt == Count(States(m.pcb), Sleep)
    && m.doneCnt == Count(States(m.pcb), Done)
  }

  lemma StatesUpdate(ps: seq<OsPcb>, i: int, p: OsPcb)
    requires 0 <= i < |ps|
    ensures States(ps[i := p]) == States(ps)[i := p.state]
  {
  }

  /** Changing one record moves a counter only if that record's membership
      in the counted state changes. */
  lemma CountersUpdate(ps: seq<OsPcb>, i: int, p: OsPcb, v: State)
    requires 0 <= i < |ps|
    ensures Count(States(ps[i := p]), v)
            == Count(States(ps), v) - (if ps[i].state == v then 1 else 0) + (if p.state == v then 1 else 0)
  {
    StatesUpdate(ps, i, p);
    CountUpdate(States(ps), i, p.state, v);
  }

  /** A process outside the ready queue still fits in it: the queue holds
      distinct indices below `NPROC`, so at most `NPROC - 1` others. */
  lemma Room(m: Machine, i: int)
    requires OsInv(m) && 0 <= i < NProc && i !in Contents(m.ready)
    ensures Size(m.ready) + 1 < |m.ready.buf|
  {
    var q := Contents(m.ready);
    DistinctAppend(q, i);
    DistinctBound(q + [i], NProc);
  }

  // ----------------------------------------------------------------- aging

  /** Every transition of this scheduler rewrites one record `i` and moves
      only `i` into or out of the ready queue and the running slot. Such a
      transition keeps the invariant as long as `i` ends up where its new
      state says and the counters follow its state. */
  lemma OneRecordKeepsInv(m: Machine, r: Machine, i: int)
    requires OsInv(m) && WellFormed(r) && |r.ready.buf| == NProc + 1 && 0 <= i < NProc
    requires forall x :: 0 <= x < NProc && x != i ==> r.pcb[x] == m.pcb[x]
    requires Distinct(Contents(r.ready))
    requires forall x :: x in Contents(r.ready) <==>
               (x in Contents(m.ready) && x != i) || (x == i && r.pcb[i].state == Ready)
    requires r.pcb[i].state == Running ==> m.running == -1 || m.running == i
    requires r.running == if r.pcb[i].state == Running then i else if m.running == i then -1 else m.running
    requires r.sleepCnt == m.sleepCnt - (if m.pcb[i].state == Sleep then 1 else 0)
                                      + (if r.pcb[i].state == Sleep then 1 else 0)
    requires r.doneCnt == m.doneCnt - (if m.pcb[i].state == Done then 1 else 0)
                                    + (if r.pcb[i].state == Done then 1 else 0)
    ensures OsInv(r)
  {
    assert r.pcb == m.pcb[i := r.pcb[i]];
    CountersUpdate(m.pcb, i, r.pcb[i], Sleep);
    CountersUpdate(m.pcb, i, r.pcb[i], Done);
    forall x | 0 <= x < NProc
      ensures r.pcb[x].state == Ready ==> x in Contents(r.ready)
      ensures r.pcb[x].state == Running ==> x == r.running
    {
      if x != i {
        assert r.pcb[x] == m.pcb[x];
      }
    }
  }

  lemma AgeOneKeepsInv(m: Machine, i: int)
    requires OsInv(m) && 0 <= i < NProc
    ensures OsInv(AgeOne(m, i))
  {
    var r := AgeOne(m, i);
    var p := m.pcb[i];
    if p.state == Sleep {
      var q := Contents(m.ready);
      assert i !in q;
      if p.ioWait - 1 <= 0 {
        Room(m, i);
        DistinctAppend(q, i);
        assert Contents(r.ready) == q + [i];
      }
      OneRecordKeepsInv(m, r, i);
    }
  }

  lemma {:induction false} AgeFromKeepsInv(m: Machine, i: nat)
    requires OsInv(m) && i <= NProc
    ensures OsInv(AgeFrom(m, i))
    decreases NProc - i
  {
    if i < NProc {
      AgeOneKeepsInv(m, i);
      AgeFromKeepsInv(AgeOne(m, i), i + 1);
    }
  }

  /** What one tick of waiting does to one record. */
  function Aged(p: OsPcb): OsPcb {
    if p.state != Sleep then p
    else if p.ioWait - 1 <= 0 then p.(ioWait := p.ioWait - 1, state := Ready)
    else p.(ioWait := p.ioWait - 1)
  }

  /** The processes from `i` on whose wait runs out on this tick, in index order. */
  function Waking(ps: seq<OsPcb>, i: nat): (ws: seq<int>)
    requires i <= |ps|
    ensures forall x :: x in ws <==> i <= x < |ps| && ps[x].state == Sleep && ps[x].ioWait - 1 <= 0
    ensures Distinct(ws)
    decreases |ps| - i
  {
    if i == |ps| then []
    else
      var rest := Waking(ps, i + 1);
      DistinctConcat([i], rest);
      (if ps[i].state == Sleep && ps[i].ioWait - 1 <= 0 then [i] else []) + rest
  }

  lemma {:induction false} WakingFrame(ps: seq<OsPcb>, ps': seq<OsPcb>, i: nat)
    requires i <= |ps| == |ps'|
    requires forall j :: i <= j < |ps| ==> ps[j] == ps'[j]
    ensures Waking(ps, i) == Waking(ps', i)
    decreases |ps| - i
  {
    if i < |ps| {
      WakingFrame(ps, ps', i + 1);
      var head := if ps[i].state == Sleep && ps[i].ioWait - 1 <= 0 then [i] else [];
      assert Waking(ps, i) == head + Waking(ps, i + 1);
      assert Waking(ps', i) == head + Waking(ps', i + 1) by {
        assert ps'[i] == ps[i];
      }
    }
  }

  /** What the aging loop from `i` achieves: every record from `i` on aged
      exactly once, the earlier ones left alone, the expiring sleepers pushed
      onto the ready queue in index order and taken off the sleep count. */
  ghost predicate AgedFrom(m: Machine, i: nat, r: Machine)
    requires WellFormed(m) && WellFormed(r) && i <= NProc
  {
    && (forall j :: 0 <= j < i ==> r.pcb[j] == m.pcb[j])
    && (forall j :: i <= j < NProc ==> r.pcb[j] == Aged(m.pcb[j]))
    && r.ready == PushAll(m.ready, Waking(m.pcb, i))
    && r.sleepCnt == m.sleepCnt - |Waking(m.pcb, i)|
  }

  lemma {:induction false} AgeFromEffect(m: Machine, i: nat)
    requires WellFormed(m) && i <= NProc
    ensures AgedFrom(m, i, AgeFrom(m, i))
    decreases NProc - i
  {
    if i < NProc {
      var m1 := AgeOne(m, i);
      assert AgeFrom(m, i) == AgeFrom(m1, i + 1);
      AgeFromEffect(m1, i + 1);
      AgeOneStep(m, i);
      AgeCombine(m, m1, AgeFrom(m1, i + 1), i);
    }
  }

  /** One iteration of the aging loop in the terms `AgeCombine` uses. */
  lemma AgeOneStep(m: Machine, i: nat)
    requires WellFormed(m) && i < NProc
    ensures var m1 := AgeOne(m, i);
            && m1.pcb == m.pcb[i := Aged(m.pcb[i])]
            && (m.pcb[i].state == Sleep && m.pcb[i].ioWait - 1 <= 0 ==>
                  m1.ready == Push(m.ready, i) && m1.sleepCnt == m.sleepCnt - 1)
            && (!(m.pcb[i].state == Sleep && m.pcb[i].ioWait - 1 <= 0) ==>
                  m1.ready == m.ready && m1.sleepCnt == m.sleepCnt)
  {
    if m.pcb[i].state != Sleep {
      assert m.pcb[i := Aged(m.pcb[i])] == m.pcb;
    }
  }

  /** One iteration of the aging loop followed by the rest of it. */
  lemma AgeCombine(m: Machine, m1: Machine, r: Machine, i: nat)
    requires WellFormed(m) && WellFormed(m1) && WellFormed(r) && i < NProc
    requires m1.pcb == m.pcb[i := Aged(m.pcb[i])]
    requires m.pcb[i].state == Sleep && m.pcb[i].ioWait - 1 <= 0 ==>
               m1.ready == Push(m.ready, i) && m1.sleepCnt == m.sleepCnt - 1
    requires !(m.pcb[i].state == Sleep && m.pcb[i].ioWait - 1 <= 0) ==>
               m1.ready == m.ready && m1.sleepCnt == m.sleepCnt
    requires AgedFrom(m1, i + 1, r)
    ensures AgedFrom(m, i, r)
  {
    assert Waking(m.pcb, i + 1) == Waking(m1.pcb, i + 1) by {
      WakingFrame(m.pcb, m1.pcb, i + 1);
    }
    if m.pcb[i].state == Sleep && m.pcb[i].ioWait - 1 <= 0 {
      assert Waking(m.pcb, i) == [i] + Waking(m.pcb, i + 1);
      PushAllCons(m.ready, i, Waking(m.pcb, i + 1));
    } else {
      assert Waking(m.pcb, i) == Waking(m.pcb, i + 1);
    }
    forall j | 0 <= j <= i
      ensures r.pcb[j] == m1.pcb[j]
    {
    }
  }

  /** Two duplicate-free, disjoint lists of indices below `n` fit together
      in `n` places. */
  lemma DisjointFit(q: seq<int>, w: seq<int>, n: nat)
    requires Distinct(q) && Distinct(w) && InRange(q, n) && InRange(w, n)
    requires forall x :: x in q ==> x !in w
    ensures Distinct(q + w) && |q| + |w| <= n
  {
    DistinctConcat(q, w);
    DistinctBound(q + w, n);
  }

  /** The aging loop of a tick on a consistent machine: every record aged
      once, the expiring sleepers appended to the ready queue in index
      order. */
  lemma AgeEffect(m: Machine)
    requires OsInv(m)
    ensures var r := Age(m);
            && (forall j :: 0 <= j < NProc ==> r.pcb[j] == Aged(m.pcb[j]))
            && Contents(r.ready) == Contents(m.ready) + Waking(m.pcb, 0)
            && r.sleepCnt == m.sleepCnt - |Waking(m.pcb, 0)|
            && r.running == m.running && r.ioRequest == m.ioRequest && r.doneCnt == m.doneCnt
  {
    AgeFromEffect(m, 0);
    var q := Contents(m.ready);
    var w := Waking(m.pcb, 0);
    assert |q| == Size(m.ready);
    forall x | x in q
      ensures x !in w
    {
      assert m.pcb[x].state == Ready;
    }
    DisjointFit(q, w, NProc);
  }

  // ---------------------------------------------------------- other phases

  lemma DispatchKeepsInv(m: Machine)
    requires OsInv(m)
    ensures OsInv(Dispatch(m))
  {
    var r := Dispatch(m);
    var q := Contents(m.ready);
    if m.running == -1 && q != [] {
      var i := q[0];
      assert i in q;
      TailMembers(q);
      OneRecordKeepsInv(m, r, i);
    }
  }

  lemma ChargeKeepsInv(m: Machine, exited: bool, rIo: nat)
    requires OsInv(m)
    ensures OsInv(Charge(m, exited, rIo))
  {
    var r := Charge(m, exited, rIo);
    if m.running != -1 {
      var c := m.running;
      var q := Contents(m.ready);
      assert c !in q;
      if !m.ioRequest && !exited && m.pcb[c].timeQuantum - 1 <= 0 {
        Room(m, c);
        DistinctAppend(q, c);
        assert Contents(r.ready) == q + [c];
      }
      OneRecordKeepsInv(m, r, c);
    }
  }

  lemma ResetKeepsInv(m: Machine)
    requires OsInv(m)
    ensures OsInv(ResetWhenSpent(m))
  {
    var r := ResetWhenSpent(m);
    assert forall j :: 0 <= j < NProc ==> r.pcb[j].state == m.pcb[j].state;
    assert States(r.pcb) == States(m.pcb);
  }

  /** Every tick keeps the machine consistent, whatever the worker reports. */
  lemma TickKeepsInv(m: Machine, exited: bool, rIo: nat)
    requires OsInv(m)
    ensures OsInv(Tick(m, exited, rIo))
  {
    AgeFromKeepsInv(m, 0);
    DispatchKeepsInv(Age(m));
    ChargeKeepsInv(Dispatch(Age(m)), exited, rIo);
    ResetKeepsInv(Charge(Dispatch(Age(m)), exited, rIo));
  }

  /** Any run of signals keeps the machine consistent. */
  lemma {:induction false} RunKeepsInv(m: Machine, evs: seq<Event>)
    requires OsInv(m)
    ensures OsInv(Run(m, evs))
    decreases |evs|
  {
    if evs != [] {
      match evs[0]
      case Alarm(exited, rIo) =>
        TickKeepsInv(m, exited, rIo);
        RunKeepsInv(Tick(m, exited, rIo), evs[1..]);
      case Usr2 =>
        RunKeepsInv(IoSignal(m), evs[1..]);
    }
  }

  /** Ageing skips a DONE record. */
  lemma AgeKeepsDone(m: Machine, j: int)
    requires OsInv(m) && 0 <= j < NProc && m.pcb[j].state == Done
    ensures OsInv(Age(m)) && Age(m).pcb[j] == m.pcb[j]
  {
    AgeEffect(m);
    AgeFromKeepsInv(m, 0);
  }

  /** Dispatch only touches the head of the queue, which is READY. */
  lemma DispatchKeepsDone(m: Machine, j: int)
    requires OsInv(m) && 0 <= j < NProc && m.pcb[j].state == Done
    ensures OsInv(Dispatch(m)) && Dispatch(m).pcb[j] == m.pcb[j]
  {
    DispatchKeepsInv(m);
    if m.running == -1 && Contents(m.ready) != [] {
      assert Contents(m.ready)[0] in Contents(m.ready);
    }
  }

  /** Charging only touches the RUNNING process. */
  lemma ChargeKeepsDone(m: Machine, exited: bool, rIo: nat, j: int)
    requires OsInv(m) && 0 <= j < NProc && m.pcb[j].state == Done
    ensures OsInv(Charge(m, exited, rIo)) && Charge(m, exited, rIo).pcb[j] == m.pcb[j]
  {
    ChargeKeepsInv(m, exited, rIo);
    assert m.running != j;
  }

  /** A DONE record is final: no tick changes it, whatever the worker
      reports. */
  lemma TickKeepsDone(m: Machine, exited: bool, rIo: nat, j: int)
    requires OsInv(m) && 0 <= j < NProc && m.pcb[j].state == Done
    ensures Tick(m, exited, rIo).pcb[j] == m.pcb[j]
  {
    var a := Age(m);
    AgeKeepsDone(m, j);
    var d := Dispatch(a);
    DispatchKeepsDone(a, j);
    var c := Charge(d, exited, rIo);
    ChargeKeepsDone(d, exited, rIo, j);
    assert Tick(m, exited, rIo) == ResetWhenSpent(c);
  }

  /** Hence no sequence of signals changes a DONE record. */
  lemma {:induction false} RunKeepsDone(m: Machine, evs: seq<Event>, j: int)
    requires OsInv(m) && 0 <= j < NProc && m.pcb[j].state == Done
    ensures Run(m, evs).pcb[j] == m.pcb[j]
    decreases |evs|
  {
    if evs != [] {
      match evs[0]
      case Alarm(exited, rIo) =>
        TickKeepsInv(m, exited, rIo);
        TickKeepsDone(m, exited, rIo, j);
        RunKeepsDone(Tick(m, exited, rIo), evs[1..], j);
      case Usr2 =>
        RunKeepsDone(IoSignal(m), evs[1..], j);
    }
  }

  // ---------------------------------------------------------------- SIGUSR2

  /** Ageing neither reads nor writes the I/O request. */
  lemma {:induction false} AgeFromRaised(m: Machine, i: nat)
    requires WellFormed(m) && i <= NProc
    ensures AgeFrom(m.(ioRequest := true), i) == AgeFrom(m, i).(ioRequest := true)
    decreases NProc - i
  {
    if i < NProc {
      assert AgeOne(m.(ioRequest := true), i) == AgeOne(m, i).(ioRequest := true);
      AgeFromRaised(AgeOne(m, i), i + 1);
    }
  }

  /** Nor does dispatch. */
  lemma DispatchRaised(m: Machine)
    requires WellFormed(m)
    ensures Dispatch(m.(ioRequest := true)) == Dispatch(m).(ioRequest := true)
  {
  }

  /** The charge and reset of a tick with the request raised, after dispatch
      has produced `d`. */
  lemma RaisedCharge(d: Machine, exited: bool, rIo: nat)
    requires WellFormed(d)
    ensures
      var r := ResetWhenSpent(Charge(d.(ioRequest := true), exited, rIo));
      && (d.running != -1 ==>
            && r.pcb[d.running].state == Sleep
            && IoWaitMin <= r.pcb[d.running].ioWait <= IoWaitMax
            && !r.ioRequest && r.running == -1 && r.sleepCnt == d.sleepCnt + 1)
      && (d.running == -1 ==> r == ResetWhenSpent(Charge(d, exited, rIo)).(ioRequest := true))
  {
  }

  /** SIGUSR2 followed by an alarm: the process the tick dispatches or keeps
      on the CPU goes to sleep with a wait in [IO_WAIT_MIN, IO_WAIT_MAX], the
      CPU is freed, the sleep count grows by one and the request is consumed.
      With nothing to run, the request stays pending and the tick is
      otherwise the same as without it. */
  lemma IoSignalThenTick(m: Machine, exited: bool, rIo: nat)
    requires WellFormed(m)
    ensures
      var d := Dispatch(Age(m));
      var r := Tick(IoSignal(m), exited, rIo);
      && (d.running != -1 ==>
            && r.pcb[d.running].state == Sleep
            && IoWaitMin <= r.pcb[d.running].ioWait <= IoWaitMax
            && !r.ioRequest && r.running == -1 && r.sleepCnt == d.sleepCnt + 1)
      && (d.running == -1 ==> r.ioRequest && r == Tick(m, exited, rIo).(ioRequest := true))
  {
    var s := IoSignal(m);
    assert s == m.(ioRequest := true);
    AgeFromRaised(m, 0);
    var a := Age(m);
    DispatchRaised(a);
    var d := Dispatch(a);
    RaisedCharge(d, exited, rIo);
    assert Tick(s, exited, rIo) == ResetWhenSpent(Charge(d.(ioRequest := true), exited, rIo));
    assert Tick(m, exited, rIo) == ResetWhenSpent(Charge(d, exited, rIo));
  }

  // ------------------------------------------------------------------ boot

  /** With one spare slot, the ten pushes of `main` leave every child queued
      once in creation order, and the machine is consistent. */
  lemma BootSpec(rs: seq<nat>)
    requires |rs| == NProc
    ensures var m := Boot(rs);
            && OsInv(m)
            && Contents(m.ready) == seq(NProc, j => j)
            && (forall i :: 0 <= i < NProc ==> m.pcb[i].state == Ready && m.pcb[i].timeQuantum == InitTq)
  {
    var m := Boot(rs);
    var q := Contents(m.ready);
    assert q == seq(NProc, j => j);
    Identity(q, NProc);
    assert Done !in States(m.pcb) && Sleep !in States(m.pcb);
  }

  /** Aging changes nothing while no process sleeps. */
  lemma AgeWithoutSleepers(m: Machine)
    requires WellFormed(m)
    requires forall j :: 0 <= j < NProc ==> m.pcb[j].state != Sleep
    ensures Age(m) == m
  {
    AgeFromEffect(m, 0);
    assert Waking(m.pcb, 0) == [];
    assert Age(m).pcb == m.pcb;
  }

  /** The first alarm after a corrected boot dispatches child 0 and charges
      it one quantum unit; `1, ..., 9` stay queued. */
  lemma BootFirstTick(rs: seq<nat>, rIo: nat)
    requires |rs| == NProc
    ensures var r := Tick(Boot(rs), false, rIo);
            && r.running == 0
            && r.pcb[0] == Init(rs)[0].(state := Running, timeQuantum := InitTq - 1)
            && Contents(r.ready) == seq(NProc - 1, j => j + 1)
  {
    BootSpec(rs);
    FirstTick(Boot(rs), rIo);
  }

  lemma FirstTick(m: Machine, rIo: nat)
    requires WellFormed(m) && m.running == -1 && !m.ioRequest
    requires forall i :: 0 <= i < NProc ==> m.pcb[i].state == Ready && m.pcb[i].timeQuantum == InitTq
    requires Contents(m.ready) == seq(NProc, j => j)
    ensures var r := Tick(m, false, rIo);
            && r.running == 0
            && r.pcb[0] == m.pcb[0].(state := Running, timeQuantum := InitTq - 1)
            && Contents(r.ready) == seq(NProc - 1, j => j + 1)
  {
    AgeWithoutSleepers(m);
    var d := Dispatch(m);
    Identity(Contents(m.ready), NProc);
    assert d.running == 0 && d.pcb[0] == m.pcb[0].(state := Running);
    var c := Charge(d, false, rIo);
    assert c.pcb[0] == m.pcb[0].(state := Running, timeQuantum := InitTq - 1);
    assert !AllTqZero(c.pcb);
  }
}
