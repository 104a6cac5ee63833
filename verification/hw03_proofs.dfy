/** Invariants of the hw03/hw03.c scheduler and the proofs that every
    handler keeps them. */
module Hw03Proofs {
  import opened Collections
  import opened RingBuffer
  import opened Hw03

  /** Where each process is. The ready queue holds exactly the READY
      processes, each once. The sleep list holds every SLEEPING process,
      each once, plus DONE processes not yet purged. `current` is the one
      RUNNING process or -1. No process is in two of these places. */
  predicate Placement(k: Kernel)
    requires WellFormed(k)
  {
    var q := Contents(k.ready);
    && Distinct(q)
    && Distinct(k.sleep)
    && (forall x :: x in q ==> x !in k.sleep && x != k.current && k.pcb[x].state == Ready)
    && (forall x :: x in k.sleep ==> x != k.current && (k.pcb[x].state == Sleeping || k.pcb[x].state == Done))
    && (k.current != -1 ==> k.pcb[k.current].state == Running)
    && (forall i :: 0 <= i < NumProcesses ==>
          && (k.pcb[i].state == Ready ==> i in q)
          && (k.pcb[i].state == Sleeping ==> i in k.sleep)
          && (k.pcb[i].state == Running ==> i == k.current))
  }

  /** The timing fields of one PCB at time `now`. The accumulated wait never
      exceeds the time the process has existed outside its current READY
      stint; it already covers the first wait, which is the response time. */
  predicate Bookkeeping(p: Pcb, now: int) {
    && p.creationTime == 0
    && 0 <= p.readyEnterTime <= now
    && 1 <= p.waitCount
    && 0 <= p.totalWaitTime
    && (p.firstRunTime == -1 ==>
          p.totalWaitTime == 0 && p.readyEnterTime == 0 && (p.state == Ready || p.state == Done))
    && (p.firstRunTime != -1 ==>
          0 <= p.firstRunTime <= now && p.firstRunTime - p.creationTime <= p.totalWaitTime)
    && (p.state == Ready ==> p.totalWaitTime <= p.readyEnterTime - p.creationTime)
    && (p.state == Running || p.state == Sleeping ==> p.totalWaitTime <= now - p.creationTime)
    && (p.state == Done ==>
          && 0 <= p.completionTime <= now
          && p.totalWaitTime <= p.completionTime - p.creationTime
          && (p.firstRunTime != -1 ==> p.firstRunTime <= p.completionTime))
  }

  predicate Inv(k: Kernel) {
    && WellFormed(k)
    && Placement(k)
    && k.doneCount == Count(States(k.pcb), Done)
    && 0 <= k.timerTick
    && (forall i :: 0 <= i < NumProcesses ==> Bookkeeping(k.pcb[i], k.timerTick))
    && (k.exited ==> k.doneCount >= NumProcesses)
  }

  // --------------------------------------------------------------- helpers

  lemma StatesUpdate(ps: seq<Pcb>, i: int, p: Pcb)
    requires 0 <= i < |ps|
    ensures States(ps[i := p]) == States(ps)[i := p.state]
  {
  }

  /** Changing one PCB moves the number of DONE processes only if its DONE-ness changes. */
  lemma DoneCountUpdate(ps: seq<Pcb>, i: int, p: Pcb)
    requires 0 <= i < |ps|
    ensures Count(States(ps[i := p]), Done)
            == Count(States(ps), Done) - (if ps[i].state == Done then 1 else 0) + (if p.state == Done then 1 else 0)
  {
    StatesUpdate(ps, i, p);
    CountUpdate(States(ps), i, p.state, Done);
  }

  /** Every process occupies at most one place, so the three places together
      hold at most `NumProcesses` entries: the eleven-slot ring never fills
      and the ten-slot sleep array never overflows. */
  lemma Occupancy(k: Kernel)
    requires WellFormed(k) && Placement(k)
    ensures Size(k.ready) + |k.sleep| + (if k.current == -1 then 0 else 1) <= NumProcesses
  {
    var q := Contents(k.ready);
    var cur := if k.current == -1 then [] else [k.current];
    DistinctConcat(q, k.sleep);
    DistinctConcat(q + k.sleep, cur);
    DistinctBound(q + k.sleep + cur, NumProcesses);
  }

  lemma BookkeepingLater(p: Pcb, now: int, later: int)
    requires Bookkeeping(p, now) && now <= later
    ensures Bookkeeping(p, later)
  {
  }

  // ---------------------------------------------------------------- phases

  lemma ClockKeepsInv(k: Kernel)
    requires Inv(k)
    ensures Inv(k.(timerTick := k.timerTick + 1))
  {
    var k' := k.(timerTick := k.timerTick + 1);
    forall i | 0 <= i < NumProcesses
      ensures Bookkeeping(k'.pcb[i], k'.timerTick)
    {
      BookkeepingLater(k.pcb[i], k.timerTick, k'.timerTick);
    }
  }

  lemma ResetKeepsInv(k: Kernel)
    requires Inv(k)
    ensures Inv(k.(pcb := ResetAllQuantum(k.pcb)))
  {
    var r := k.(pcb := ResetAllQuantum(k.pcb));
    forall x | 0 <= x < NumProcesses
      ensures r.pcb[x].state == k.pcb[x].state && Bookkeeping(r.pcb[x], r.timerTick)
    {
    }
    SameStatesKeepsInv(k, r);
  }

  /** Changes to PCB fields that neither move a process nor break its
      timing bookkeeping keep the kernel consistent. */
  lemma SameStatesKeepsInv(k: Kernel, r: Kernel)
    requires Inv(k) && WellFormed(r) && r == k.(pcb := r.pcb)
    requires forall x :: 0 <= x < NumProcesses ==> r.pcb[x].state == k.pcb[x].state
    requires forall x :: 0 <= x < NumProcesses ==> Bookkeeping(r.pcb[x], r.timerTick)
    ensures Inv(r)
  {
    assert States(r.pcb) == States(k.pcb);
    var q := Contents(k.ready);
    assert Placement(r) by {
      forall x | x in q
        ensures r.pcb[x].state == Ready
      {
      }
      forall x | x in r.sleep
        ensures r.pcb[x].state == Sleeping || r.pcb[x].state == Done
      {
      }
    }
  }

  lemma ScheduleKeepsInv(k: Kernel)
    requires Inv(k)
    ensures Inv(Schedule(k))
  {
    if k.current == -1 && Contents(k.ready) != [] {
      DispatchKeepsInv(k);
    }
  }

  lemma DispatchKeepsInv(k: Kernel)
    requires Inv(k) && k.current == -1 && Contents(k.ready) != []
    ensures Inv(Schedule(k))
  {
    var r := Schedule(k);
    var i := Contents(k.ready)[0];
    assert i in Contents(k.ready);
    DoneCountUpdate(k.pcb, i, r.pcb[i]);
    forall x | 0 <= x < NumProcesses
      ensures Bookkeeping(r.pcb[x], r.timerTick)
    {
      if x != i {
        assert r.pcb[x] == k.pcb[x];
      }
    }
    DispatchPlacement(k, r);
  }

  /** The placement half of `DispatchKeepsInv`: the head of the ready queue
      moves to the CPU. */
  lemma DispatchPlacement(k: Kernel, r: Kernel)
    requires WellFormed(k) && Placement(k) && k.current == -1 && Contents(k.ready) != []
    requires WellFormed(r) && r.sleep == k.sleep
    requires r.current == Contents(k.ready)[0]
    requires Contents(r.ready) == Contents(k.ready)[1..]
    requires r.pcb == k.pcb[r.current := r.pcb[r.current]] && r.pcb[r.current].state == Running
    ensures Placement(r)
  {
    var q := Contents(k.ready);
    var i := q[0];
    assert i in q;
    TailMembers(q);
    forall x | x in q[1..]
      ensures x !in r.sleep && x != r.current && r.pcb[x].state == Ready
    {
      assert x in q && x != i;
    }
    forall x | x in r.sleep
      ensures x != r.current && (r.pcb[x].state == Sleeping || r.pcb[x].state == Done)
    {
      assert x != i;
    }
    forall x | 0 <= x < NumProcesses
      ensures r.pcb[x].state == Ready ==> x in q[1..]
      ensures r.pcb[x].state == Sleeping ==> x in r.sleep
      ensures r.pcb[x].state == Running ==> x == r.current
    {
      if x != i {
        assert r.pcb[x] == k.pcb[x];
      }
    }
  }

  lemma ChargeKeepsInv(k: Kernel, rChoice: nat, rIo: nat, rBurst: nat)
    requires Inv(k) && k.current != -1
    ensures k.pcb[k.current].state == Running
    ensures Inv(ChargeRunning(k, rChoice, rIo, rBurst))
  {
    var p := k.pcb[k.current];
    if p.cpuBurst - 1 <= 0 && rChoice % 2 == 0 {
      ChargeTerminateKeepsInv(k, rChoice, rIo, rBurst);
    } else if p.cpuBurst - 1 <= 0 {
      ChargeSleepKeepsInv(k, rChoice, rIo, rBurst);
    } else if p.quantum - 1 <= 0 {
      ChargePreemptKeepsInv(k, rChoice, rIo, rBurst);
    } else {
      ChargeContinueKeepsInv(k, rChoice, rIo, rBurst);
    }
  }

  lemma ChargeTerminateKeepsInv(k: Kernel, rChoice: nat, rIo: nat, rBurst: nat)
    requires Inv(k) && k.current != -1
    requires k.pcb[k.current].cpuBurst - 1 <= 0 && rChoice % 2 == 0
    ensures Inv(ChargeRunning(k, rChoice, rIo, rBurst))
  {
    var r := ChargeRunning(k, rChoice, rIo, rBurst);
    var c := k.current;
    DoneCountUpdate(k.pcb, c, r.pcb[c]);
    LeaveCpuKeepsInv(k, r);
  }

  lemma ChargeSleepKeepsInv(k: Kernel, rChoice: nat, rIo: nat, rBurst: nat)
    requires Inv(k) && k.current != -1
    requires k.pcb[k.current].cpuBurst - 1 <= 0 && rChoice % 2 == 1
    ensures Inv(ChargeRunning(k, rChoice, rIo, rBurst))
  {
    var r := ChargeRunning(k, rChoice, rIo, rBurst);
    var c := k.current;
    DoneCountUpdate(k.pcb, c, r.pcb[c]);
    LeaveCpuKeepsInv(k, r);
  }

  lemma ChargePreemptKeepsInv(k: Kernel, rChoice: nat, rIo: nat, rBurst: nat)
    requires Inv(k) && k.current != -1
    requires k.pcb[k.current].cpuBurst - 1 > 0 && k.pcb[k.current].quantum - 1 <= 0
    ensures Inv(ChargeRunning(k, rChoice, rIo, rBurst))
  {
    var r := ChargeRunning(k, rChoice, rIo, rBurst);
    var c := k.current;
    Occupancy(k);
    assert r.pcb == k.pcb[c := r.pcb[c]];
    DoneCountUpdate(k.pcb, c, r.pcb[c]);
    LeaveCpuKeepsInv(k, r);
  }

  /** Appending an entry that is not yet there, or nothing. */
  lemma AppendMaybe(xs: seq<int>, ys: seq<int>, x: int, b: bool)
    requires Distinct(xs) && x !in xs
    requires ys == xs + (if b then [x] else [])
    ensures Distinct(ys)
    ensures forall y :: y in ys <==> y in xs || (b && y == x)
  {
    DistinctAppend(xs, x);
  }

  /** The running process gives up the CPU and lands in exactly one place:
      DONE (nowhere), the rear of the sleep list, or the rear of the ready
      queue; no other PCB changes. */
  lemma LeaveCpuKeepsInv(k: Kernel, r: Kernel)
    requires Inv(k) && k.current != -1 && WellFormed(r)
    requires r.pcb == k.pcb[k.current := r.pcb[k.current]]
    requires r.current == -1 && r.timerTick == k.timerTick && r.exited == k.exited
    requires r.doneCount == Count(States(r.pcb), Done)
    requires Bookkeeping(r.pcb[k.current], r.timerTick)
    requires r.pcb[k.current].state == Done || r.pcb[k.current].state == Sleeping || r.pcb[k.current].state == Ready
    requires r.sleep == k.sleep + (if r.pcb[k.current].state == Sleeping then [k.current] else [])
    requires Contents(r.ready) == Contents(k.ready) + (if r.pcb[k.current].state == Ready then [k.current] else [])
    ensures Inv(r)
  {
    var c := k.current;
    var s := r.pcb[c].state;
    var q := Contents(k.ready);
    var q' := Contents(r.ready);
    assert c !in q && c !in k.sleep;
    AppendMaybe(q, q', c, s == Ready);
    AppendMaybe(k.sleep, r.sleep, c, s == Sleeping);
    forall x | 0 <= x < NumProcesses
      ensures Bookkeeping(r.pcb[x], r.timerTick)
      ensures r.pcb[x].state == Ready ==> x in q'
      ensures r.pcb[x].state == Sleeping ==> x in r.sleep
      ensures r.pcb[x].state != Running
    {
      if x != c {
        assert r.pcb[x] == k.pcb[x];
        assert x in q ==> x in q';
        assert x in k.sleep ==> x in r.sleep;
      }
    }
    forall x | x in q'
      ensures x !in r.sleep && x != r.current && r.pcb[x].state == Ready
    {
      if x != c {
        assert x in q && r.pcb[x] == k.pcb[x];
      }
    }
    forall x | x in r.sleep
      ensures x != r.current && (r.pcb[x].state == Sleeping || r.pcb[x].state == Done)
    {
      if x != c {
        assert x in k.sleep && r.pcb[x] == k.pcb[x];
      }
    }
    assert Placement(r);
  }

  lemma ChargeContinueKeepsInv(k: Kernel, rChoice: nat, rIo: nat, rBurst: nat)
    requires Inv(k) && k.current != -1
    requires k.pcb[k.current].cpuBurst - 1 > 0 && k.pcb[k.current].quantum - 1 > 0
    ensures Inv(ChargeRunning(k, rChoice, rIo, rBurst))
  {
    var r := ChargeRunning(k, rChoice, rIo, rBurst);
    var c := k.current;
    forall x | 0 <= x < NumProcesses
      ensures r.pcb[x].state == k.pcb[x].state && Bookkeeping(r.pcb[x], r.timerTick)
    {
      if x != c {
        assert r.pcb[x] == k.pcb[x];
      }
    }
    SameStatesKeepsInv(k, r);
  }

  // ----------------------------------------------------------- sleep list

  /** A sleeper whose wait runs out on this tick. */
  predicate Expires(p: Pcb) {
    p.state != Done && p.ioWait - 1 <= 0
  }

  /** A sleeper still waiting after this tick. */
  predicate StaysAsleep(p: Pcb) {
    p.state != Done && p.ioWait - 1 > 0
  }

  /** The sleepers of `xs` whose wait runs out, in list order. */
  function Woken(ps: seq<Pcb>, xs: seq<int>): (ws: seq<int>)
    ensures forall x :: x in ws <==> x in xs && 0 <= x < |ps| && Expires(ps[x])
    ensures |ws| <= |xs|
    ensures Distinct(xs) ==> Distinct(ws)
  {
    if xs == [] then []
    else
      assert xs[0] in xs;
      var rest := Woken(ps, xs[1..]);
      assert Distinct(xs) ==> xs[0] !in xs[1..];
      DistinctConcat([xs[0]], rest);
      (if 0 <= xs[0] < |ps| && Expires(ps[xs[0]]) then [xs[0]] else []) + rest
  }

  /** The sleepers of `xs` that keep waiting, in list order. */
  function StillAsleep(ps: seq<Pcb>, xs: seq<int>): (ys: seq<int>)
    ensures forall x :: x in ys <==> x in xs && 0 <= x < |ps| && StaysAsleep(ps[x])
    ensures Distinct(xs) ==> Distinct(ys)
  {
    if xs == [] then []
    else
      assert xs[0] in xs;
      var rest := StillAsleep(ps, xs[1..]);
      assert Distinct(xs) ==> xs[0] !in xs[1..];
      DistinctConcat([xs[0]], rest);
      (if 0 <= xs[0] < |ps| && StaysAsleep(ps[xs[0]]) then [xs[0]] else []) + rest
  }

  /** One tick of waiting for a listed sleeper, as `update_sleep_queue`
      applies it: DONE entries are untouched, the others lose one tick and,
      once expired, go through `push_ready`. */
  function AfterWait(p: Pcb, now: int): Pcb {
    if p.state == Done then p
    else if p.ioWait - 1 <= 0 then
      p.(ioWait := p.ioWait - 1, state := Ready, readyEnterTime := now, waitCount := p.waitCount + 1)
    else p.(ioWait := p.ioWait - 1)
  }

  /** The filters only look at the PCBs of the listed entries. */
  lemma {:induction false} FiltersFrame(ps: seq<Pcb>, ps': seq<Pcb>, xs: seq<int>)
    requires |ps| == |ps'|
    requires forall x :: x in xs && 0 <= x < |ps| ==> ps[x] == ps'[x]
    ensures Woken(ps, xs) == Woken(ps', xs)
    ensures StillAsleep(ps, xs) == StillAsleep(ps', xs)
  {
    if xs != [] {
      assert xs[0] in xs;
      FiltersFrame(ps, ps', xs[1..]);
    }
  }

  lemma RemoveAtDistinct(xs: seq<int>, i: int)
    requires 0 <= i < |xs| && Distinct(xs)
    ensures Distinct(RemoveAt(xs, i))
    ensures forall y :: y in RemoveAt(xs, i) <==> y in xs && y != xs[i]
  {
    var ys := RemoveAt(xs, i);
    forall y | y in xs && y != xs[i]
      ensures y in ys
    {
      var j :| 0 <= j < |xs| && xs[j] == y;
      if j < i { assert ys[j] == y; } else { assert ys[j - 1] == y; }
    }
    forall a, b | 0 <= a < b < |ys|
      ensures ys[a] != ys[b]
    {
      var a' := if a < i then a else a + 1;
      var b' := if b < i then b else b + 1;
      assert ys[a] == xs[a'] && ys[b] == xs[b'];
    }
    forall y | y in ys
      ensures y != xs[i]
    {
      var j :| 0 <= j < |ys| && ys[j] == y;
      if j < i { assert ys[j] == xs[j]; } else { assert ys[j] == xs[j + 1]; }
    }
  }

  /** What the loop of `update_sleep_queue` from position `i` achieves: the
      first `i` entries stay as they are, the still-waiting rest keep their
      order, the expired ones are pushed onto the ready queue in list order,
      and every remaining entry's PCB gets exactly one `AfterWait`. */
  ghost predicate SleepUpdated(k: Kernel, i: nat, r: Kernel)
    requires WellFormed(k) && WellFormed(r) && i <= |k.sleep|
  {
    var rest := k.sleep[i..];
    && r.sleep == k.sleep[..i] + StillAsleep(k.pcb, rest)
    && r.ready == PushAll(k.ready, Woken(k.pcb, rest))
    && AgedOn(k.pcb, r.pcb, rest, k.timerTick)
  }

  /** `rs` is `ps` with one `AfterWait` applied to the PCBs listed in `xs`
      and to no other. */
  ghost predicate AgedOn(ps: seq<Pcb>, rs: seq<Pcb>, xs: seq<int>, now: int) {
    && |rs| == |ps|
    && (forall x :: x in xs && 0 <= x < |ps| ==> rs[x] == AfterWait(ps[x], now))
    && (forall x :: 0 <= x < |ps| && x !in xs ==> rs[x] == ps[x])
  }

  /** Ageing the front entry first and the rest afterwards ages them all. */
  lemma AgedOnCons(ps: seq<Pcb>, ps': seq<Pcb>, rs: seq<Pcb>, x: int, xs: seq<int>, now: int)
    requires 0 <= x < |ps| && x !in xs
    requires ps' == ps[x := AfterWait(ps[x], now)]
    requires AgedOn(ps', rs, xs, now)
    ensures AgedOn(ps, rs, [x] + xs, now)
  {
    forall y | y in [x] + xs && 0 <= y < |ps|
      ensures rs[y] == AfterWait(ps[y], now)
    {
      if y != x {
        assert y in xs;
      }
    }
  }

  /** A DONE entry needs no ageing: `AfterWait` leaves it as it is. */
  lemma AgedOnDone(ps: seq<Pcb>, rs: seq<Pcb>, x: int, xs: seq<int>, now: int)
    requires 0 <= x < |ps| && x !in xs && ps[x].state == Done
    requires AgedOn(ps, rs, xs, now)
    ensures AgedOn(ps, rs, [x] + xs, now)
  {
    forall y | y in [x] + xs && 0 <= y < |ps|
      ensures rs[y] == AfterWait(ps[y], now)
    {
      if y != x {
        assert y in xs;
      }
    }
  }

  lemma {:induction false} UpdateSleepFromEffect(k: Kernel, i: nat)
    requires WellFormed(k) && i <= |k.sleep| && Distinct(k.sleep)
    ensures SleepUpdated(k, i, UpdateSleepFrom(k, i))
    decreases |k.sleep| - i, 1
  {
    if i == |k.sleep| {
      assert k.sleep[..i] == k.sleep;
      assert k.sleep[i..] == [];
    } else {
      var idx := k.sleep[i];
      assert idx in k.sleep;
      if k.pcb[idx].state == Done {
        DropDoneStep(k, i);
      } else if k.pcb[idx].ioWait - 1 <= 0 {
        WakeStep(k, i);
      } else {
        KeepStep(k, i);
      }
    }
  }

  /** Entry `i` of a duplicate-free list is not among the later ones, and
      deleting it leaves the prefix and shifts the suffix. */
  lemma SplitAt(xs: seq<int>, i: nat)
    requires i < |xs| && Distinct(xs)
    ensures xs[i..] == [xs[i]] + xs[i + 1..]
    ensures xs[i] !in xs[i + 1..]
    ensures RemoveAt(xs, i)[..i] == xs[..i]
    ensures RemoveAt(xs, i)[i..] == xs[i + 1..]
    ensures Distinct(RemoveAt(xs, i))
  {
    RemoveAtDistinct(xs, i);
  }

  /** The filters peel off the front entry. */
  lemma FiltersCons(ps: seq<Pcb>, x: int, xs: seq<int>)
    ensures Woken(ps, [x] + xs)
            == (if 0 <= x < |ps| && Expires(ps[x]) then [x] else []) + Woken(ps, xs)
    ensures StillAsleep(ps, [x] + xs)
            == (if 0 <= x < |ps| && StaysAsleep(ps[x]) then [x] else []) + StillAsleep(ps, xs)
  {
    assert ([x] + xs)[0] == x && ([x] + xs)[1..] == xs;
  }

  lemma PrefixStep(xs: seq<int>, i: nat, ys: seq<int>)
    requires i < |xs|
    ensures xs[..i + 1] + ys == xs[..i] + ([xs[i]] + ys)
  {
    assert xs[..i + 1] == xs[..i] + [xs[i]];
  }

  lemma {:induction false} DropDoneStep(k: Kernel, i: nat)
    requires WellFormed(k) && i < |k.sleep| && Distinct(k.sleep)
    requires k.sleep[i] in k.sleep && k.pcb[k.sleep[i]].state == Done
    ensures SleepUpdated(k, i, UpdateSleepFrom(k, i))
    decreases |k.sleep| - i, 0
  {
    SplitAt(k.sleep, i);
    var k1 := k.(sleep := RemoveAt(k.sleep, i));
    assert UpdateSleepFrom(k, i) == UpdateSleepFrom(k1, i);
    UpdateSleepFromEffect(k1, i);
    DropCombine(k, k1, UpdateSleepFrom(k1, i), i);
  }

  lemma {:induction false} WakeStep(k: Kernel, i: nat)
    requires WellFormed(k) && i < |k.sleep| && Distinct(k.sleep)
    requires k.sleep[i] in k.sleep && k.pcb[k.sleep[i]].state != Done && k.pcb[k.sleep[i]].ioWait - 1 <= 0
    ensures SleepUpdated(k, i, UpdateSleepFrom(k, i))
    decreases |k.sleep| - i, 0
  {
    var idx := k.sleep[i];
    SplitAt(k.sleep, i);
    var k1 := k.(pcb := k.pcb[idx := k.pcb[idx].(ioWait := k.pcb[idx].ioWait - 1)]);
    var k2 := PushReady(k1, idx).(sleep := RemoveAt(k.sleep, i));
    assert UpdateSleepFrom(k, i) == UpdateSleepFrom(k2, i);
    assert k2 == k.(ready := Push(k.ready, idx),
                    pcb := k.pcb[idx := AfterWait(k.pcb[idx], k.timerTick)],
                    sleep := RemoveAt(k.sleep, i));
    UpdateSleepFromEffect(k2, i);
    WakeCombine(k, k2, UpdateSleepFrom(k2, i), i);
  }

  lemma {:induction false} KeepStep(k: Kernel, i: nat)
    requires WellFormed(k) && i < |k.sleep| && Distinct(k.sleep)
    requires k.sleep[i] in k.sleep && k.pcb[k.sleep[i]].state != Done && k.pcb[k.sleep[i]].ioWait - 1 > 0
    ensures SleepUpdated(k, i, UpdateSleepFrom(k, i))
    decreases |k.sleep| - i, 0
  {
    var idx := k.sleep[i];
    var k1 := k.(pcb := k.pcb[idx := AfterWait(k.pcb[idx], k.timerTick)]);
    assert UpdateSleepFrom(k, i) == UpdateSleepFrom(k1, i + 1);
    UpdateSleepFromEffect(k1, i + 1);
    KeepCombine(k, k1, UpdateSleepFrom(k1, i + 1), i);
  }

  /** The three loop cases, each relating the rest of the loop's result `r`
      to the whole loop's. */
  lemma DropCombine(k: Kernel, k1: Kernel, r: Kernel, i: nat)
    requires WellFormed(k) && WellFormed(r) && i < |k.sleep| && Distinct(k.sleep)
    requires k.sleep[i] in k.sleep && k.pcb[k.sleep[i]].state == Done
    requires k1 == k.(sleep := RemoveAt(k.sleep, i))
    requires SleepUpdated(k1, i, r)
    ensures SleepUpdated(k, i, r)
  {
    var idx := k.sleep[i];
    var tail := k.sleep[i + 1..];
    SplitAt(k.sleep, i);
    assert k1.sleep[i..] == tail;
    FiltersCons(k.pcb, idx, tail);
    assert Woken(k.pcb, k.sleep[i..]) == Woken(k.pcb, tail);
    assert StillAsleep(k.pcb, k.sleep[i..]) == StillAsleep(k.pcb, tail);
    AgedOnDone(k.pcb, r.pcb, idx, tail, k.timerTick);
  }

  lemma WakeCombine(k: Kernel, k2: Kernel, r: Kernel, i: nat)
    requires WellFormed(k) && WellFormed(k2) && WellFormed(r) && i < |k.sleep| && Distinct(k.sleep)
    requires k.sleep[i] in k.sleep && Expires(k.pcb[k.sleep[i]])
    requires k2.ready == Push(k.ready, k.sleep[i])
    requires k2.pcb == k.pcb[k.sleep[i] := AfterWait(k.pcb[k.sleep[i]], k.timerTick)]
    requires k2.sleep == RemoveAt(k.sleep, i) && k2.timerTick == k.timerTick
    requires SleepUpdated(k2, i, r)
    ensures SleepUpdated(k, i, r)
  {
    var idx := k.sleep[i];
    var tail := k.sleep[i + 1..];
    SplitAt(k.sleep, i);
    assert k2.sleep[i..] == tail;
    assert k.sleep[i..] == [idx] + tail;
    assert Woken(k.pcb, tail) == Woken(k2.pcb, tail) && StillAsleep(k.pcb, tail) == StillAsleep(k2.pcb, tail) by {
      FiltersFrame(k.pcb, k2.pcb, tail);
    }
    assert 0 <= idx < NumProcesses && !StaysAsleep(k.pcb[idx]);
    assert StillAsleep(k.pcb, k.sleep[i..]) == StillAsleep(k.pcb, tail) by {
      FiltersCons(k.pcb, idx, tail);
      assert [] + StillAsleep(k.pcb, tail) == StillAsleep(k.pcb, tail);
    }
    assert Woken(k.pcb, k.sleep[i..]) == [idx] + Woken(k.pcb, tail) by {
      FiltersCons(k.pcb, idx, tail);
    }
    assert r.ready == PushAll(k.ready, Woken(k.pcb, k.sleep[i..])) by {
      PushAllCons(k.ready, idx, Woken(k.pcb, tail));
    }
    AgedOnCons(k.pcb, k2.pcb, r.pcb, idx, tail, k.timerTick);
  }

  lemma KeepCombine(k: Kernel, k1: Kernel, r: Kernel, i: nat)
    requires WellFormed(k) && WellFormed(r) && i < |k.sleep| && Distinct(k.sleep)
    requires k.sleep[i] in k.sleep && StaysAsleep(k.pcb[k.sleep[i]])
    requires k1 == k.(pcb := k.pcb[k.sleep[i] := AfterWait(k.pcb[k.sleep[i]], k.timerTick)])
    requires SleepUpdated(k1, i + 1, r)
    ensures SleepUpdated(k, i, r)
  {
    var idx := k.sleep[i];
    var tail := k.sleep[i + 1..];
    SplitAt(k.sleep, i);
    assert k1.sleep[i + 1..] == tail;
    FiltersFrame(k.pcb, k1.pcb, tail);
    FiltersCons(k.pcb, idx, tail);
    assert r.sleep == k.sleep[..i] + StillAsleep(k.pcb, k.sleep[i..]) by {
      PrefixStep(k.sleep, i, StillAsleep(k.pcb, tail));
    }
    assert Woken(k.pcb, k.sleep[i..]) == Woken(k.pcb, tail);
    AgedOnCons(k.pcb, k1.pcb, r.pcb, idx, tail, k.timerTick);
  }

  /** `update_sleep_queue` on a consistent kernel: the expired sleepers
      join the rear of the ready queue in sleep-list order, the others stay
      in the sleep list in order, DONE entries are purged, every listed live
      sleeper loses exactly one tick of wait, and no other PCB changes. */
  lemma UpdateSleepQueueEffect(k: Kernel)
    requires Inv(k)
    ensures var r := UpdateSleepQueue(k);
            && r.sleep == StillAsleep(k.pcb, k.sleep)
            && Contents(r.ready) == Contents(k.ready) + Woken(k.pcb, k.sleep)
            && (forall x :: x in k.sleep ==> r.pcb[x] == AfterWait(k.pcb[x], k.timerTick))
            && (forall x :: 0 <= x < NumProcesses && x !in k.sleep ==> r.pcb[x] == k.pcb[x])
            && r.current == k.current && r.doneCount == k.doneCount
            && r.timerTick == k.timerTick && r.exited == k.exited
  {
    var r := UpdateSleepQueue(k);
    UpdateSleepFromEffect(k, 0);
    assert k.sleep[..0] == [] && k.sleep[0..] == k.sleep;
    assert r.sleep == StillAsleep(k.pcb, k.sleep);
    Occupancy(k);
    assert Contents(r.ready) == Contents(k.ready) + Woken(k.pcb, k.sleep);
  }

  /** One listed sleeper after its tick of waiting. */
  lemma AfterWaitKeepsBookkeeping(p: Pcb, now: int)
    requires Bookkeeping(p, now)
    requires p.state == Sleeping || p.state == Done
    ensures Bookkeeping(AfterWait(p, now), now)
    ensures AfterWait(p, now).state == (if p.state == Done then Done else if Expires(p) then Ready else Sleeping)
  {
  }

  lemma UpdateSleepQueueKeepsInv(k: Kernel)
    requires Inv(k)
    ensures Inv(UpdateSleepQueue(k))
  {
    UpdateSleepQueueEffect(k);
    SleepAgedKeepsInv(k, UpdateSleepQueue(k));
  }

  /** Any kernel related to `k` as `update_sleep_queue` relates them is
      consistent again. */
  lemma SleepAgedKeepsInv(k: Kernel, r: Kernel)
    requires Inv(k) && WellFormed(r)
    requires r.sleep == StillAsleep(k.pcb, k.sleep)
    requires Contents(r.ready) == Contents(k.ready) + Woken(k.pcb, k.sleep)
    requires forall x :: x in k.sleep ==> r.pcb[x] == AfterWait(k.pcb[x], k.timerTick)
    requires forall x :: 0 <= x < NumProcesses && x !in k.sleep ==> r.pcb[x] == k.pcb[x]
    requires r.current == k.current && r.doneCount == k.doneCount
    requires r.timerTick == k.timerTick && r.exited == k.exited
    ensures Inv(r)
  {
    var q := Contents(k.ready);
    var w := Woken(k.pcb, k.sleep);
    forall x | x in k.sleep
      ensures Bookkeeping(r.pcb[x], r.timerTick)
      ensures r.pcb[x].state == (if k.pcb[x].state == Done then Done else if Expires(k.pcb[x]) then Ready else Sleeping)
    {
      AfterWaitKeepsBookkeeping(k.pcb[x], k.timerTick);
    }
    assert r.doneCount == Count(States(r.pcb), Done) by {
      assert forall x :: 0 <= x < NumProcesses ==> (r.pcb[x].state == Done <==> k.pcb[x].state == Done);
      CountSame(States(r.pcb), States(k.pcb), Done);
    }
    assert Distinct(q + w) by {
      DistinctConcat(q, w);
    }
    assert Placement(r) by {
      forall x | x in q + w
        ensures x !in r.sleep && x != r.current && r.pcb[x].state == Ready
      {
        if x in q {
          assert x !in k.sleep;
          assert r.pcb[x] == k.pcb[x];
        } else {
          assert x in w;
          assert x in k.sleep && Expires(k.pcb[x]);
        }
      }
      forall x | x in r.sleep
        ensures x != r.current && r.pcb[x].state == Sleeping
      {
        assert x in k.sleep && StaysAsleep(k.pcb[x]);
      }
      forall i | 0 <= i < NumProcesses
        ensures r.pcb[i].state == Ready ==> i in q + w
        ensures r.pcb[i].state == Sleeping ==> i in r.sleep
        ensures r.pcb[i].state == Running ==> i == r.current
      {
        if i in k.sleep {
          var p := k.pcb[i];
          assert p.state == Sleeping || p.state == Done;
          if p.state != Done && Expires(p) {
            assert i in w;
          } else if p.state != Done {
            assert StaysAsleep(p);
          }
        } else {
          assert r.pcb[i] == k.pcb[i];
        }
      }
    }
  }
  // ------------------------------------------------------------ SIGCHLD

  /** Any kernel related to `k` as `child_done_handler` relates them before
      it reschedules is consistent: process `i` is DONE and stamped, out of
      the ready queue, and no longer current. */
  lemma MarkDoneKeepsInv(k: Kernel, i: int, k1: Kernel)
    requires Inv(k) && 0 <= i < NumProcesses && k.pcb[i].state != Done
    requires WellFormed(k1)
    requires k1.pcb == k.pcb[i := k.pcb[i].(state := Done, completionTime := k.timerTick)]
    requires k1.doneCount == k.doneCount + 1
    requires Contents(k1.ready) == Without(Contents(k.ready), i)
    requires k1.current == if k.current == i then -1 else k.current
    requires k1.sleep == k.sleep && k1.timerTick == k.timerTick && k1.exited == k.exited
    ensures Inv(k1)
  {
    assert k1.doneCount == Count(States(k1.pcb), Done) by {
      DoneCountUpdate(k.pcb, i, k1.pcb[i]);
    }
    forall x | 0 <= x < NumProcesses
      ensures Bookkeeping(k1.pcb[x], k1.timerTick)
    {
      if x != i {
        assert k1.pcb[x] == k.pcb[x];
      }
    }
    MarkDonePlacement(k, i, k1);
  }

  /** The placement half of `MarkDoneKeepsInv`. */
  lemma MarkDonePlacement(k: Kernel, i: int, k1: Kernel)
    requires WellFormed(k) && Placement(k) && 0 <= i < NumProcesses
    requires WellFormed(k1)
    requires k1.pcb == k.pcb[i := k.pcb[i].(state := Done, completionTime := k.timerTick)]
    requires Contents(k1.ready) == Without(Contents(k.ready), i)
    requires k1.current == if k.current == i then -1 else k.current
    requires k1.sleep == k.sleep
    ensures Placement(k1)
  {
    var q := Contents(k.ready);
    var q1 := Contents(k1.ready);
    forall x | x in q1
      ensures x !in k1.sleep && x != k1.current && k1.pcb[x].state == Ready
    {
      assert x in q && x != i;
      assert k1.pcb[x] == k.pcb[x];
    }
    forall x | x in k1.sleep
      ensures x != k1.current && (k1.pcb[x].state == Sleeping || k1.pcb[x].state == Done)
    {
      assert x in k.sleep;
      if x != i {
        assert k1.pcb[x] == k.pcb[x];
      }
    }
    forall j | 0 <= j < NumProcesses
      ensures k1.pcb[j].state == Ready ==> j in q1
      ensures k1.pcb[j].state == Sleeping ==> j in k1.sleep
      ensures k1.pcb[j].state == Running ==> j == k1.current
    {
      if j != i {
        assert k1.pcb[j] == k.pcb[j];
      }
    }
  }

  lemma ChildDoneKeepsInv(k: Kernel, i: int)
    requires Inv(k) && 0 <= i < NumProcesses
    ensures Inv(ChildDone(k, i))
  {
    if k.pcb[i].state != Done {
      var k1 := MarkDone(k, i);
      MarkDoneKeepsInv(k, i, k1);
      if k.current == i {
        ScheduleKeepsInv(k1);
      }
    }
  }

  /** The handler as written is sound for every victim that is not waiting
      in the ready queue: a RUNNING, SLEEPING or DONE process. That covers
      every SIGCHLD the program provokes itself (hw03/hw03.c:279 kills the
      child only after marking it DONE). */
  lemma ChildDoneAsWrittenKeepsInv(k: Kernel, i: int)
    requires Inv(k) && 0 <= i < NumProcesses && k.pcb[i].state != Ready
    ensures Inv(ChildDoneAsWritten(k, i))
  {
    if k.pcb[i].state != Done {
      assert i !in Contents(k.ready);
      var k1 := k.(pcb := k.pcb[i := k.pcb[i].(state := Done, completionTime := k.timerTick)],
                   doneCount := k.doneCount + 1,
                   current := if k.current == i then -1 else k.current);
      MarkDoneKeepsInv(k, i, k1);
      if k.current == i {
        assert ChildDoneAsWritten(k, i) == Schedule(k1);
        ScheduleKeepsInv(k1);
      } else {
        assert ChildDoneAsWritten(k, i) == k1;
      }
    }
  }
  // -------------------------------------------------------------- SIGALRM

  lemma ChargeCurrentKeepsInv(k: Kernel, rChoice: nat, rIo: nat, rBurst: nat)
    requires Inv(k)
    ensures Inv(ChargeCurrent(k, rChoice, rIo, rBurst))
  {
    if k.current != -1 && k.pcb[k.current].state == Running {
      ChargeKeepsInv(k, rChoice, rIo, rBurst);
    }
  }

  lemma ResetWhenSpentKeepsInv(k: Kernel)
    requires Inv(k)
    ensures Inv(ResetWhenSpent(k))
  {
    if AllQuantumZero(k.pcb) && k.doneCount < NumProcesses {
      ResetKeepsInv(k);
    }
  }

  /** Every timer tick keeps the kernel consistent, whatever `rand()` returns. */
  lemma TimerHandlerKeepsInv(k: Kernel, rChoice: nat, rIo: nat, rBurst: nat)
    requires Inv(k) && !k.exited
    ensures Inv(TimerHandler(k, rChoice, rIo, rBurst))
  {
    var k0 := k.(timerTick := k.timerTick + 1);
    var k1 := UpdateSleepQueue(k0);
    var k2 := ChargeCurrent(k1, rChoice, rIo, rBurst);
    var k3 := ResetWhenSpent(k2);
    assert Inv(k3) by {
      assert Inv(k1) by {
        ClockKeepsInv(k);
        UpdateSleepQueueKeepsInv(k0);
      }
      ChargeCurrentKeepsInv(k1, rChoice, rIo, rBurst);
      ResetWhenSpentKeepsInv(k2);
    }
    ScheduleKeepsInv(k3);
    TimerHandlerPhases(k, rChoice, rIo, rBurst);
  }

  lemma TimerHandlerPhases(k: Kernel, rChoice: nat, rIo: nat, rBurst: nat)
    requires WellFormed(k) && !k.exited
    ensures var k1 := UpdateSleepQueue(k.(timerTick := k.timerTick + 1));
            TimerHandler(k, rChoice, rIo, rBurst) == Schedule(ResetWhenSpent(ChargeCurrent(k1, rChoice, rIo, rBurst)))
  {
  }
  // ---------------------------------------------------------------- start

  /** The state of the creation loop of `parent_process` before child `i`:
      children `0..i` exist, READY and queued once in creation order; the
      other slots are still zero. */
  ghost predicate CreatedUpTo(k: Kernel, rs: seq<nat>, i: nat)
    requires |rs| == NumProcesses && i <= NumProcesses
  {
    && WellFormed(k)
    && (forall j :: 0 <= j < i ==> k.pcb[j] == NewPcb(rs[j]).(waitCount := 1))
    && (forall j :: i <= j < NumProcesses ==> k.pcb[j] == Unborn)
    && Contents(k.ready) == seq(i, j => j)
    && k.sleep == [] && k.current == -1 && k.doneCount == 0
    && k.timerTick == 0 && !k.exited
  }

  lemma {:induction false} CreateFromSpec(k: Kernel, rs: seq<nat>, i: nat)
    requires |rs| == NumProcesses && i <= NumProcesses
    requires CreatedUpTo(k, rs, i)
    ensures CreatedUpTo(CreateFrom(k, rs, i), rs, NumProcesses)
    decreases NumProcesses - i
  {
    if i < NumProcesses {
      var k1 := k.(pcb := k.pcb[i := NewPcb(rs[i])]);
      var k2 := PushReady(k1, i);
      assert Contents(k2.ready) == seq(i + 1, j => j);
      CreateFromSpec(k2, rs, i + 1);
    }
  }

  /** After the creation loop every child is READY with a fresh burst, has
      been enqueued once, and the ready queue holds `0, 1, ..., 9` in
      creation order; the kernel is consistent. */
  lemma BootSpec(rs: seq<nat>)
    requires |rs| == NumProcesses
    ensures var k := Boot(rs);
            && Inv(k)
            && Contents(k.ready) == seq(NumProcesses, j => j)
            && (forall j :: 0 <= j < NumProcesses ==> k.pcb[j] == NewPcb(rs[j]).(waitCount := 1))
            && k.sleep == [] && k.current == -1 && k.doneCount == 0 && k.timerTick == 0
  {
    var k0 := Kernel(seq(NumProcesses, _ => Unborn), Empty(QueueSize), [], -1, 0, 0, false);
    assert Contents(k0.ready) == seq(0, j => j);
    CreateFromSpec(k0, rs, 0);
    CreatedAllInv(Boot(rs), rs);
  }

  lemma CreatedAllInv(k: Kernel, rs: seq<nat>)
    requires |rs| == NumProcesses && CreatedUpTo(k, rs, NumProcesses)
    ensures Inv(k)
  {
    var q := Contents(k.ready);
    assert Done !in States(k.pcb);
    assert forall j :: 0 <= j < NumProcesses ==> q[j] == j;
    assert forall x :: x in q ==> 0 <= x < NumProcesses;
    assert Distinct(q);
    forall j | 0 <= j < NumProcesses
      ensures j in q
    {
      assert q[j] == j;
    }
    assert Placement(k);
  }

  /** `parent_process` dispatches child 0 first, at time 0, and leaves
      `1, ..., 9` queued. */
  lemma StartSpec(rs: seq<nat>)
    requires |rs| == NumProcesses
    ensures var k := Start(rs);
            && Inv(k)
            && k.current == 0
            && k.pcb[0].state == Running && k.pcb[0].firstRunTime == 0
            && Contents(k.ready) == seq(NumProcesses - 1, j => j + 1)
            && k.timerTick == 0
            && (forall j :: 1 <= j < NumProcesses ==> k.pcb[j] == NewPcb(rs[j]).(waitCount := 1))
  {
    BootSpec(rs);
    BootDispatch(Boot(rs), Start(rs));
  }

  lemma BootDispatch(k: Kernel, r: Kernel)
    requires Inv(k) && k.current == -1 && k.timerTick == 0
    requires Contents(k.ready) == seq(NumProcesses, j => j)
    requires k.pcb[0].firstRunTime == -1
    requires r == Schedule(k)
    ensures Inv(r) && r.current == 0
    ensures r.pcb[0].state == Running && r.pcb[0].firstRunTime == 0
    ensures Contents(r.ready) == seq(NumProcesses - 1, j => j + 1)
    ensures r.timerTick == k.timerTick && forall j :: 1 <= j < NumProcesses ==> r.pcb[j] == k.pcb[j]
  {
    assert Inv(r) by {
      ScheduleKeepsInv(k);
    }
    Identity(Contents(k.ready), NumProcesses);
  }
}
