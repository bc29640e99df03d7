/** Kernel operations that leave the semaphores and the processes queued on them alone. */
module SemaphoreSteps {
  import opened KernelState
  import opened KernelRuns
  import opened SchedulerProofs
  import opened SemaphoreRings
  import opened SemaphoreState

  lemma BlockUndisturbed(k: Kernel, pid: nat)
    requires Sized(k)
    requires var i := Slot(k, pid); i < MAX_PROCESSES ==> i !in k.conts || k.table[i].state == Blocked
    ensures Undisturbed(k, Block(k, pid).0)
  {
    var i := Slot(k, pid);
    if Block(k, pid).1 == 0 {
      assert BlockSlot(k, i) == Moved(k, i, BlockSlot(k, i).table[i], false);
      MovedUndisturbed(k, i, BlockSlot(k, i).table[i], false);
    } else {
      SameTableUndisturbed(k, k);
    }
  }

  lemma WakeSlotUndisturbed(k: Kernel, i: nat)
    requires SchedInv(k) && i < MAX_PROCESSES && k.table[i].state == Blocked && !QueuedSlot(k, i)
    ensures Undisturbed(k, WakeSlot(k, i))
  {
    var p := k.table[i];
    if p.previous == Sleeping {
      var (k1, expired) := Expire(k, p.pid);
      SameTableUndisturbed(k, k1);
      assert !QueuedSlot(k1, i);
      var p1 := p.(state := if expired then Ready else Sleeping);
      assert WakeSlot(k, i) == Moved(k1, i, p1, expired);
      MovedUndisturbed(k1, i, p1, expired);
      UndisturbedChains(k, k1, WakeSlot(k, i));
    } else {
      var p1 := p.(state := p.previous);
      assert WakeSlot(k, i) == Moved(k, i, p1, p.previous == Ready);
      MovedUndisturbed(k, i, p1, p.previous == Ready);
    }
  }

  lemma WakeUndisturbed(k: Kernel, pid: nat)
    requires SchedInv(k) && !QueuedSlot(k, Slot(k, pid))
    ensures Undisturbed(k, Wake(k, pid).0)
  {
    if Wake(k, pid).1 == 0 {
      WakeSlotUndisturbed(k, Slot(k, pid));
    } else {
      SameTableUndisturbed(k, k);
    }
  }

  lemma ChangePriorityUndisturbed(k: Kernel, pid: nat, priority: nat)
    requires Sized(k)
    ensures Undisturbed(k, ChangePriority(k, pid, priority).0)
  {
    var i := Slot(k, pid);
    if priority < PRIORITY_LEVELS && i < MAX_PROCESSES && k.table[i].priority != priority {
      var p := k.table[i].(priority := priority);
      assert ChangePriority(k, pid, priority).0 == Moved(k, i, p, p.state == Ready);
      MovedUndisturbed(k, i, p, p.state == Ready);
    } else {
      SameTableUndisturbed(k, k);
    }
  }

  lemma SleepUndisturbed(k: Kernel, seconds: nat)
    requires SchedInv(k) && (k.table[k.current].state == Running ==> k.current !in k.conts)
    requires k.table[k.current].state == Running || k.table[k.current].state == Terminated
    ensures Undisturbed(k, Sleep(k, seconds).0)
  {
    var (r, code) := Sleep(k, seconds);
    SameTableUndisturbed(k, k);
    if code == 0 {
      var pid := CurrentPid(k);
      var e := FindSleeper(k.sleepers, 0, 0);
      var k1 := k.(sleepers := k.sleepers[e := SleepEntry(pid, W64(k.ticks + W64(seconds * TICKS_PER_SECOND)))]);
      SameTableUndisturbed(k, k1);
      SlotIs(k, k.current);
      var p := r.table[k.current];
      assert r == Moved(k1, k.current, p, false);
      MovedUndisturbed(k1, k.current, p, false);
      UndisturbedChains(k, k1, r);
    }
  }

  lemma UnsleepUndisturbed(k: Kernel, pid: nat)
    requires SchedInv(k)
    ensures Undisturbed(k, UnsleepProcess(k, pid).0)
  {
    var i := Slot(k, pid);
    if UnsleepProcess(k, pid).1 == 0 {
      var p := k.table[i];
      var p1 := p.(state := p.previous);
      assert UnsleepProcess(k, pid).0 == Moved(k, i, p1, p.previous == Ready);
      MovedUndisturbed(k, i, p1, p.previous == Ready);
    } else {
      SameTableUndisturbed(k, k);
    }
  }

  lemma WakeSleeperUndisturbed(k: Kernel, e: nat)
    requires SchedInv(k) && e < MAX_PROCESSES
    ensures Undisturbed(k, WakeSleeper(k, e))
  {
    var s := k.sleepers[e];
    if s.pid != 0 && s.time <= k.ticks && IsSleeping(k, s.pid) {
      var k1 := k.(sleepers := k.sleepers[e := SleepEntry(0, 0)]);
      OtherFields(k, k1);
      SameTableUndisturbed(k, k1);
      UnsleepUndisturbed(k1, s.pid);
      UndisturbedChains(k, k1, WakeSleeper(k, e));
    } else {
      SameTableUndisturbed(k, k);
    }
  }

  lemma {:induction false} WakeSleepersUndisturbed(k: Kernel, n: nat)
    requires SchedInv(k) && n <= MAX_PROCESSES
    ensures Undisturbed(k, WakeSleepers(k, n))
    decreases n
  {
    if n == 0 {
      SameTableUndisturbed(k, k);
    } else {
      WakeSleepersUndisturbed(k, n - 1);
      WakeSleepersKeeps(k, n - 1);
      WakeSleeperUndisturbed(WakeSleepers(k, n - 1), n - 1);
      UndisturbedChains(k, WakeSleepers(k, n - 1), WakeSleepers(k, n));
    }
  }

  lemma AllSleepersUndisturbed(k: Kernel, n: nat)
    requires SchedInv(k) && n == |k.sleepers|
    ensures Undisturbed(k, WakeSleepers(k, n))
  {
    WakeSleepersUndisturbed(k, n);
  }

  lemma TimerTickUndisturbed(k: Kernel)
    requires SchedInv(k)
    ensures Undisturbed(k, TimerTick(k))
  {
    var k1 := k.(ticks := k.ticks + 1);
    OtherFields(k, k1);
    SameTableUndisturbed(k, k1);
    AllSleepersUndisturbed(k1, |k1.sleepers|);
    TimerTickIs(k, |k.sleepers|);
    UndisturbedChains(k, k1, TimerTick(k));
  }

  lemma SetNextUndisturbed(k: Kernel)
    requires Sized(k)
    ensures Undisturbed(k, SetNext(k))
  {
    if !k.firstSwitch && k.table[k.current].state == Running {
      var p := k.table[k.current].(state := Ready);
      assert SetNext(k) == Moved(k, k.current, p, p.pid != 0);
      MovedUndisturbed(k, k.current, p, p.pid != 0);
    } else {
      SameTableUndisturbed(k, SetNext(k));
    }
  }

  lemma GetNextUndisturbed(k: Kernel, start: nat)
    requires SchedInv(k) && start < PRIORITY_LEVELS && k.dead == []
    requires !k.firstSwitch && forall i :: 0 <= i < MAX_PROCESSES ==> k.table[i].state != Running
    ensures Undisturbed(k, GetNext(k, start))
  {
    var r := GetNext(k, start);
    GetNextKeeps(k, start);
    var p := r.table[r.current];
    MovedUndisturbed(k, r.current, p, false);
    SameTableUndisturbed(Moved(k, r.current, p, false), r);
    UndisturbedChains(k, Moved(k, r.current, p, false), r);
  }

  lemma DrainUndisturbed(k: Kernel)
    requires Sized(k) && k.dead != [] && DeadOk(k)
    ensures Undisturbed(k, Drain(k)) && DeadOk(Drain(k))
  {
    var i := k.dead[0];
    assert i in k.dead;
    var p := k.table[i].(state := Terminated, stack := false);
    var k1 := Moved(k, i, p, false);
    var r := Drain(k);
    MovedUndisturbed(k, i, p, false);
    forall j | 0 <= j < MAX_PROCESSES
      ensures SlotKept(k, r, j)
    {
      assert SlotKept(k, k1, j);
    }
    assert forall x :: x in r.dead ==> x in k.dead;
    assert r.table == k1.table;
  }

  lemma {:induction false} FreeTerminatedUndisturbed(k: Kernel)
    requires Sized(k) && DeadOk(k)
    ensures Undisturbed(k, FreeTerminated(k))
    decreases |k.dead|
  {
    if k.dead == [] {
      SameTableUndisturbed(k, k);
    } else {
      DrainUndisturbed(k);
      FreeTerminatedUndisturbed(Drain(k));
      UndisturbedChains(k, Drain(k), FreeTerminated(k));
    }
  }

  lemma SchedulerUndisturbed(k: Kernel, start: nat)
    requires SchedInv(k) && DeadOk(k) && start < PRIORITY_LEVELS
    ensures Undisturbed(k, Scheduler(k, start))
  {
    var k1 := FreeTerminated(k);
    FreeTerminatedUndisturbed(k);
    FreeTerminatedKeeps(k);
    if k1.system && k1.count > 1 {
      SetNextKeeps(k1);
      SetNextUndisturbed(k1);
      GetNextUndisturbed(SetNext(k1), start);
      UndisturbedChains(k, k1, SetNext(k1));
      UndisturbedChains(k, SetNext(k1), Scheduler(k, start));
    } else {
      SameTableUndisturbed(k1, k1.(system := false));
      UndisturbedChains(k, k1, Scheduler(k, start));
    }
  }

  // A process that is not inside sem_wait is terminated.
  lemma TerminateUndisturbed(k: Kernel, i: nat)
    requires SchedInv(k) && 1 <= i < MAX_PROCESSES && i !in k.conts
    ensures Undisturbed(k, Terminate(k, i))
  {
    var p := k.table[i].(state := Terminated);
    assert Fallen(k, i) == Moved(k, i, p, false);
    MovedUndisturbed(k, i, p, false);
    TerminateIs(k, i);
    KinUndisturbed(Fallen(k, i), Terminate(k, i));
    UndisturbedChains(k, Fallen(k, i), Terminate(k, i));
  }

  lemma BuryUndisturbed(k: Kernel, i: nat)
    requires Sized(k) && i < MAX_PROCESSES && k.table[i].state == Terminated && i !in k.conts
    ensures Undisturbed(k, k.(dead := k.dead + [i]))
  {
    SameTableUndisturbed(k, k);
    var r := k.(dead := k.dead + [i]);
    forall j | 0 <= j < MAX_PROCESSES
      ensures SlotKept(k, r, j)
    {
      assert SlotKept(k, k, j);
    }
  }

  lemma SetSemWaitUndisturbed(k: Kernel, i: nat, s: int)
    requires Sized(k) && i < MAX_PROCESSES
    ensures Undisturbed(k, SetPcb(k, i, k.table[i].(semWait := s)))
  {
    var p := k.table[i].(semWait := s);
    assert SetPcb(k, i, p) == Moved(k, i, p, false);
    MovedUndisturbed(k, i, p, false);
  }
}
