/** The process count and the stacks: what kernel entries keep in balance, and exactly when they do not. */
module AccountingProofs {
  import opened KernelState
  import opened KernelRuns
  import opened SchedulerProofs

  predicate Alive(k: Kernel, i: nat)
    requires Sized(k) && i < MAX_PROCESSES
  {
    i >= 1 && k.table[i].state != Terminated
  }

  /** The slots of live processes other than idle. */
  ghost function Live(k: Kernel): set<nat>
    requires Sized(k)
  {
    set i: nat | i < MAX_PROCESSES && Alive(k, i)
  }

  /** The count is idle, the live processes and those that await cleanup; these are distinct, and only they
      and the live processes own a stack. */
  ghost predicate Balanced(k: Kernel) {
    && Sized(k)
    && k.count == 1 + |Live(k)| + |k.dead|
    && (forall a, b :: 0 <= a < b < |k.dead| ==> k.dead[a] != k.dead[b])
    && (forall x :: x in k.dead ==> 1 <= x < MAX_PROCESSES && !Alive(k, x) && k.table[x].stack)
    && (forall i {:trigger Alive(k, i)} :: 1 <= i < MAX_PROCESSES ==>
          (Alive(k, i) ==> k.table[i].stack) && (!Alive(k, i) && i !in k.dead ==> !k.table[i].stack))
  }

  // ---------------------------------------------------------------- entries that do not count

  ghost predicate SlotCounts(k: Kernel, r: Kernel, i: nat)
    requires Sized(k) && Sized(r) && i < MAX_PROCESSES
  {
    (Alive(r, i) <==> Alive(k, i)) && r.table[i].stack == k.table[i].stack
  }

  ghost predicate SameCounts(k: Kernel, r: Kernel)
    requires Sized(k) && Sized(r)
  {
    && r.count == k.count && r.dead == k.dead
    && forall i {:trigger SlotCounts(k, r, i)} :: 0 <= i < MAX_PROCESSES ==> SlotCounts(k, r, i)
  }

  lemma SameCountsChains(a: Kernel, b: Kernel, c: Kernel)
    requires Sized(a) && Sized(b) && Sized(c) && SameCounts(a, b) && SameCounts(b, c)
    ensures SameCounts(a, c)
  {
    forall i | 0 <= i < MAX_PROCESSES
      ensures SlotCounts(a, c, i)
    {
      assert SlotCounts(a, b, i) && SlotCounts(b, c, i);
    }
  }

  lemma SameCountsBalance(k: Kernel, r: Kernel)
    requires Balanced(k) && Sized(r) && SameCounts(k, r)
    ensures Balanced(r) && Live(r) == Live(k)
  {
    forall i: nat | i < MAX_PROCESSES
      ensures (Alive(r, i) <==> Alive(k, i)) && r.table[i].stack == k.table[i].stack
    {
      assert SlotCounts(k, r, i);
    }
    assert Live(r) == Live(k);
  }

  lemma MovedCounts(k: Kernel, i: nat, p: Pcb, enqueue: bool)
    requires Sized(k) && i < MAX_PROCESSES && p.priority < PRIORITY_LEVELS && p.kin == k.table[i].kin
    requires (i >= 1 ==> (p.state == Terminated <==> k.table[i].state == Terminated)) && p.stack == k.table[i].stack
    ensures Sized(Moved(k, i, p, enqueue)) && SameCounts(k, Moved(k, i, p, enqueue))
  {
    var r := Moved(k, i, p, enqueue);
    forall j | 0 <= j < MAX_PROCESSES
      ensures SlotCounts(k, r, j)
    {
      assert j != i ==> r.table[j] == k.table[j];
    }
  }

  lemma SameTableCounts(k: Kernel, r: Kernel)
    requires Sized(k) && Sized(r) && r.table == k.table && r.dead == k.dead && r.count == k.count
    ensures SameCounts(k, r)
  {
    forall i | 0 <= i < MAX_PROCESSES
      ensures SlotCounts(k, r, i)
    {
    }
  }

  lemma KinCounts(k: Kernel, r: Kernel)
    requires KinOnly(k, r)
    ensures SameCounts(k, r)
  {
    forall i | 0 <= i < MAX_PROCESSES
      ensures SlotCounts(k, r, i)
    {
      assert SlotKin(k, r, i);
    }
  }

  lemma BlockCounts(k: Kernel, pid: nat)
    requires Sized(k)
    ensures SameCounts(k, Block(k, pid).0)
  {
    var i := Slot(k, pid);
    SameTableCounts(k, k);
    if Block(k, pid).1 == 0 {
      MovedCounts(k, i, BlockSlot(k, i).table[i], false);
    }
  }

  lemma WakeCounts(k: Kernel, pid: nat)
    requires SchedInv(k)
    ensures SameCounts(k, Wake(k, pid).0)
  {
    var i := Slot(k, pid);
    SameTableCounts(k, k);
    if Wake(k, pid).1 == 0 {
      var p := k.table[i];
      var k1 := if p.previous == Sleeping then Expire(k, p.pid).0 else k;
      var r := Wake(k, pid).0;
      var p1 := r.table[i];
      assert r == Moved(k1, i, p1, p1.state == Ready);
      SameTableCounts(k, k1);
      MovedCounts(k1, i, p1, p1.state == Ready);
      SameCountsChains(k, k1, r);
    }
  }

  lemma ToggleCounts(k: Kernel, pid: nat)
    requires SchedInv(k)
    ensures SameCounts(k, Toggle(k, pid).0)
  {
    WakeCounts(k, pid);
    BlockCounts(k, pid);
    SameTableCounts(k, k);
  }

  lemma ChangePriorityCounts(k: Kernel, pid: nat, priority: nat)
    requires Sized(k)
    ensures SameCounts(k, ChangePriority(k, pid, priority).0)
  {
    var i := Slot(k, pid);
    SameTableCounts(k, k);
    if priority < PRIORITY_LEVELS && i < MAX_PROCESSES && k.table[i].priority != priority {
      var p := k.table[i].(priority := priority);
      MovedCounts(k, i, p, p.state == Ready);
    }
  }

  lemma SleepCounts(k: Kernel, seconds: nat)
    requires SchedInv(k)
    ensures SameCounts(k, Sleep(k, seconds).0)
  {
    var (r, code) := Sleep(k, seconds);
    SameTableCounts(k, k);
    if code == 0 {
      var pid := CurrentPid(k);
      var e := FindSleeper(k.sleepers, 0, 0);
      var k1 := k.(sleepers := k.sleepers[e := SleepEntry(pid, W64(k.ticks + W64(seconds * TICKS_PER_SECOND)))]);
      SameTableCounts(k, k1);
      if SleepProcess(k1, pid).1 == 0 {
        var i := Slot(k1, pid);
        assert r == Moved(k1, i, r.table[i], false);
        MovedCounts(k1, i, r.table[i], false);
        SameCountsChains(k, k1, r);
      }
    }
  }

  lemma WakeSleeperCounts(k: Kernel, e: nat)
    requires SchedInv(k) && e < MAX_PROCESSES
    ensures SameCounts(k, WakeSleeper(k, e))
  {
    var s := k.sleepers[e];
    SameTableCounts(k, k);
    if s.pid != 0 && s.time <= k.ticks && IsSleeping(k, s.pid) {
      var k1 := k.(sleepers := k.sleepers[e := SleepEntry(0, 0)]);
      var i := Slot(k1, s.pid);
      var r := WakeSleeper(k, e);
      SameTableCounts(k, k1);
      assert r == Moved(k1, i, r.table[i], r.table[i].state == Ready);
      MovedCounts(k1, i, r.table[i], r.table[i].state == Ready);
      SameCountsChains(k, k1, r);
    }
  }

  lemma {:induction false} WakeSleepersCounts(k: Kernel, n: nat)
    requires SchedInv(k) && n <= MAX_PROCESSES
    ensures SameCounts(k, WakeSleepers(k, n))
    decreases n
  {
    if n == 0 {
      SameTableCounts(k, k);
    } else {
      WakeSleepersCounts(k, n - 1);
      WakeSleepersKeeps(k, n - 1);
      WakeSleeperCounts(WakeSleepers(k, n - 1), n - 1);
      SameCountsChains(k, WakeSleepers(k, n - 1), WakeSleepers(k, n));
    }
  }

  lemma AllSleepersCounts(k: Kernel, n: nat)
    requires SchedInv(k) && n == |k.sleepers|
    ensures SameCounts(k, WakeSleepers(k, n))
  {
    WakeSleepersCounts(k, n);
  }

  lemma TimerTickCounts(k: Kernel)
    requires SchedInv(k)
    ensures SameCounts(k, TimerTick(k))
  {
    var k1 := k.(ticks := k.ticks + 1);
    OtherFields(k, k1);
    SameTableCounts(k, k1);
    AllSleepersCounts(k1, |k1.sleepers|);
    TimerTickIs(k, |k.sleepers|);
    SameCountsChains(k, k1, TimerTick(k));
  }

  lemma SwitchCounts(k: Kernel, start: nat)
    requires SchedInv(k) && start < PRIORITY_LEVELS
    ensures SameCounts(k, GetNext(SetNext(k), start))
  {
    var k1 := SetNext(k);
    SetNextKeeps(k);
    SameTableCounts(k, k);
    if !k.firstSwitch && k.table[k.current].state == Running {
      var p := k.table[k.current].(state := Ready);
      assert k1 == Moved(k, k.current, p, p.pid != 0);
      MovedCounts(k, k.current, p, p.pid != 0);
    } else {
      SameTableCounts(k, k1);
    }
    var r := GetNext(k1, start);
    GetNextKeeps(k1, start);
    MovedCounts(k1, r.current, r.table[r.current], false);
    SameTableCounts(Moved(k1, r.current, r.table[r.current], false), r);
    SameCountsChains(k1, Moved(k1, r.current, r.table[r.current], false), r);
    SameCountsChains(k, k1, r);
  }

  // ---------------------------------------------------------------- cleanup

  /** One turn of the draining loop frees one stack that is still there, and the count follows. */
  lemma DrainBalances(k: Kernel)
    requires Balanced(k) && k.dead != []
    ensures Balanced(Drain(k)) && Live(Drain(k)) == Live(k) && k.table[k.dead[0]].stack
  {
    var i := k.dead[0];
    var r := Drain(k);
    assert i in k.dead;
    forall j: nat | j < MAX_PROCESSES
      ensures Alive(r, j) <==> Alive(k, j)
      ensures j != i ==> r.table[j] == k.table[j]
    {
    }
    assert Live(r) == Live(k);
    forall x | x in r.dead
      ensures x in k.dead && x != i
    {
      var a :| 0 <= a < |r.dead| && r.dead[a] == x;
      assert k.dead[a + 1] == x;
    }
    forall x | x in k.dead && x != i
      ensures x in r.dead
    {
      var a :| 0 <= a < |k.dead| && k.dead[a] == x;
      assert r.dead[a - 1] == x;
    }
  }

  lemma {:induction false} FreeTerminatedBalances(k: Kernel)
    requires Balanced(k)
    ensures Balanced(FreeTerminated(k)) && Live(FreeTerminated(k)) == Live(k)
    decreases |k.dead|
  {
    if k.dead != [] {
      DrainBalances(k);
      FreeTerminatedBalances(Drain(k));
    }
  }

  lemma {:induction false} FreeTerminatedRuns(k: Kernel)
    requires Sized(k)
    ensures FreeTerminated(k).system == k.system
    decreases |k.dead|
  {
    if k.dead != [] {
      FreeTerminatedRuns(Drain(k));
    }
  }

  /** A switch frees every stack that awaits it, and stops the system exactly when only idle is left. */
  lemma SchedulerBalances(k: Kernel, start: nat)
    requires SchedInv(k) && Balanced(k) && start < PRIORITY_LEVELS
    ensures var r := Scheduler(k, start); Balanced(r) && r.dead == [] && Live(r) == Live(k)
    ensures k.system ==> (!Scheduler(k, start).system <==> Live(k) == {})
    ensures forall i :: 1 <= i < MAX_PROCESSES ==> (Scheduler(k, start).table[i].stack <==> i in Live(k))
  {
    var k1 := FreeTerminated(k);
    var r := Scheduler(k, start);
    FreeTerminatedBalances(k);
    FreeTerminatedKeeps(k);
    FreeTerminatedRuns(k);
    if k1.system && k1.count > 1 {
      SwitchCounts(k1, start);
    } else {
      SameTableCounts(k1, r);
    }
    SameCountsBalance(k1, r);
    SwitchLeavesSystem(k1, start);
    assert |Live(k)| == 0 <==> Live(k) == {};
    forall i | 1 <= i < MAX_PROCESSES
      ensures r.table[i].stack <==> i in Live(k)
    {
      assert Alive(r, i) <==> i in Live(r);
    }
  }

  lemma SwitchLeavesSystem(k: Kernel, start: nat)
    requires Sized(k) && start < PRIORITY_LEVELS
    ensures GetNext(SetNext(k), start).system == k.system
  {
  }

  // ---------------------------------------------------------------- semaphores

  lemma SemPostCounts(k: Kernel, s: int)
    requires SchedInv(k)
    ensures SameCounts(k, SemPost(k, s))
  {
    SameTableCounts(k, k);
    if !InvalidSem(k, s) {
      SemPostIs(k, s);
      var k1 := SetSem(k, s, Posted(k.sems[s]));
      var pid := k.sems[s].waiting[k.sems[s].cur];
      SetSemKeeps(k, s, Posted(k.sems[s]));
      SameTableCounts(k, k1);
      WakeCounts(k1, pid);
      SameCountsChains(k, k1, Wake(k1, pid).0);
    }
  }

  lemma SemWaitCounts(k: Kernel, s: int)
    requires SchedInv(k)
    ensures SameCounts(k, SemWait(k, s).0)
  {
    SameTableCounts(k, k);
    if !InvalidSem(k, s) {
      SemWaitIs(k, s);
      var k1 := SetSem(k, s, Queued(k.sems[s], CurrentPid(k)));
      SameTableCounts(k, k1);
      BlockCounts(k1, CurrentPid(k));
      SameCountsChains(k, k1, Block(k1, CurrentPid(k)).0);
      SameTableCounts(k, SetSem(k, s, k.sems[s].(value := if k.sems[s].value > 0 then k.sems[s].value - 1 else 0)));
    }
  }

  lemma WakeOneCounts(k: Kernel, s: int)
    requires SchedInv(k) && 0 <= s < MAX_SEMAPHORES
    ensures SameCounts(k, WakeOne(k, s))
  {
    var pid := k.sems[s].waiting[k.sems[s].cur];
    SameTableCounts(k, k);
    WakeCounts(k, pid);
    var k1 := if pid != NOT_A_PROCESS then Wake(k, pid).0 else k;
    SameTableCounts(k1, WakeOne(k, s));
    SameCountsChains(k, k1, WakeOne(k, s));
  }

  lemma WakeAllCounts(k: Kernel, s: int)
    requires SchedInv(k) && 0 <= s < MAX_SEMAPHORES
    ensures SameCounts(k, WakeAll(k, s))
  {
    var inv := (k1: Kernel) => SchedInv(k1) && SameCounts(k, k1);
    SameTableCounts(k, k);
    forall k1 | inv(k1)
      ensures Sized(k1) && inv(Turn(k1, s))
    {
      WakeOneKeeps(k1, s);
      WakeOneCounts(k1, s);
      SameCountsChains(k, k1, WakeOne(k1, s));
    }
    WakeAllKeepsWhat(k, s, inv);
  }

  lemma DestroySemCounts(k: Kernel, s: int)
    requires SchedInv(k)
    ensures SameCounts(k, DestroySem(k, s))
  {
    SameTableCounts(k, k);
    if !InvalidSem(k, s) {
      WakeAllCounts(k, s);
      SameTableCounts(WakeAll(k, s), DestroySem(k, s));
      SameCountsChains(k, WakeAll(k, s), DestroySem(k, s));
    }
  }

  lemma SetSemWaitCounts(k: Kernel, i: nat, s: int)
    requires Sized(k) && i < MAX_PROCESSES
    ensures SameCounts(k, SetPcb(k, i, k.table[i].(semWait := s)))
  {
    MovedCounts(k, i, k.table[i].(semWait := s), false);
  }

  lemma JoinBeginCounts(k: Kernel, pid: nat)
    requires SchedInv(k)
    ensures SameCounts(k, JoinBegin(k, pid).0)
  {
    var (k1, s) := CreateSem(k, 0);
    SameTableCounts(k, k);
    SameTableCounts(k, k1);
    var i := Slot(k, pid);
    if i < MAX_PROCESSES {
      SetSemWaitCounts(k1, i, s);
      SameCountsChains(k, k1, SetPcb(k1, i, k1.table[i].(semWait := s)));
    }
  }

  lemma JoinEndCounts(k: Kernel, i: nat)
    requires SchedInv(k) && i < MAX_PROCESSES
    ensures SameCounts(k, JoinEnd(k, i))
  {
    var k1 := DestroySem(k, k.table[i].semWait);
    DestroySemCounts(k, k.table[i].semWait);
    SetSemWaitCounts(k1, i, -1);
    SameCountsChains(k, k1, JoinEnd(k, i));
  }

  lemma SemWaitFromBalances(k: Kernel, c: Cont, start: nat)
    requires SchedInv(k) && Balanced(k) && start < PRIORITY_LEVELS && (c.InJoin? ==> c.child < MAX_PROCESSES)
    ensures Balanced(SemWaitFrom(k, c, start))
  {
    var (k1, done) := SemWait(k, c.sem);
    SemWaitKeeps(k, c.sem);
    SemWaitCounts(k, c.sem);
    var k2 := if done then k1.(conts := k1.conts - {k1.current}) else k1.(conts := k1.conts[k1.current := c]);
    OtherFields(k1, k2);
    SameTableCounts(k1, k2);
    SameCountsChains(k, k1, k2);
    SameCountsBalance(k, k2);
    if !done {
      SchedulerBalances(k2, start);
    } else if c.InJoin? {
      JoinEndCounts(k2, c.child);
      SameCountsBalance(k2, JoinEnd(k2, c.child));
    }
  }

  // ---------------------------------------------------------------- creation and termination

  /** create_process keeps the balance exactly when it does not fail after claiming a slot, and the slot it
      claims does not still await cleanup. */
  lemma CreateBalancesExactlyWhen(k: Kernel, stack: bool, foreground: bool)
    requires SchedInv(k) && Balanced(k)
    ensures Balanced(Create(k, stack, foreground).0) <==>
      !Claims(k) || (!ClaimFails(k, stack) && FindTerminated(k.table, 1) !in k.dead)
  {
    var r := Create(k, stack, foreground).0;
    var i := FindTerminated(k.table, 1);
    if Claims(k) {
      ClaimedIsLive(k, stack, foreground);
      if !ClaimFails(k, stack) && i !in k.dead {
        CreateBalances(k, stack, foreground);
      } else if !ClaimFails(k, stack) {
        assert i in r.dead && Alive(r, i);
      }
    }
  }

  lemma ClaimedIsLive(k: Kernel, stack: bool, foreground: bool)
    requires SchedInv(k) && Claims(k)
    ensures var i := FindTerminated(k.table, 1); var r := Create(k, stack, foreground).0;
      1 <= i < MAX_PROCESSES && !Alive(k, i) && Alive(r, i) && r.dead == k.dead
    ensures var i := FindTerminated(k.table, 1); var r := Create(k, stack, foreground).0;
      Live(r) == Live(k) + {i} && i !in Live(k) && |Live(r)| == |Live(k)| + 1
    ensures var r := Create(k, stack, foreground).0; r.count == if ClaimFails(k, stack) then k.count else k.count + 1
  {
    var i := FindTerminated(k.table, 1);
    var r := Create(k, stack, foreground).0;
    CreateIs(k, stack, foreground);
    forall j: nat
      ensures j in Live(r) <==> j in Live(k) + {i}
    {
      if j < MAX_PROCESSES && j != i {
        assert SlotKin(k, r, j);
      }
    }
    assert Live(r) == Live(k) + {i};
  }

  lemma CreateBalances(k: Kernel, stack: bool, foreground: bool)
    requires SchedInv(k) && Balanced(k) && Claims(k) && !ClaimFails(k, stack)
    requires FindTerminated(k.table, 1) !in k.dead
    ensures Balanced(Create(k, stack, foreground).0)
  {
    var i := FindTerminated(k.table, 1);
    var r := Create(k, stack, foreground).0;
    CreateIs(k, stack, foreground);
    ClaimedIsLive(k, stack, foreground);
    ClaimedBalances(k, r, i);
  }

  lemma ClaimedBalances(k: Kernel, r: Kernel, i: nat)
    requires Balanced(k) && Sized(r) && 1 <= i < MAX_PROCESSES && i !in k.dead && ClaimedIn(k, r, i, true) && !Alive(k, i)
    requires r.dead == k.dead && r.count == k.count + 1 && Live(r) == Live(k) + {i} && i !in Live(k)
    ensures Balanced(r)
  {
    forall j: nat | j < MAX_PROCESSES && j != i
      ensures (Alive(r, j) <==> Alive(k, j)) && r.table[j].stack == k.table[j].stack
    {
      assert SlotKin(k, r, j);
    }
  }

  /** kill_process keeps the balance exactly when its victim was alive. */
  lemma KillBalancesExactlyWhen(k: Kernel, pid: nat)
    requires SchedInv(k) && Balanced(k) && Kill(k, pid).1 == 0
    ensures Balanced(Kill(k, pid).0) <==> k.table[Slot(k, pid)].state != Terminated
  {
    KilledLive(k, pid);
    if Alive(k, Slot(k, pid)) {
      BuriedBalances(k, Kill(k, pid).0, Slot(k, pid));
    }
  }

  lemma BuriedBalances(k: Kernel, r: Kernel, i: nat)
    requires Balanced(k) && Sized(r) && i < MAX_PROCESSES && Alive(k, i)
    requires r.count == k.count && r.dead == k.dead + [i] && Live(r) == Live(k) - {i}
    requires forall j {:trigger KilledSlot(k, r, i, j)} :: 0 <= j < MAX_PROCESSES ==> KilledSlot(k, r, i, j)
    ensures Balanced(r)
  {
    assert i in Live(k);
    forall x | x in r.dead
      ensures 1 <= x < MAX_PROCESSES && !Alive(r, x) && r.table[x].stack
    {
      assert x in k.dead || x == i;
      assert KilledSlot(k, r, i, x);
    }
    forall j | 1 <= j < MAX_PROCESSES
      ensures (Alive(r, j) ==> r.table[j].stack) && (!Alive(r, j) && j !in r.dead ==> !r.table[j].stack)
    {
      assert KilledSlot(k, r, i, j);
      assert j in k.dead ==> j in r.dead;
      assert r.dead[|k.dead|] == i;
    }
  }

  ghost predicate KilledSlot(k: Kernel, r: Kernel, i: nat, j: nat)
    requires Sized(k) && Sized(r) && i < MAX_PROCESSES && j < MAX_PROCESSES
  {
    (Alive(r, j) <==> Alive(k, j) && j != i) && r.table[j].stack == k.table[j].stack
  }

  lemma TerminateCounts(k: Kernel, i: nat)
    requires SchedInv(k) && 1 <= i < MAX_PROCESSES
    ensures Terminate(k, i).count == k.count && Terminate(k, i).dead == k.dead
    ensures forall j {:trigger KilledSlot(k, Terminate(k, i), i, j)} :: 0 <= j < MAX_PROCESSES ==> KilledSlot(k, Terminate(k, i), i, j)
  {
    var r := Terminate(k, i);
    TerminateIs(k, i);
    forall j | 0 <= j < MAX_PROCESSES
      ensures KilledSlot(k, r, i, j)
    {
      assert j != i ==> SlotKin(k, r, j);
    }
  }

  lemma KilledLive(k: Kernel, pid: nat)
    requires SchedInv(k) && Kill(k, pid).1 == 0
    ensures var r := Kill(k, pid).0; r.count == k.count && r.dead == k.dead + [Slot(k, pid)]
    ensures 1 <= Slot(k, pid) < MAX_PROCESSES
    ensures forall j {:trigger KilledSlot(k, Kill(k, pid).0, Slot(k, pid), j)} :: 0 <= j < MAX_PROCESSES ==> KilledSlot(k, Kill(k, pid).0, Slot(k, pid), j)
    ensures Live(Kill(k, pid).0) == Live(k) - {Slot(k, pid)}
  {
    var i := Slot(k, pid);
    KillIs(k, pid);
    var k2 := Terminate(k, i);
    TerminateKeeps(k, i);
    TerminateCounts(k, i);
    SemPostCounts(k2, k.table[i].semWait);
    SameTableCounts(k2, k2);
    var k3 := if k.table[i].semWait != -1 then SemPost(k2, k.table[i].semWait) else k2;
    var r := Kill(k, pid).0;
    forall j | 0 <= j < MAX_PROCESSES
      ensures KilledSlot(k, r, i, j)
    {
      assert KilledSlot(k, k2, i, j) && SlotCounts(k2, k3, j);
    }
    forall j: nat
      ensures j in Live(r) <==> j in Live(k) - {i}
    {
      if j < MAX_PROCESSES {
        assert KilledSlot(k, r, i, j);
      }
    }
  }

  // ---------------------------------------------------------------- runs

  /** What a run must avoid for the books to balance: killing what is dead already, and a creation that
      fails after claiming a slot or claims one that still awaits cleanup. */
  predicate Balances(k: Kernel, e: Event)
    requires Sized(k)
  {
    && Careful(k, e)
    && (e.MainCreate? || e.SysCreate? ==> Claims(k) ==> !ClaimFails(k, e.stack) && FindTerminated(k.table, 1) !in k.dead)
    && (e.SysKill? || e.KeyKill? ==> Slot(k, e.pid) < MAX_PROCESSES ==> k.table[Slot(k, e.pid)].state != Terminated)
    && (e.SysExit? ==> k.table[k.current].state != Terminated)
  }

  lemma ProcessCallBalances(k: Kernel, e: Event)
    requires SchedInv(k) && Balanced(k) && Possible(k, e) && (e.SysBlock? || e.SysWake? || e.SysToggle? || e.SysPriority?)
    ensures Balanced(Apply(k, e))
  {
    var r := Apply(k, e);
    SameTableCounts(k, k);
    match e {
      case SysBlock(pid) => BlockCounts(k, pid);
      case SysWake(pid) => WakeCounts(k, pid);
      case SysToggle(pid) => ToggleCounts(k, pid);
      case SysPriority(pid, priority) => ChangePriorityCounts(k, pid, priority);
    }
    SameCountsBalance(k, r);
  }

  lemma SwitchCallBalances(k: Kernel, e: Event)
    requires SchedInv(k) && Balanced(k) && Possible(k, e) && (e.Tick? || e.Yield? || e.SysSleep?)
    ensures Balanced(Apply(k, e))
  {
    match e {
      case Tick(start) =>
        TimerTickCounts(k);
        TimerTickKeeps(k);
        SameCountsBalance(k, TimerTick(k));
        SchedulerBalances(TimerTick(k), start);
      case Yield(start) => SchedulerBalances(k, start);
      case SysSleep(seconds, start) =>
        SleepCounts(k, seconds);
        SleepKeeps(k, seconds);
        SameCountsBalance(k, Sleep(k, seconds).0);
        SchedulerBalances(Sleep(k, seconds).0, start);
    }
  }

  lemma SemCallBalances(k: Kernel, e: Event)
    requires SchedInv(k) && Balanced(k) && Possible(k, e) && (e.SysSemOpen? || e.SysSemClose? || e.SysSemPost?)
    ensures Balanced(Apply(k, e))
  {
    var r := Apply(k, e);
    match e {
      case SysSemOpen(value) => SameTableCounts(k, r);
      case SysSemClose(s) => DestroySemCounts(k, s);
      case SysSemPost(s) => SemPostCounts(k, s);
    }
    SameCountsBalance(k, r);
  }

  lemma KillCallBalances(k: Kernel, pid: nat)
    requires SchedInv(k) && Balanced(k) && (Slot(k, pid) < MAX_PROCESSES ==> k.table[Slot(k, pid)].state != Terminated)
    ensures SchedInv(Kill(k, pid).0) && Balanced(Kill(k, pid).0)
  {
    KillKeeps(k, pid);
    if Kill(k, pid).1 == 0 {
      KillBalancesExactlyWhen(k, pid);
    }
  }

  lemma ExitCallBalances(k: Kernel, e: Event)
    requires SchedInv(k) && Balanced(k) && Possible(k, e) && Balances(k, e) && e.SysExit?
    ensures Balanced(Apply(k, e))
  {
    var k1 := SetExit(k, e.status);
    SetExitOnly(k, e.status);
    KinOnlyKeeps(k, k1);
    KinCounts(k, k1);
    SameCountsBalance(k, k1);
    assert SlotKin(k, k1, k.current);
    SlotIs(k1, k.current);
    KillCallBalances(k1, CurrentPid(k));
    SchedulerBalances(Kill(k1, CurrentPid(k)).0, e.start);
  }

  lemma EndCallBalances(k: Kernel, e: Event)
    requires SchedInv(k) && Balanced(k) && Possible(k, e) && Balances(k, e) && (e.SysKill? || e.KeyKill? || e.SysExit?)
    ensures Balanced(Apply(k, e))
  {
    if e.SysExit? {
      ExitCallBalances(k, e);
    } else {
      KillCallBalances(k, e.pid);
      if e.SysKill? {
        SchedulerBalances(Kill(k, e.pid).0, e.start);
      }
    }
  }

  lemma JoinBalances(k: Kernel, pid: nat, start: nat)
    requires SchedInv(k) && Balanced(k) && start < PRIORITY_LEVELS
    ensures Balanced(WaitFor(k, pid, start))
  {
    var (k1, s, i) := JoinBegin(k, pid);
    JoinBeginKeeps(k, pid);
    JoinBeginCounts(k, pid);
    SameCountsBalance(k, k1);
    if s != -1 {
      SemWaitFromBalances(k1, InJoin(s, i), start);
    }
  }

  lemma JoinCallBalances(k: Kernel, e: Event)
    requires SchedInv(k) && Balanced(k) && Possible(k, e) && e.SysJoin?
    ensures Balanced(Apply(k, e))
  {
    JoinBalances(k, e.pid, e.start);
  }

  lemma CreateCallBalances(k: Kernel, e: Event)
    requires SchedInv(k) && Balanced(k) && Possible(k, e) && Balances(k, e) && (e.MainCreate? || e.SysCreate?)
    ensures Balanced(Apply(k, e))
  {
    var foreground := e.MainCreate? || e.foreground;
    CreateBalancesExactlyWhen(k, e.stack, foreground);
    CreateKeeps(k, e.stack, foreground);
    if e.SysCreate? && foreground {
      var (k1, pid) := Create(k, e.stack, true);
      JoinBalances(k1, AsPid(pid), e.start);
    }
  }

  lemma WaitCallBalances(k: Kernel, e: Event)
    requires SchedInv(k) && Balanced(k) && Possible(k, e) && (e.SysSemWait? || e.Resume?)
    ensures Balanced(Apply(k, e))
  {
    SemWaitFromBalances(k, if e.SysSemWait? then InWait(e.sem) else k.conts[k.current], e.start);
  }

  lemma StepBalances(k: Kernel, e: Event)
    requires SchedInv(k) && Balanced(k) && Possible(k, e) && Balances(k, e)
    ensures Balanced(Apply(k, e))
  {
    if e.SysBlock? || e.SysWake? || e.SysToggle? || e.SysPriority? {
      ProcessCallBalances(k, e);
    } else if e.Tick? || e.Yield? || e.SysSleep? {
      SwitchCallBalances(k, e);
    } else if e.MainCreate? || e.SysCreate? {
      CreateCallBalances(k, e);
    } else if e.SysKill? || e.KeyKill? || e.SysExit? {
      EndCallBalances(k, e);
    } else if e.SysSemOpen? || e.SysSemClose? || e.SysSemPost? {
      SemCallBalances(k, e);
    } else if e.SysJoin? {
      JoinCallBalances(k, e);
    } else {
      WaitCallBalances(k, e);
    }
  }

  ghost predicate BalancedRun(k: Kernel, es: seq<Event>)
    requires Sized(k)
    decreases |es|
  {
    es == [] || (Possible(k, es[0]) && Balances(k, es[0]) && BalancedRun(Apply(k, es[0]), es[1..]))
  }

  lemma {:induction false} BalancedIsCareful(k: Kernel, es: seq<Event>)
    requires Sized(k) && BalancedRun(k, es)
    ensures CarefulRun(k, es)
    decreases |es|
  {
    if es != [] {
      BalancedIsCareful(Apply(k, es[0]), es[1..]);
    }
  }

  /** In every state of a run the count is one more than the live processes and those awaiting cleanup,
      and exactly these own a stack. */
  lemma {:induction false} RunBalances(k: Kernel, es: seq<Event>)
    requires SchedInv(k) && Balanced(k) && BalancedRun(k, es) && CarefulRun(k, es)
    ensures Balanced(Run(k, es))
    decreases |es|
  {
    if es != [] {
      StepKeeps(k, es[0]);
      StepBalances(k, es[0]);
      RunBalances(Apply(k, es[0]), es[1..]);
    }
  }

  lemma BootBalances()
    ensures SchedInv(Boot()) && Balanced(Boot())
  {
    assert Live(Boot()) == {};
  }

  /** So in every state of every such run of the kernel from its start. */
  lemma KernelBalances(es: seq<Event>)
    requires BalancedRun(Boot(), es)
    ensures CarefulRun(Boot(), es) && Balanced(Run(Boot(), es))
  {
    BootBalances();
    BalancedIsCareful(Boot(), es);
    RunBalances(Boot(), es);
  }
}
