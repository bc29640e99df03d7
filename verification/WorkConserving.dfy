/** When a switch selects idle: only if nobody else is ready, unless idle itself was put on a queue. */
module WorkConserving {
  import opened KernelState
  import opened KernelRuns
  import opened SchedulerProofs
  import opened AccountingProofs
  import opened SleepProofs

  // ---------------------------------------------------------------- what is picked

  predicate NoneRunnable(k: Kernel, q: nat)
    requires Sized(k) && q < PRIORITY_LEVELS
  {
    forall j :: 0 <= j < |k.ready[q]| ==> !Runnable(k, q, k.ready[q][j])
  }

  /** The process in slot i has the first runnable entry of queue q. */
  predicate Heads(k: Kernel, q: nat, i: nat)
    requires Sized(k) && q < PRIORITY_LEVELS
  {
    exists j :: 0 <= j < |k.ready[q]| && k.ready[q][j] == i && Runnable(k, q, i) && forall l :: 0 <= l < j ==> !Runnable(k, q, k.ready[q][l])
  }

  // The first runnable entry of three queues, tried in order, is one of the process in slot i.
  predicate FirstOf(k: Kernel, q: nat, q1: nat, q2: nat, i: nat)
    requires Sized(k) && q < PRIORITY_LEVELS && q1 < PRIORITY_LEVELS && q2 < PRIORITY_LEVELS
  {
    Heads(k, q, i) || (NoneRunnable(k, q) && (Heads(k, q1, i) || (NoneRunnable(k, q1) && Heads(k, q2, i))))
  }

  /** The first runnable entry of the ready queues, tried from queue q on, is one of the process in slot i. */
  predicate First(k: Kernel, q: nat, i: nat)
    requires Sized(k) && q < PRIORITY_LEVELS
  {
    FirstOf(k, q, (q + 1) % PRIORITY_LEVELS, (q + 2) % PRIORITY_LEVELS, i)
  }

  lemma {:induction false} DequeueHeads(k: Kernel, q: nat)
    requires Sized(k) && q < PRIORITY_LEVELS
    ensures var i := DequeueRunnable(k, q).1; if i < MAX_PROCESSES then Heads(k, q, i) else NoneRunnable(k, q)
    decreases |k.ready[q]|
  {
    if k.ready[q] != [] {
      var k1 := k.(ready := k.ready[q := k.ready[q][1..]]);
      if Runnable(k, q, k.ready[q][0]) {
        assert Heads(k, q, k.ready[q][0]);
      } else {
        DequeueHeads(k1, q);
        assert DequeueRunnable(k, q) == DequeueRunnable(k1, q);
        RestHeads(k, k1, q, DequeueRunnable(k1, q).1);
      }
    }
  }

  lemma RestHeads(k: Kernel, k1: Kernel, q: nat, i: nat)
    requires Sized(k) && q < PRIORITY_LEVELS && k.ready[q] != [] && k1 == k.(ready := k.ready[q := k.ready[q][1..]])
    requires !Runnable(k, q, k.ready[q][0])
    ensures Heads(k1, q, i) ==> Heads(k, q, i)
    ensures NoneRunnable(k1, q) ==> NoneRunnable(k, q)
  {
    assert forall l :: 1 <= l < |k.ready[q]| ==> k.ready[q][l] == k1.ready[q][l - 1];
    if Heads(k1, q, i) {
      var j :| 0 <= j < |k1.ready[q]| && k1.ready[q][j] == i && Runnable(k1, q, i) && forall l :: 0 <= l < j ==> !Runnable(k1, q, k1.ready[q][l]);
      assert k.ready[q][j + 1] == i;
      forall l | 0 <= l < j + 1
        ensures !Runnable(k, q, k.ready[q][l])
      {
        assert l > 0 ==> !Runnable(k1, q, k1.ready[q][l - 1]);
      }
    }
  }

  lemma HeadsIsUnique(k: Kernel, q: nat, i: nat, j: nat)
    requires Sized(k) && q < PRIORITY_LEVELS && Heads(k, q, i) && Heads(k, q, j)
    ensures i == j
  {
  }

  lemma HeadsIsRunnable(k: Kernel, q: nat, i: nat)
    requires Sized(k) && q < PRIORITY_LEVELS && Heads(k, q, i)
    ensures !NoneRunnable(k, q) && i < MAX_PROCESSES && k.table[i].state == Ready
  {
  }

  // The first runnable entry of one queue does not depend on the others.
  lemma SameHeads(k: Kernel, k1: Kernel, q: nat, i: nat)
    requires Sized(k) && Sized(k1) && k1.table == k.table && q < PRIORITY_LEVELS && k1.ready[q] == k.ready[q]
    ensures Heads(k1, q, i) <==> Heads(k, q, i)
    ensures NoneRunnable(k1, q) <==> NoneRunnable(k, q)
  {
  }

  // What n tries pick, from what the first of them finds.
  lemma PickTurn(k: Kernel, q: nat, n: nat)
    requires Sized(k) && q < PRIORITY_LEVELS && n > 0
    ensures var (k1, i) := DequeueRunnable(k, q); var p := Pick(k, q, n);
      if i < MAX_PROCESSES then p.1 == i && Heads(k, q, i) else p == Pick(k1, (q + 1) % PRIORITY_LEVELS, n - 1) && NoneRunnable(k, q)
  {
    DequeueHeads(k, q);
  }

  lemma PickIsFirstOf(k: Kernel, q: nat, q1: nat, q2: nat)
    requires Sized(k) && q < PRIORITY_LEVELS && q1 == (q + 1) % PRIORITY_LEVELS && q2 == (q1 + 1) % PRIORITY_LEVELS
    ensures var i := Pick(k, q, 3).1;
      if i < MAX_PROCESSES then FirstOf(k, q, q1, q2, i) else NoneRunnable(k, q) && NoneRunnable(k, q1) && NoneRunnable(k, q2)
  {
    var k1 := DequeueRunnable(k, q).0;
    PickTurn(k, q, 3);
    PickIsSecond(k1, q1, q2);
    SameHeads(k, k1, q1, Pick(k, q, 3).1);
    SameHeads(k, k1, q2, Pick(k, q, 3).1);
  }

  lemma PickIsSecond(k: Kernel, q: nat, q1: nat)
    requires Sized(k) && q < PRIORITY_LEVELS && q1 == (q + 1) % PRIORITY_LEVELS
    ensures var i := Pick(k, q, 2).1;
      if i < MAX_PROCESSES then Heads(k, q, i) || (NoneRunnable(k, q) && Heads(k, q1, i)) else NoneRunnable(k, q) && NoneRunnable(k, q1)
  {
    var k1 := DequeueRunnable(k, q).0;
    PickTurn(k, q, 2);
    PickTurn(k1, q1, 1);
    SameHeads(k, k1, q1, Pick(k, q, 2).1);
  }

  /** get_next_process picks the first runnable entry, and none when there is none. */
  lemma PickIsFirst(k: Kernel, q: nat)
    requires Sized(k) && q < PRIORITY_LEVELS
    ensures var i := Pick(k, q, 3).1;
      if i < MAX_PROCESSES then First(k, q, i) else NoneRunnable(k, 0) && NoneRunnable(k, 1) && NoneRunnable(k, 2)
  {
    PickIsFirstOf(k, q, (q + 1) % PRIORITY_LEVELS, (q + 2) % PRIORITY_LEVELS);
  }

  lemma FirstIsUnique(k: Kernel, q: nat, i: nat, j: nat)
    requires Sized(k) && q < PRIORITY_LEVELS && First(k, q, i) && First(k, q, j)
    ensures i == j
  {
    forall x | 0 <= x < PRIORITY_LEVELS
      ensures Heads(k, x, i) ==> !NoneRunnable(k, x)
      ensures Heads(k, x, j) ==> !NoneRunnable(k, x)
      ensures Heads(k, x, i) && Heads(k, x, j) ==> i == j
    {
      if Heads(k, x, i) {
        HeadsIsRunnable(k, x, i);
        if Heads(k, x, j) {
          HeadsIsUnique(k, x, i, j);
        }
      }
      if Heads(k, x, j) {
        HeadsIsRunnable(k, x, j);
      }
    }
  }

  // ---------------------------------------------------------------- when idle is picked

  /** Nobody but idle is ready. */
  predicate NobodyReady(k: Kernel)
    requires Sized(k)
  {
    forall i :: 1 <= i < MAX_PROCESSES ==> k.table[i].state != Ready
  }

  lemma EntryIsRunnable(k: Kernel, i: nat)
    requires Sized(k) && NoneLost(k) && 1 <= i < MAX_PROCESSES && k.table[i].state == Ready
    ensures !NoneRunnable(k, k.table[i].priority)
  {
    assert HasEntry(k, i);
    var j :| 0 <= j < |k.ready[k.table[i].priority]| && k.ready[k.table[i].priority][j] == i;
    assert Runnable(k, k.table[i].priority, k.ready[k.table[i].priority][j]);
  }

  lemma NoneRunnableNobody(k: Kernel)
    requires Sized(k) && NoneLost(k) && NoneRunnable(k, 0) && NoneRunnable(k, 1) && NoneRunnable(k, 2)
    ensures NobodyReady(k)
  {
    forall j | 1 <= j < MAX_PROCESSES
      ensures k.table[j].state != Ready
    {
      if k.table[j].state == Ready {
        EntryIsRunnable(k, j);
        assert false;
      }
    }
  }

  lemma FirstIsRunnable(k: Kernel, q: nat, i: nat)
    requires Sized(k) && q < PRIORITY_LEVELS && First(k, q, i)
    ensures !(NoneRunnable(k, 0) && NoneRunnable(k, 1) && NoneRunnable(k, 2))
  {
    var x :| 0 <= x < PRIORITY_LEVELS && Heads(k, x, i);
    HeadsIsRunnable(k, x, i);
  }

  lemma FirstIsReady(k: Kernel, q: nat, i: nat)
    requires Sized(k) && q < PRIORITY_LEVELS && First(k, q, i)
    ensures i < MAX_PROCESSES && k.table[i].state == Ready
  {
    var x :| 0 <= x < PRIORITY_LEVELS && Heads(k, x, i);
    HeadsIsRunnable(k, x, i);
  }

  lemma NextIsPicked(k: Kernel, start: nat)
    requires Sized(k) && start < PRIORITY_LEVELS
    ensures var i := Pick(k, start, 3).1; GetNext(k, start).current == if i < MAX_PROCESSES then i else 0
    ensures var r := GetNext(k, start); r.table == k.table[r.current := k.table[r.current].(state := Running)]
  {
    assert |k.ready| == 3;
  }

  lemma NextIsIdleExactlyWhen(k: Kernel, start: nat)
    requires SchedInv(k) && start < PRIORITY_LEVELS
    ensures GetNext(k, start).current == 0 <==> First(k, start, 0) || NobodyReady(k)
  {
    NextIsPicked(k, start);
    PickIsFirst(k, start);
    var i := Pick(k, start, 3).1;
    if i < MAX_PROCESSES {
      FirstIsReady(k, start, i);
      if First(k, start, 0) {
        FirstIsUnique(k, start, 0, i);
      }
    } else {
      NoneRunnableNobody(k);
      if First(k, start, 0) {
        FirstIsRunnable(k, start, 0);
      }
    }
  }

  // What the queues are like when the switch looks at them.
  function Queued(k: Kernel): Kernel
    requires Sized(k)
  {
    SetNext(FreeTerminated(k))
  }

  /** A switch gives the processor to idle exactly when no other process is ready or was running, or when
      the first runnable entry of the queues, in the order in which they are tried, is one of idle's. */
  lemma WorkConservingExactlyWhen(k: Kernel, start: nat)
    requires SchedInv(k) && start < PRIORITY_LEVELS && Scheduler(k, start).system
    ensures Scheduler(k, start).current == 0 <==> First(Queued(k), start, 0) || NobodyReady(Queued(k))
    ensures Scheduler(k, start).current == 0 && !First(Queued(k), start, 0) ==> NobodyReady(Scheduler(k, start))
  {
    var k1 := FreeTerminated(k);
    FreeTerminatedKeeps(k);
    SetNextKeeps(k1);
    NextIsIdleExactlyWhen(Queued(k), start);
    NextIsPicked(Queued(k), start);
  }

  // ---------------------------------------------------------------- runs that do not queue idle

  /** Idle has no entry, is on no ring and was not switched out in sem_wait, and whoever else has the
      processor has a pid. */
  ghost predicate IdleOff(k: Kernel)
    requires Sized(k)
  {
    && (forall q :: 0 <= q < PRIORITY_LEVELS ==> 0 !in k.ready[q])
    && (forall s :: 0 <= s < MAX_SEMAPHORES ==> 0 !in k.sems[s].waiting)
    && (k.current != 0 ==> CurrentPid(k) != 0)
    && 0 !in k.conts
  }

  /** The calls that put idle on a queue: a change of its priority while it is ready, and unblocking it. */
  predicate QueuesIdle(k: Kernel, e: Event)
    requires Sized(k)
  {
    match e
    case SysPriority(pid, priority) => pid == 0 && priority < PRIORITY_LEVELS && k.table[0].priority != priority && k.table[0].state == Ready
    case SysWake(pid) => pid == 0 && CurrentPid(k) != 0 && IdleWakesReady(k)
    case SysToggle(pid) => pid == 0 && CurrentPid(k) != 0 && IdleWakesReady(k)
    case _ => false
  }

  predicate IdleWakesReady(k: Kernel)
    requires Sized(k)
  {
    k.table[0].state == Blocked && (k.table[0].previous == Ready || (k.table[0].previous == Sleeping && Expire(k, 0).1))
  }

  // Everything is as before but for entries of others than idle.
  ghost predicate NoIdleEntry(k: Kernel, r: Kernel)
    requires Sized(k) && Sized(r)
  {
    && r.sems == k.sems && r.conts == k.conts && SameCurrent(k, r)
    && forall q {:trigger r.ready[q]} :: 0 <= q < PRIORITY_LEVELS ==> 0 in r.ready[q] ==> 0 in k.ready[q]
  }

  lemma NoIdleEntryChains(a: Kernel, b: Kernel, c: Kernel)
    requires Sized(a) && Sized(b) && Sized(c) && NoIdleEntry(a, b) && NoIdleEntry(b, c)
    ensures NoIdleEntry(a, c)
  {
    forall q | 0 <= q < PRIORITY_LEVELS && 0 in c.ready[q]
      ensures 0 in a.ready[q]
    {
      assert 0 in b.ready[q];
    }
  }

  lemma StaysOff(k: Kernel, r: Kernel)
    requires Sized(k) && Sized(r) && IdleOff(k) && NoIdleEntry(k, r)
    ensures IdleOff(r)
  {
  }

  lemma MovedOff(k: Kernel, i: nat, p: Pcb, enqueue: bool)
    requires Sized(k) && i < MAX_PROCESSES && p.priority < PRIORITY_LEVELS && p.pid == k.table[i].pid && KinSized(p.kin)
    requires enqueue ==> i != 0
    ensures Sized(Moved(k, i, p, enqueue)) && NoIdleEntry(k, Moved(k, i, p, enqueue))
  {
  }

  lemma BlockOff(k: Kernel, pid: nat)
    requires Sized(k)
    ensures NoIdleEntry(k, Block(k, pid).0)
  {
    if Block(k, pid).1 == 0 {
      var i := Slot(k, pid);
      MovedOff(k, i, BlockSlot(k, i).table[i], false);
    }
  }

  // The slot of a pid other than 0 is not idle's.
  lemma NotIdle(k: Kernel, pid: nat)
    requires Sized(k) && PidsOk(k) && pid != 0
    ensures Slot(k, pid) != 0
  {
  }

  lemma WakeOff(k: Kernel, pid: nat)
    requires SchedInv(k) && pid != 0
    ensures NoIdleEntry(k, Wake(k, pid).0)
  {
    NotIdle(k, pid);
    if Wake(k, pid).1 == 0 {
      var i := Slot(k, pid);
      var p := k.table[i];
      var k1 := if p.previous == Sleeping then Expire(k, p.pid).0 else k;
      var r := Wake(k, pid).0;
      var p1 := r.table[i];
      assert r == Moved(k1, i, p1, p1.state == Ready);
      MovedOff(k1, i, p1, p1.state == Ready);
      NoIdleEntryChains(k, k1, r);
    }
  }

  lemma ChangePriorityOff(k: Kernel, pid: nat, priority: nat)
    requires SchedInv(k) && pid != 0
    ensures NoIdleEntry(k, ChangePriority(k, pid, priority).0)
  {
    NotIdle(k, pid);
    var i := Slot(k, pid);
    if priority < PRIORITY_LEVELS && i < MAX_PROCESSES && k.table[i].priority != priority {
      var p := k.table[i].(priority := priority);
      MovedOff(k, i, p, p.state == Ready);
    }
  }

  /** A call that concerns idle puts it on a queue exactly when it is one of those above. */
  lemma CallQueuesIdleExactlyWhen(k: Kernel, e: Event)
    requires SchedInv(k) && IdleOff(k) && Possible(k, e) && (e.SysPriority? || e.SysWake? || e.SysToggle?)
    ensures IdleOff(Apply(k, e)) <==> !QueuesIdle(k, e)
  {
    if e.pid != 0 {
      OtherCallOff(k, e);
      StaysOff(k, Apply(k, e));
    } else {
      SlotIs(k, 0);
      match e {
        case SysPriority(pid, priority) => PriorityOfIdle(k, priority);
        case SysWake(pid) => WakeOfIdle(k);
        case SysToggle(pid) => WakeOfIdle(k); BlockOff(k, 0); StaysOff(k, Block(k, 0).0);
      }
    }
  }

  lemma OtherCallOff(k: Kernel, e: Event)
    requires SchedInv(k) && Possible(k, e) && (e.SysPriority? || e.SysWake? || e.SysToggle?) && e.pid != 0
    ensures NoIdleEntry(k, Apply(k, e))
  {
    match e {
      case SysPriority(pid, priority) => ChangePriorityOff(k, pid, priority);
      case SysWake(pid) => WakeOff(k, pid);
      case SysToggle(pid) => WakeOff(k, pid); BlockOff(k, pid);
    }
  }

  lemma PriorityOfIdle(k: Kernel, priority: nat)
    requires SchedInv(k) && IdleOff(k) && Slot(k, 0) == 0
    ensures IdleOff(ChangePriority(k, 0, priority).0) <==>
      !(priority < PRIORITY_LEVELS && k.table[0].priority != priority && k.table[0].state == Ready)
  {
    var r := ChangePriority(k, 0, priority).0;
    if priority < PRIORITY_LEVELS && k.table[0].priority != priority {
      var p := k.table[0].(priority := priority);
      if k.table[0].state == Ready {
        assert r.ready[priority][|k.ready[priority]|] == 0;
      } else {
        MovedOff(k, 0, p, false);
        StaysOff(k, r);
      }
    }
  }

  lemma WakeOfIdle(k: Kernel)
    requires SchedInv(k) && IdleOff(k) && Slot(k, 0) == 0
    ensures IdleOff(Wake(k, 0).0) <==> !IdleWakesReady(k)
  {
    var r := Wake(k, 0).0;
    if Wake(k, 0).1 == 0 {
      var k1 := if k.table[0].previous == Sleeping then Expire(k, 0).0 else k;
      var p := r.table[0];
      assert r == Moved(k1, 0, p, p.state == Ready);
      if IdleWakesReady(k) {
        assert r.ready[p.priority][|k.ready[p.priority]|] == 0;
      } else {
        MovedOff(k1, 0, p, false);
        NoIdleEntryChains(k, k1, r);
        StaysOff(k, r);
      }
    }
  }

  // ---------------------------------------------------------------- the other entries

  lemma UnsleepOff(k: Kernel, pid: nat)
    requires SchedInv(k) && pid != 0
    ensures NoIdleEntry(k, UnsleepProcess(k, pid).0)
  {
    NotIdle(k, pid);
    if UnsleepProcess(k, pid).1 == 0 {
      var i := Slot(k, pid);
      var p := k.table[i].(state := k.table[i].previous);
      assert UnsleepProcess(k, pid).0 == Moved(k, i, p, p.state == Ready);
      MovedOff(k, i, p, p.state == Ready);
    }
  }

  lemma WakeSleeperOff(k: Kernel, e: nat)
    requires SchedInv(k) && e < MAX_PROCESSES
    ensures NoIdleEntry(k, WakeSleeper(k, e))
  {
    var s := k.sleepers[e];
    if s.pid != 0 && s.time <= k.ticks && IsSleeping(k, s.pid) {
      var k1 := k.(sleepers := k.sleepers[e := SleepEntry(0, 0)]);
      OtherFields(k, k1);
      UnsleepOff(k1, s.pid);
      NoIdleEntryChains(k, k1, WakeSleeper(k, e));
    }
  }

  lemma {:induction false} WakeSleepersOff(k: Kernel, n: nat, r: Kernel)
    requires SchedInv(k) && n <= MAX_PROCESSES && r == WakeSleepers(k, n)
    ensures NoIdleEntry(k, r)
    decreases n
  {
    if n > 0 {
      var k1 := WakeSleepers(k, n - 1);
      WakeSleepersOff(k, n - 1, k1);
      WakeSleepersKeeps(k, n - 1);
      NextSleeperOff(k, k1, n - 1);
    }
  }

  lemma NextSleeperOff(k: Kernel, k1: Kernel, e: nat)
    requires Sized(k) && SchedInv(k1) && NoIdleEntry(k, k1) && e < MAX_PROCESSES
    ensures NoIdleEntry(k, WakeSleeper(k1, e))
  {
    WakeSleeperOff(k1, e);
    NoIdleEntryChains(k, k1, WakeSleeper(k1, e));
  }

  lemma AllSleepersOff(k: Kernel, n: nat)
    requires SchedInv(k) && n == |k.sleepers|
    ensures NoIdleEntry(k, WakeSleepers(k, n))
  {
    WakeSleepersOff(k, n, WakeSleepers(k, n));
  }

  lemma TimerTickOff(k: Kernel)
    requires SchedInv(k)
    ensures NoIdleEntry(k, TimerTick(k))
  {
    var k1 := k.(ticks := k.ticks + 1);
    OtherFields(k, k1);
    AllSleepersOff(k1, |k1.sleepers|);
    TimerTickIs(k, |k.sleepers|);
    NoIdleEntryChains(k, k1, TimerTick(k));
  }

  lemma {:induction false} FreeTerminatedOff(k: Kernel)
    requires Sized(k)
    ensures NoIdleEntry(k, FreeTerminated(k))
    decreases |k.dead|
  {
    if k.dead != [] {
      FreeTerminatedOff(Drain(k));
      NoIdleEntryChains(k, Drain(k), FreeTerminated(k));
    }
  }

  // Dequeuing adds no entry.
  lemma {:induction false} DequeueOff(k: Kernel, q: nat)
    requires Sized(k) && q < PRIORITY_LEVELS
    ensures forall x :: 0 <= x < PRIORITY_LEVELS ==> 0 in DequeueRunnable(k, q).0.ready[x] ==> 0 in k.ready[x]
    decreases |k.ready[q]|
  {
    if k.ready[q] != [] {
      var k1 := k.(ready := k.ready[q := k.ready[q][1..]]);
      DequeueOff(k1, q);
    }
  }

  lemma {:induction false} PickOff(k: Kernel, q: nat, n: nat)
    requires Sized(k) && q < PRIORITY_LEVELS
    ensures forall x :: 0 <= x < PRIORITY_LEVELS ==> 0 in Pick(k, q, n).0.ready[x] ==> 0 in k.ready[x]
    decreases n
  {
    if n > 0 {
      DequeueOff(k, q);
      var (k1, i) := DequeueRunnable(k, q);
      if i == MAX_PROCESSES {
        PickOff(k1, (q + 1) % PRIORITY_LEVELS, n - 1);
      }
    }
  }

  lemma SchedulerOff(k: Kernel, start: nat)
    requires SchedInv(k) && IdleOff(k) && start < PRIORITY_LEVELS
    ensures IdleOff(Scheduler(k, start))
  {
    var k1 := FreeTerminated(k);
    FreeTerminatedOff(k);
    FreeTerminatedKeeps(k);
    if k1.system && k1.count > 1 {
      SetNextKeeps(k1);
      SetNextOff(k1);
      StaysOff(k, SetNext(k1));
      GetNextKeeps(SetNext(k1), start);
      GetNextOff(SetNext(k1), start);
    }
  }

  lemma SetNextOff(k: Kernel)
    requires SchedInv(k)
    ensures NoIdleEntry(k, SetNext(k))
  {
    if !k.firstSwitch && k.table[k.current].state == Running {
      var p := k.table[k.current].(state := Ready);
      assert SetNext(k) == Moved(k, k.current, p, p.pid != 0);
      MovedOff(k, k.current, p, p.pid != 0);
    }
  }

  lemma GetNextOff(k: Kernel, start: nat)
    requires SchedInv(k) && IdleOff(k) && start < PRIORITY_LEVELS
    requires k.table[GetNext(k, start).current].state == Ready || GetNext(k, start).current == 0
    ensures IdleOff(GetNext(k, start))
  {
    PickOff(k, start, |k.ready|);
  }

  lemma SemPostOff(k: Kernel, s: int)
    requires SchedInv(k) && IdleOff(k)
    ensures IdleOff(SemPost(k, s))
  {
    if !InvalidSem(k, s) {
      SemPostIs(k, s);
      var x := k.sems[s];
      var k1 := SetSem(k, s, Posted(x));
      SetSemKeeps(k, s, Posted(x));
      PostedOff(x);
      assert x.waiting[x.cur] in x.waiting;
      WakeOff(k1, x.waiting[x.cur]);
      assert IdleOff(k1);
      StaysOff(k1, Wake(k1, x.waiting[x.cur]).0);
    }
  }

  lemma PostedOff(x: Semaphore)
    requires SemSized(x) && 0 !in x.waiting
    ensures 0 !in Posted(x).waiting
  {
  }

  lemma SemWaitOff(k: Kernel, s: int)
    requires SchedInv(k) && IdleOff(k) && k.current != 0
    ensures IdleOff(SemWait(k, s).0)
  {
    if !InvalidSem(k, s) {
      SemWaitIs(k, s);
      var k1 := SetSem(k, s, SchedulerProofs.Queued(k.sems[s], CurrentPid(k)));
      assert IdleOff(k1);
      BlockOff(k1, CurrentPid(k));
      StaysOff(k1, Block(k1, CurrentPid(k)).0);
    }
  }

  lemma WakeOneOff(k: Kernel, s: int)
    requires SchedInv(k) && IdleOff(k) && 0 <= s < MAX_SEMAPHORES
    ensures IdleOff(WakeOne(k, s))
  {
    var x := k.sems[s];
    assert x.waiting[x.cur] in x.waiting;
    WakeOff(k, x.waiting[x.cur]);
    StaysOff(k, Wake(k, x.waiting[x.cur]).0);
  }

  lemma WakeAllOff(k: Kernel, s: int)
    requires SchedInv(k) && IdleOff(k) && 0 <= s < MAX_SEMAPHORES
    ensures IdleOff(WakeAll(k, s))
  {
    var inv := (k1: Kernel) => SchedInv(k1) && IdleOff(k1);
    forall k1 | inv(k1)
      ensures Sized(k1) && inv(Turn(k1, s))
    {
      WakeOneKeeps(k1, s);
      WakeOneOff(k1, s);
    }
    WakeAllKeepsWhat(k, s, inv);
  }

  lemma DestroySemOff(k: Kernel, s: int)
    requires SchedInv(k) && IdleOff(k)
    ensures IdleOff(DestroySem(k, s))
  {
    if !InvalidSem(k, s) {
      WakeAllOff(k, s);
    }
  }

  lemma KinOff(k: Kernel, r: Kernel)
    requires KinOnly(k, r)
    ensures NoIdleEntry(k, r)
  {
    assert SlotKin(k, r, k.current);
  }

  lemma TerminateOff(k: Kernel, i: nat)
    requires Sized(k) && i < MAX_PROCESSES
    ensures NoIdleEntry(k, Terminate(k, i))
  {
    MovedOff(k, i, k.table[i].(state := Terminated), false);
    assert Fallen(k, i) == Moved(k, i, k.table[i].(state := Terminated), false);
    TerminateIs(k, i);
    KinOff(Fallen(k, i), Terminate(k, i));
    NoIdleEntryChains(k, Fallen(k, i), Terminate(k, i));
  }

  lemma KillOff(k: Kernel, pid: nat)
    requires SchedInv(k) && IdleOff(k)
    ensures IdleOff(Kill(k, pid).0)
  {
    if Kill(k, pid).1 == 0 {
      var i := Slot(k, pid);
      KillIs(k, pid);
      TerminateKeeps(k, i);
      TerminateOff(k, i);
      StaysOff(k, Terminate(k, i));
      SemPostOff(Terminate(k, i), k.table[i].semWait);
    }
  }

  lemma CreateOff(k: Kernel, stack: bool, foreground: bool)
    requires SchedInv(k) && IdleOff(k)
    ensures IdleOff(Create(k, stack, foreground).0)
  {
    if Claims(k) {
      var i := FindTerminated(k.table, 1);
      var r := Create(k, stack, foreground).0;
      CreateIs(k, stack, foreground);
      ClaimedOff(k, r, i, stack);
    }
  }

  lemma ClaimedOff(k: Kernel, r: Kernel, i: nat, stack: bool)
    requires SchedInv(k) && IdleOff(k) && Sized(r) && 1 <= i < MAX_PROCESSES && ClaimedIn(k, r, i, stack)
    requires r.ready == k.ready || r.ready == k.ready[0 := k.ready[0] + [i]]
    requires r.sems == k.sems && r.current == k.current && r.conts == k.conts - {i}
    ensures IdleOff(r)
  {
    assert i != k.current ==> SlotKin(k, r, k.current);
  }

  lemma JoinEndOff(k: Kernel, i: nat)
    requires SchedInv(k) && IdleOff(k) && i < MAX_PROCESSES
    ensures IdleOff(JoinEnd(k, i))
  {
    DestroySemOff(k, k.table[i].semWait);
  }

  lemma SwitchedOff(k: Kernel, r: Kernel)
    requires Sized(k) && Sized(r) && IdleOff(k) && r == k.(conts := r.conts) && 0 !in r.conts
    ensures IdleOff(r)
  {
  }

  lemma SemWaitFromOff(k: Kernel, c: Cont, start: nat)
    requires SchedInv(k) && IdleOff(k) && k.current != 0 && start < PRIORITY_LEVELS && (c.InJoin? ==> c.child < MAX_PROCESSES)
    ensures IdleOff(SemWaitFrom(k, c, start))
  {
    var (k1, done) := SemWait(k, c.sem);
    SemWaitKeeps(k, c.sem);
    SemWaitOff(k, c.sem);
    var k2 := if done then k1.(conts := k1.conts - {k1.current}) else k1.(conts := k1.conts[k1.current := c]);
    OtherFields(k1, k2);
    SwitchedOff(k1, k2);
    if !done {
      SchedulerOff(k2, start);
    } else if c.InJoin? {
      JoinEndOff(k2, c.child);
    }
  }

  lemma JoinBeginOff(k: Kernel, pid: nat)
    requires SchedInv(k) && IdleOff(k)
    ensures IdleOff(JoinBegin(k, pid).0) && JoinBegin(k, pid).0.current == k.current
  {
  }

  lemma JoinOff(k: Kernel, pid: nat, start: nat)
    requires SchedInv(k) && IdleOff(k) && k.current != 0 && start < PRIORITY_LEVELS
    ensures IdleOff(WaitFor(k, pid, start))
  {
    var (k1, s, i) := JoinBegin(k, pid);
    JoinBeginKeeps(k, pid);
    JoinBeginOff(k, pid);
    if s != -1 {
      SemWaitFromOff(k1, InJoin(s, i), start);
    }
  }

  lemma SleepOff(k: Kernel, seconds: nat)
    requires Sized(k)
    ensures NoIdleEntry(k, Sleep(k, seconds).0)
  {
  }

  lemma ExitOff(k: Kernel, status: int)
    requires SchedInv(k) && IdleOff(k)
    ensures var r := Kill(SetExit(k, status), CurrentPid(k)).0; SchedInv(r) && IdleOff(r)
  {
    var k1 := SetExit(k, status);
    SetExitOnly(k, status);
    KinOnlyKeeps(k, k1);
    KinOff(k, k1);
    StaysOff(k, k1);
    KillOff(k1, CurrentPid(k));
    KillKeeps(k1, CurrentPid(k));
  }

  lemma SwitchCallOff(k: Kernel, e: Event)
    requires SchedInv(k) && IdleOff(k) && Possible(k, e) && (e.Tick? || e.Yield? || e.SysSleep? || e.SysKill? || e.SysExit?)
    ensures IdleOff(Apply(k, e))
  {
    match e {
      case Tick(start) => TimerTickOff(k); TimerTickKeeps(k); StaysOff(k, TimerTick(k)); SchedulerOff(TimerTick(k), start);
      case Yield(start) => SchedulerOff(k, start);
      case SysSleep(seconds, start) =>
        SleepOff(k, seconds);
        SleepKeeps(k, seconds);
        StaysOff(k, Sleep(k, seconds).0);
        SchedulerOff(Sleep(k, seconds).0, start);
      case SysKill(pid, start) =>
        KillOff(k, pid);
        KillKeeps(k, pid);
        SchedulerOff(Kill(k, pid).0, start);
      case SysExit(status, start) =>
        ExitOff(k, status);
        SchedulerOff(Kill(SetExit(k, status), CurrentPid(k)).0, start);
    }
  }

  lemma CreateSemOff(k: Kernel, value: nat)
    requires Sized(k) && IdleOff(k)
    ensures IdleOff(CreateSem(k, value).0)
  {
  }

  lemma SemCallOff(k: Kernel, e: Event)
    requires SchedInv(k) && IdleOff(k) && Possible(k, e) && (e.SysSemOpen? || e.SysSemClose? || e.SysSemPost? || e.KeyKill? || e.SysBlock?)
    ensures IdleOff(Apply(k, e))
  {
    match e {
      case SysSemOpen(value) => CreateSemOff(k, value);
      case SysSemClose(s) => DestroySemOff(k, s);
      case SysSemPost(s) => SemPostOff(k, s);
      case KeyKill(pid) => KillOff(k, pid);
      case SysBlock(pid) => BlockOff(k, pid); StaysOff(k, Block(k, pid).0);
    }
  }

  lemma CreateCallOff(k: Kernel, e: Event)
    requires SchedInv(k) && IdleOff(k) && Possible(k, e) && Careful(k, e) && (e.MainCreate? || e.SysCreate?)
    ensures IdleOff(Apply(k, e))
  {
    var foreground := e.MainCreate? || e.foreground;
    CreateOff(k, e.stack, foreground);
    CreateKeeps(k, e.stack, foreground);
    if e.SysCreate? && foreground {
      var (k1, pid) := Create(k, e.stack, true);
      assert k1.current == k.current by { if Claims(k) { CreateIs(k, e.stack, true); } }
      JoinOff(k1, AsPid(pid), e.start);
    }
  }

  /** Idle stays off the queues as long as no call puts it there. */
  lemma StepLeavesIdleOff(k: Kernel, e: Event)
    requires SchedInv(k) && IdleOff(k) && Possible(k, e) && Careful(k, e) && !QueuesIdle(k, e)
    ensures IdleOff(Apply(k, e))
  {
    if e.SysPriority? || e.SysWake? || e.SysToggle? {
      CallQueuesIdleExactlyWhen(k, e);
    } else if e.Tick? || e.Yield? || e.SysSleep? || e.SysKill? || e.SysExit? {
      SwitchCallOff(k, e);
    } else if e.SysSemOpen? || e.SysSemClose? || e.SysSemPost? || e.KeyKill? || e.SysBlock? {
      SemCallOff(k, e);
    } else if e.MainCreate? || e.SysCreate? {
      CreateCallOff(k, e);
    } else if e.SysJoin? {
      JoinOff(k, e.pid, e.start);
    } else {
      SemWaitFromOff(k, if e.SysSemWait? then InWait(e.sem) else k.conts[k.current], e.start);
    }
  }

  // ---------------------------------------------------------------- who gets the processor

  /** Idle has the processor only while nobody else is ready. */
  predicate Rightly(k: Kernel)
    requires Sized(k)
  {
    k.current == 0 && k.system ==> NobodyReady(k)
  }

  lemma IdleIsNotFirst(k: Kernel, start: nat)
    requires Sized(k) && IdleOff(k) && start < PRIORITY_LEVELS
    ensures !First(k, start, 0)
  {
  }

  lemma SwitchIsRight(k: Kernel, start: nat)
    requires SchedInv(k) && IdleOff(k) && start < PRIORITY_LEVELS
    ensures Rightly(Scheduler(k, start))
  {
    if Scheduler(k, start).system {
      FreeTerminatedOff(k);
      FreeTerminatedKeeps(k);
      SetNextOff(FreeTerminated(k));
      NoIdleEntryChains(k, FreeTerminated(k), Queued(k));
      StaysOff(k, Queued(k));
      IdleIsNotFirst(Queued(k), start);
      WorkConservingExactlyWhen(k, start);
    }
  }

  lemma EndIsRight(k: Kernel, e: Event)
    requires SchedInv(k) && IdleOff(k) && Possible(k, e) && (e.SysKill? || e.SysExit?)
    ensures Rightly(Apply(k, e))
  {
    match e {
      case SysKill(pid, start) =>
        KillOff(k, pid);
        KillKeeps(k, pid);
        SwitchIsRight(Kill(k, pid).0, start);
      case SysExit(status, start) =>
        ExitOff(k, status);
        SwitchIsRight(Kill(SetExit(k, status), CurrentPid(k)).0, start);
    }
  }

  lemma SwitchCallIsRight(k: Kernel, e: Event)
    requires SchedInv(k) && IdleOff(k) && Possible(k, e) && (e.Tick? || e.Yield? || (e.SysSleep? && Sleep(k, e.seconds).1 == 0))
    ensures Rightly(Apply(k, e))
  {
    match e {
      case Tick(start) => TimerTickOff(k); TimerTickKeeps(k); StaysOff(k, TimerTick(k)); SwitchIsRight(TimerTick(k), start);
      case Yield(start) => SwitchIsRight(k, start);
      case SysSleep(seconds, start) =>
        SleepOff(k, seconds);
        SleepKeeps(k, seconds);
        StaysOff(k, Sleep(k, seconds).0);
        SwitchIsRight(Sleep(k, seconds).0, start);
    }
  }

  lemma WaitIsRight(k: Kernel, c: Cont, start: nat)
    requires SchedInv(k) && IdleOff(k) && k.current != 0 && start < PRIORITY_LEVELS && (c.InJoin? ==> c.child < MAX_PROCESSES)
    ensures Rightly(SemWaitFrom(k, c, start))
  {
    var (k1, done) := SemWait(k, c.sem);
    SemWaitKeeps(k, c.sem);
    SemWaitOff(k, c.sem);
    var k2 := if done then k1.(conts := k1.conts - {k1.current}) else k1.(conts := k1.conts[k1.current := c]);
    OtherFields(k1, k2);
    SwitchedOff(k1, k2);
    if !done {
      SwitchIsRight(k2, start);
    } else if c.InJoin? {
      DestroyCurrent(k2, k2.table[c.child].semWait);
    }
  }

  lemma JoinIsRight(k: Kernel, pid: nat, start: nat)
    requires SchedInv(k) && IdleOff(k) && k.current != 0 && start < PRIORITY_LEVELS
    ensures Rightly(WaitFor(k, pid, start))
  {
    var (k1, s, i) := JoinBegin(k, pid);
    JoinBeginKeeps(k, pid);
    JoinBeginOff(k, pid);
    if s != -1 {
      WaitIsRight(k1, InJoin(s, i), start);
    }
  }

  lemma CreateIsRight(k: Kernel, e: Event)
    requires SchedInv(k) && IdleOff(k) && Possible(k, e) && Careful(k, e) && k.current != 0 && (e.MainCreate? || e.SysCreate?)
    ensures Rightly(Apply(k, e))
  {
    var foreground := e.MainCreate? || e.foreground;
    CreateOff(k, e.stack, foreground);
    CreateKeeps(k, e.stack, foreground);
    var k1 := Create(k, e.stack, foreground).0;
    assert k1.current == k.current by { if Claims(k) { CreateIs(k, e.stack, foreground); } }
    if e.SysCreate? && foreground {
      JoinIsRight(k1, AsPid(Create(k, e.stack, true).1), e.start);
    }
  }

  /** Whenever a kernel entry passes the processor to idle, and at every tick that finds idle on it or
      leaves it there, nobody else is ready. */
  lemma StepIsRight(k: Kernel, e: Event)
    requires SchedInv(k) && IdleOff(k) && Possible(k, e) && Careful(k, e)
    ensures k.current != 0 || e.Tick? ==> Rightly(Apply(k, e))
  {
    if e.Tick? || e.Yield? || (e.SysSleep? && Sleep(k, e.seconds).1 == 0) {
      SwitchCallIsRight(k, e);
    } else if e.SysKill? || e.SysExit? {
      EndIsRight(k, e);
    } else if k.current != 0 {
      if e.SysBlock? || e.SysWake? || e.SysToggle? || e.SysPriority? {
        ProcessCallCurrent(k, e);
      } else if e.SysSemOpen? || e.SysSemClose? || e.SysSemPost? || e.KeyKill? {
        SemCallCurrent(k, e);
      } else if e.MainCreate? || e.SysCreate? {
        CreateIsRight(k, e);
      } else if e.SysJoin? {
        JoinIsRight(k, e.pid, e.start);
      } else if e.SysSemWait? || e.Resume? {
        WaitIsRight(k, if e.SysSemWait? then InWait(e.sem) else k.conts[k.current], e.start);
      }
    }
  }

  // ---------------------------------------------------------------- whole runs

  ghost predicate BusyRun(k: Kernel, es: seq<Event>)
    requires Sized(k)
    decreases |es|
  {
    es == [] || (Possible(k, es[0]) && Careful(k, es[0]) && !QueuesIdle(k, es[0]) && BusyRun(Apply(k, es[0]), es[1..]))
  }

  lemma {:induction false} BusyIsCareful(k: Kernel, es: seq<Event>)
    requires Sized(k) && BusyRun(k, es)
    ensures CarefulRun(k, es)
    decreases |es|
  {
    if es != [] {
      BusyIsCareful(Apply(k, es[0]), es[1..]);
    }
  }

  lemma {:induction false} RunLeavesIdleOff(k: Kernel, es: seq<Event>)
    requires SchedInv(k) && IdleOff(k) && BusyRun(k, es) && CarefulRun(k, es)
    ensures SchedInv(Run(k, es)) && IdleOff(Run(k, es))
    decreases |es|
  {
    if es != [] {
      StepKeeps(k, es[0]);
      StepLeavesIdleOff(k, es[0]);
      RunLeavesIdleOff(Apply(k, es[0]), es[1..]);
    }
  }

  lemma BootIdleOff()
    ensures SchedInv(Boot()) && IdleOff(Boot())
  {
  }

  /** In every run of the kernel from its start in which no call puts idle on a queue: whenever an entry
      passes the processor to idle, and at every tick, idle gets it only if nobody else is ready. */
  lemma KernelConservesWork(es: seq<Event>, e: Event)
    requires BusyRun(Boot(), es) && CarefulRun(Boot(), es)
    requires Possible(Run(Boot(), es), e) && Careful(Run(Boot(), es), e)
    ensures var k := Run(Boot(), es); k.current != 0 || e.Tick? ==> Rightly(Apply(k, e))
  {
    BootIdleOff();
    RunLeavesIdleOff(Boot(), es);
    StepIsRight(Run(Boot(), es), e);
  }

  lemma TickGoesOn(k: Kernel, start: nat)
    requires SchedInv(k) && Balanced(k) && IdleOff(k) && start < PRIORITY_LEVELS && k.system
    ensures var r := Scheduler(TimerTick(k), start); Live(r) != {} ==> r.system && (r.current == 0 ==> NobodyReady(r))
  {
    var k1 := TimerTick(k);
    TimerTickCounts(k);
    SameCountsBalance(k, k1);
    TimerTickKeeps(k);
    TimerTickOff(k);
    StaysOff(k, k1);
    SchedulerBalances(k1, start);
    SwitchIsRight(k1, start);
  }

  /** If the run balances too, a tick neither stops the system while any process lives nor idles while
      one is ready. */
  lemma KernelTicksOn(es: seq<Event>, start: nat)
    requires BusyRun(Boot(), es) && BalancedRun(Boot(), es) && CarefulRun(Boot(), es) && start < PRIORITY_LEVELS
    requires Run(Boot(), es).system && Possible(Run(Boot(), es), Tick(start))
    ensures var r := Apply(Run(Boot(), es), Tick(start));
      Live(r) != {} ==> r.system && (r.current == 0 ==> NobodyReady(r))
  {
    KernelBalances(es);
    BootIdleOff();
    RunLeavesIdleOff(Boot(), es);
    TickGoesOn(Run(Boot(), es), start);
  }
}
