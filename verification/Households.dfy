/** What most of the kernel leaves alone in the process table: who is in a slot, whether it has ended, its kin
    and the semaphore on which somebody waits for its end. */
module Households {
  import opened KernelState
  import opened KernelRuns
  import opened SchedulerProofs

  predicate SlotSame(k: Kernel, r: Kernel, i: nat)
    requires Sized(k) && Sized(r) && i < MAX_PROCESSES
  {
    var p, q := k.table[i], r.table[i];
    q.pid == p.pid && q.kin == p.kin && q.semWait == p.semWait && (q.state == Terminated <==> p.state == Terminated)
  }

  ghost predicate AllSame(k: Kernel, r: Kernel) {
    && Sized(k) && Sized(r) && r.foreground == k.foreground && r.nextPid == k.nextPid
    && (forall x :: x in r.dead ==> x in k.dead)
    && forall i {:trigger SlotSame(k, r, i)} :: 0 <= i < MAX_PROCESSES ==> SlotSame(k, r, i)
  }

  /** Whoever awaits cleanup has ended: no slot was claimed again before its cleanup. */
  ghost predicate DeadEnded(k: Kernel)
    requires Sized(k)
  {
    forall x :: x in k.dead ==> x < MAX_PROCESSES && k.table[x].state == Terminated
  }

  lemma SameChains(a: Kernel, b: Kernel, c: Kernel)
    requires AllSame(a, b) && AllSame(b, c)
    ensures AllSame(a, c)
  {
    forall i | 0 <= i < MAX_PROCESSES
      ensures SlotSame(a, c, i)
    {
      assert SlotSame(a, b, i) && SlotSame(b, c, i);
    }
  }

  lemma SameLeavesDead(k: Kernel, r: Kernel)
    requires AllSame(k, r) && DeadEnded(k)
    ensures DeadEnded(r)
  {
    forall x | x in r.dead
      ensures x < MAX_PROCESSES && r.table[x].state == Terminated
    {
      assert x in k.dead && SlotSame(k, r, x);
    }
  }

  // The pids are as before, so lookups find the same slots.
  lemma SameSlots(k: Kernel, r: Kernel, pid: nat)
    requires Sized(k) && Sized(r) && forall i :: 0 <= i < MAX_PROCESSES ==> r.table[i].pid == k.table[i].pid
    ensures Slot(r, pid) == Slot(k, pid)
  {
    var a, b := Slot(k, pid), Slot(r, pid);
    assert a < MAX_PROCESSES ==> r.table[a].pid == pid;
    assert b < MAX_PROCESSES ==> k.table[b].pid == pid;
  }

  lemma SameTable(k: Kernel, r: Kernel)
    requires Sized(k) && Sized(r) && r.table == k.table && r.foreground == k.foreground && r.nextPid == k.nextPid
    requires forall x :: x in r.dead ==> x in k.dead
    ensures AllSame(k, r)
  {
  }

  // One slot gets another state, previous state or priority.
  lemma MovedSame(k: Kernel, i: nat, p: Pcb, enqueue: bool)
    requires Sized(k) && i < MAX_PROCESSES && p.priority < PRIORITY_LEVELS && p.kin == k.table[i].kin && p.pid == k.table[i].pid
    requires p.semWait == k.table[i].semWait && (p.state == Terminated <==> k.table[i].state == Terminated)
    ensures AllSame(k, Moved(k, i, p, enqueue))
  {
  }

  // ---------------------------------------------------------------- states and priorities

  lemma BlockSame(k: Kernel, pid: nat)
    requires Sized(k)
    ensures AllSame(k, Block(k, pid).0)
  {
    if Block(k, pid).1 == 0 {
      var i := Slot(k, pid);
      MovedSame(k, i, BlockSlot(k, i).table[i], false);
    } else {
      SameTable(k, k);
    }
  }

  lemma WakeSame(k: Kernel, pid: nat)
    requires SchedInv(k)
    ensures AllSame(k, Wake(k, pid).0)
  {
    SameTable(k, k);
    if Wake(k, pid).1 == 0 {
      var i := Slot(k, pid);
      var p := k.table[i];
      var k1 := if p.previous == Sleeping then Expire(k, p.pid).0 else k;
      var q := Wake(k, pid).0.table[i];
      assert Wake(k, pid).0 == Moved(k1, i, q, q.state == Ready);
      SameTable(k, k1);
      MovedSame(k1, i, q, q.state == Ready);
      SameChains(k, k1, Wake(k, pid).0);
    }
  }

  lemma ToggleSame(k: Kernel, pid: nat)
    requires SchedInv(k)
    ensures AllSame(k, Toggle(k, pid).0)
  {
    SameTable(k, k);
    BlockSame(k, pid);
    WakeSame(k, pid);
  }

  lemma PrioritySame(k: Kernel, pid: nat, priority: nat)
    requires Sized(k)
    ensures AllSame(k, ChangePriority(k, pid, priority).0)
  {
    SameTable(k, k);
    var i := Slot(k, pid);
    if priority < PRIORITY_LEVELS && i < MAX_PROCESSES && k.table[i].priority != priority {
      var p := ChangePriority(k, pid, priority).0.table[i];
      assert ChangePriority(k, pid, priority).0 == Moved(k, i, p, p.state == Ready);
      MovedSame(k, i, p, p.state == Ready);
    }
  }

  lemma SleepSame(k: Kernel, seconds: nat)
    requires Sized(k)
    ensures AllSame(k, Sleep(k, seconds).0)
  {
    SameTable(k, k);
  }

  lemma UnsleepSame(k: Kernel, pid: nat)
    requires SchedInv(k)
    ensures AllSame(k, UnsleepProcess(k, pid).0)
  {
    SameTable(k, k);
    if UnsleepProcess(k, pid).1 == 0 {
      var i := Slot(k, pid);
      var p := k.table[i].(state := k.table[i].previous);
      assert UnsleepProcess(k, pid).0 == Moved(k, i, p, p.state == Ready);
      MovedSame(k, i, p, p.state == Ready);
    }
  }

  lemma WakeSleeperSame(k: Kernel, e: nat)
    requires SchedInv(k) && e < MAX_PROCESSES
    ensures AllSame(k, WakeSleeper(k, e))
  {
    SameTable(k, k);
    var s := k.sleepers[e];
    if s.pid != 0 && s.time <= k.ticks && IsSleeping(k, s.pid) {
      var k1 := k.(sleepers := k.sleepers[e := SleepEntry(0, 0)]);
      OtherFields(k, k1);
      SameTable(k, k1);
      UnsleepSame(k1, s.pid);
      SameChains(k, k1, WakeSleeper(k, e));
    }
  }

  lemma {:induction false} WakeSleepersSame(k: Kernel, n: nat, r: Kernel)
    requires SchedInv(k) && n <= MAX_PROCESSES && r == WakeSleepers(k, n)
    ensures AllSame(k, r)
    decreases n
  {
    if n == 0 {
      SameTable(k, k);
    } else {
      var k1 := WakeSleepers(k, n - 1);
      WakeSleepersSame(k, n - 1, k1);
      WakeSleepersKeeps(k, n - 1);
      WakeSleeperSame(k1, n - 1);
      SameChains(k, k1, r);
    }
  }

  lemma TimerTickSame(k: Kernel, n: nat)
    requires SchedInv(k) && n == |k.sleepers|
    ensures AllSame(k, TimerTick(k))
  {
    var k1 := k.(ticks := k.ticks + 1);
    OtherFields(k, k1);
    SameTable(k, k1);
    WakeSleepersSame(k1, n, WakeSleepers(k1, n));
    TimerTickIs(k, n);
    SameChains(k, k1, TimerTick(k));
  }

  // ---------------------------------------------------------------- switching

  lemma {:induction false} FreeTerminatedSame(k: Kernel)
    requires Sized(k) && DeadEnded(k)
    ensures AllSame(k, FreeTerminated(k))
    decreases |k.dead|
  {
    SameTable(k, k);
    if k.dead != [] {
      var i := k.dead[0];
      assert i in k.dead;
      assert AllSame(k, Drain(k));
      SameLeavesDead(k, Drain(k));
      FreeTerminatedSame(Drain(k));
      SameChains(k, Drain(k), FreeTerminated(k));
    }
  }

  lemma SetNextSame(k: Kernel)
    requires Sized(k)
    ensures AllSame(k, SetNext(k))
  {
  }

  lemma GetNextSame(k: Kernel, start: nat)
    requires SchedInv(k) && start < PRIORITY_LEVELS
    requires k.table[GetNext(k, start).current].state == Ready || GetNext(k, start).current == 0
    ensures AllSame(k, GetNext(k, start))
  {
  }

  lemma SchedulerSame(k: Kernel, start: nat)
    requires SchedInv(k) && DeadEnded(k) && start < PRIORITY_LEVELS
    ensures AllSame(k, Scheduler(k, start)) && Scheduler(k, start).dead == []
  {
    var k1 := FreeTerminated(k);
    FreeTerminatedSame(k);
    FreeTerminatedKeeps(k);
    if k1.system && k1.count > 1 {
      var k2 := SetNext(k1);
      SetNextKeeps(k1);
      SetNextSame(k1);
      GetNextKeeps(k2, start);
      GetNextSame(k2, start);
      SameChains(k, k1, k2);
      SameChains(k, k2, GetNext(k2, start));
    } else {
      SameTable(k1, k1.(system := false));
      SameChains(k, k1, k1.(system := false));
    }
  }

  // ---------------------------------------------------------------- semaphores

  lemma SemPostSame(k: Kernel, s: int)
    requires SchedInv(k)
    ensures AllSame(k, SemPost(k, s))
  {
    SameTable(k, k);
    if !InvalidSem(k, s) {
      var k1 := SetSem(k, s, Posted(k.sems[s]));
      SetSemKeeps(k, s, Posted(k.sems[s]));
      SameTable(k, k1);
      WakeSame(k1, k.sems[s].waiting[k.sems[s].cur]);
      SameChains(k, k1, SemPost(k, s));
    }
  }

  lemma SemWaitSame(k: Kernel, s: int)
    requires Sized(k)
    ensures AllSame(k, SemWait(k, s).0)
  {
    SameTable(k, k);
    if !InvalidSem(k, s) {
      SemWaitIs(k, s);
      var k1 := SetSem(k, s, Queued(k.sems[s], CurrentPid(k)));
      SameTable(k, k1);
      BlockSame(k1, CurrentPid(k));
      SameChains(k, k1, Block(k1, CurrentPid(k)).0);
    }
  }

  lemma WakeOneSame(k: Kernel, s: int)
    requires SchedInv(k) && 0 <= s < MAX_SEMAPHORES
    ensures AllSame(k, WakeOne(k, s))
  {
    SameTable(k, k);
    var x := k.sems[s];
    var k1 := if x.waiting[x.cur] != NOT_A_PROCESS then Wake(k, x.waiting[x.cur]).0 else k;
    WakeSame(k, x.waiting[x.cur]);
    SameTable(k1, WakeOne(k, s));
    SameChains(k, k1, WakeOne(k, s));
  }

  lemma WakeAllSame(k: Kernel, s: int)
    requires SchedInv(k) && 0 <= s < MAX_SEMAPHORES
    ensures AllSame(k, WakeAll(k, s))
  {
    var inv := (k1: Kernel) => SchedInv(k1) && AllSame(k, k1);
    SameTable(k, k);
    forall k1 | inv(k1)
      ensures Sized(k1) && inv(Turn(k1, s))
    {
      WakeOneKeeps(k1, s);
      WakeOneSame(k1, s);
      SameChains(k, k1, WakeOne(k1, s));
    }
    WakeAllKeepsWhat(k, s, inv);
  }

  lemma DestroySemSame(k: Kernel, s: int)
    requires SchedInv(k)
    ensures AllSame(k, DestroySem(k, s))
  {
    SameTable(k, k);
    if !InvalidSem(k, s) {
      WakeAllSame(k, s);
      SameTable(WakeAll(k, s), DestroySem(k, s));
      SameChains(k, WakeAll(k, s), DestroySem(k, s));
    }
  }

  lemma CreateSemSame(k: Kernel, value: nat)
    requires Sized(k)
    ensures AllSame(k, CreateSem(k, value).0)
  {
    SameTable(k, CreateSem(k, value).0);
  }

  // ---------------------------------------------------------------- waiting for a process

  // The same but for the semaphore on which somebody waits for the end.
  predicate SlotKinSame(k: Kernel, r: Kernel, i: nat)
    requires Sized(k) && Sized(r) && i < MAX_PROCESSES
  {
    var p, q := k.table[i], r.table[i];
    q.pid == p.pid && q.kin == p.kin && (q.state == Terminated <==> p.state == Terminated)
  }

  ghost predicate KinSame(k: Kernel, r: Kernel) {
    && Sized(k) && Sized(r) && r.foreground == k.foreground && r.nextPid == k.nextPid
    && (forall x :: x in r.dead ==> x in k.dead)
    && forall i {:trigger SlotKinSame(k, r, i)} :: 0 <= i < MAX_PROCESSES ==> SlotKinSame(k, r, i)
  }

  lemma AllIsKin(k: Kernel, r: Kernel)
    requires AllSame(k, r)
    ensures KinSame(k, r)
  {
    forall i | 0 <= i < MAX_PROCESSES
      ensures SlotKinSame(k, r, i)
    {
      assert SlotSame(k, r, i);
    }
  }

  lemma KinChains(a: Kernel, b: Kernel, c: Kernel)
    requires KinSame(a, b) && KinSame(b, c)
    ensures KinSame(a, c)
  {
    forall i | 0 <= i < MAX_PROCESSES
      ensures SlotKinSame(a, c, i)
    {
      assert SlotKinSame(a, b, i) && SlotKinSame(b, c, i);
    }
  }

  lemma KinLeavesDead(k: Kernel, r: Kernel)
    requires KinSame(k, r) && DeadEnded(k)
    ensures DeadEnded(r)
  {
    forall x | x in r.dead
      ensures x < MAX_PROCESSES && r.table[x].state == Terminated
    {
      assert x in k.dead && SlotKinSame(k, r, x);
    }
  }

  lemma SetSemWaitKin(k: Kernel, i: nat, s: int)
    requires Sized(k) && i < MAX_PROCESSES
    ensures KinSame(k, SetPcb(k, i, k.table[i].(semWait := s)))
  {
  }

  lemma JoinEndKin(k: Kernel, i: nat)
    requires SchedInv(k) && i < MAX_PROCESSES
    ensures KinSame(k, JoinEnd(k, i))
  {
    var k1 := DestroySem(k, k.table[i].semWait);
    DestroySemSame(k, k.table[i].semWait);
    AllIsKin(k, k1);
    SetSemWaitKin(k1, i, -1);
    KinChains(k, k1, JoinEnd(k, i));
  }

  lemma JoinBeginKin(k: Kernel, pid: nat)
    requires Sized(k)
    ensures KinSame(k, JoinBegin(k, pid).0)
  {
    var i := Slot(k, pid);
    SameTable(k, k);
    AllIsKin(k, k);
    if i < MAX_PROCESSES {
      var (k1, s) := CreateSem(k, 0);
      CreateSemSame(k, 0);
      AllIsKin(k, k1);
      SetSemWaitKin(k1, i, s);
      KinChains(k, k1, SetPcb(k1, i, k1.table[i].(semWait := s)));
    }
  }

  lemma SemWaitFromKin(k: Kernel, c: Cont, start: nat)
    requires SchedInv(k) && DeadEnded(k) && start < PRIORITY_LEVELS && (c.InJoin? ==> c.child < MAX_PROCESSES)
    ensures KinSame(k, SemWaitFrom(k, c, start))
  {
    var (k1, done) := SemWait(k, c.sem);
    var k2 := if done then k1.(conts := k1.conts - {k1.current}) else k1.(conts := k1.conts[k1.current := c]);
    SemWaitKeeps(k, c.sem);
    SemWaitSame(k, c.sem);
    OtherFields(k1, k2);
    SameTable(k1, k2);
    SameChains(k, k1, k2);
    SameLeavesDead(k, k2);
    AllIsKin(k, k2);
    if !done {
      SchedulerSame(k2, start);
      AllIsKin(k2, Scheduler(k2, start));
      KinChains(k, k2, Scheduler(k2, start));
    } else if c.InJoin? {
      JoinEndKin(k2, c.child);
      KinChains(k, k2, JoinEnd(k2, c.child));
    }
  }

  lemma WaitForKin(k: Kernel, pid: nat, start: nat)
    requires SchedInv(k) && DeadEnded(k) && start < PRIORITY_LEVELS
    ensures KinSame(k, WaitFor(k, pid, start))
  {
    var (k1, s, i) := JoinBegin(k, pid);
    JoinBeginKin(k, pid);
    JoinBeginKeeps(k, pid);
    KinLeavesDead(k, k1);
    if s != -1 {
      SemWaitFromKin(k1, InJoin(s, i), start);
      KinChains(k, k1, SemWaitFrom(k1, InJoin(s, i), start));
    }
  }

  // ---------------------------------------------------------------- kernel entries

  // Nobody ends, nobody is created.
  predicate LeavesFamilies(e: Event) { !(e.SysKill? || e.KeyKill? || e.SysExit? || e.MainCreate? || e.SysCreate?) }

  lemma CallKin(k: Kernel, e: Event)
    requires SchedInv(k) && Possible(k, e)
    requires e.SysBlock? || e.SysWake? || e.SysToggle? || e.SysPriority? || e.SysSemOpen? || e.SysSemClose? || e.SysSemPost?
    ensures KinSame(k, Apply(k, e))
  {
    SameTable(k, k);
    match e {
      case SysBlock(pid) => BlockSame(k, pid);
      case SysWake(pid) => WakeSame(k, pid);
      case SysToggle(pid) => ToggleSame(k, pid);
      case SysPriority(pid, priority) => PrioritySame(k, pid, priority);
      case SysSemOpen(value) => CreateSemSame(k, value);
      case SysSemClose(s) => DestroySemSame(k, s);
      case SysSemPost(s) => SemPostSame(k, s);
    }
    AllIsKin(k, Apply(k, e));
  }

  // Then, a switch.
  lemma SwitchedKin(k: Kernel, k1: Kernel, start: nat)
    requires AllSame(k, k1) && DeadEnded(k) && SchedInv(k1) && start < PRIORITY_LEVELS
    ensures KinSame(k, Scheduler(k1, start))
  {
    SameLeavesDead(k, k1);
    SchedulerSame(k1, start);
    SameChains(k, k1, Scheduler(k1, start));
    AllIsKin(k, Scheduler(k1, start));
  }

  lemma SwitchKin(k: Kernel, e: Event)
    requires SchedInv(k) && DeadEnded(k) && Possible(k, e) && (e.Tick? || e.Yield? || e.SysSleep?)
    ensures KinSame(k, Apply(k, e))
  {
    match e {
      case Tick(start) => TimerTickSame(k, |k.sleepers|); TimerTickKeeps(k); SwitchedKin(k, TimerTick(k), start);
      case Yield(start) => SameTable(k, k); SwitchedKin(k, k, start);
      case SysSleep(seconds, start) =>
        SleepSame(k, seconds);
        SleepKeeps(k, seconds);
        AllIsKin(k, Sleep(k, seconds).0);
        SwitchedKin(k, Sleep(k, seconds).0, start);
    }
  }

  /** Unless somebody ends or is created, a kernel entry leaves everyone's kin alone. */
  lemma StepKin(k: Kernel, e: Event)
    requires SchedInv(k) && DeadEnded(k) && Possible(k, e) && LeavesFamilies(e)
    ensures KinSame(k, Apply(k, e))
  {
    if e.Tick? || e.Yield? || e.SysSleep? {
      SwitchKin(k, e);
    } else if e.SysSemWait? || e.Resume? {
      SemWaitFromKin(k, if e.SysSemWait? then InWait(e.sem) else k.conts[k.current], e.start);
    } else if e.SysJoin? {
      SameTable(k, k);
      AllIsKin(k, k);
      WaitForKin(k, e.pid, e.start);
    } else {
      CallKin(k, e);
    }
  }
}
