/** The semaphores over whole runs: no lost wake-up, first-in first-out service, and a value that accounts
    for every post and every completed wait. */
module SemaphoreRuns {
  import opened KernelState
  import opened KernelRuns
  import opened SchedulerProofs
  import opened SemaphoreRings
  import opened SemaphoreState
  import opened SemaphoreSteps
  import opened SemaphoreProofs
  import opened SemaphoreProgress

  ghost predicate WaitInv(k: Kernel) {
    SchedInv(k) && SemInv(k) && WokenAreGoing(k)
  }

  /** What a run must avoid besides: killing, blocking or unblocking from outside a process that is inside
      sem_wait, giving out the pid that marks an empty cell, and waiting after having been killed. */
  predicate Respects(k: Kernel, e: Event)
    requires Sized(k)
  {
    match e
    case SysBlock(pid) => Slot(k, pid) < MAX_PROCESSES && Slot(k, pid) in k.conts ==> k.table[Slot(k, pid)].state == Blocked
    case SysWake(pid) => !Waits(k, Slot(k, pid))
    case SysToggle(pid) => Slot(k, pid) !in k.conts
    case SysKill(pid, _) => Slot(k, pid) !in k.conts
    case KeyKill(pid) => Slot(k, pid) !in k.conts
    case MainCreate(_) => k.nextPid != NOT_A_PROCESS
    case SysCreate(_, foreground, _) => k.nextPid != NOT_A_PROCESS && (foreground ==> k.table[k.current].state == Running)
    case SysSemWait(_, _) => k.table[k.current].state == Running
    case SysJoin(_, _) => k.table[k.current].state == Running
    case _ => true
  }

  // The process in slot i is on the queue of the semaphore it waits for.
  predicate Waits(k: Kernel, i: nat)
    requires Sized(k)
  {
    && 1 <= i < MAX_PROCESSES && i in k.conts && 0 <= k.conts[i].sem < MAX_SEMAPHORES
    && k.table[i].pid in k.sems[k.conts[i].sem].waiting
  }

  lemma QuietStep(k: Kernel, r: Kernel)
    requires SemInv(k) && WokenAreGoing(k) && Sized(r) && Undisturbed(k, r)
    ensures SemInv(r) && WokenAreGoing(r) && r.sems == k.sems
  {
    UndisturbedKeeps(k, r);
    UndisturbedKeepsGoing(k, r);
  }

  lemma SwitchKeepsWaits(k: Kernel, start: nat)
    requires WaitInv(k) && start < PRIORITY_LEVELS
    ensures var r := Scheduler(k, start); SemInv(r) && WokenAreGoing(r) && r.sems == k.sems
  {
    SchedulerUndisturbed(k, start);
    QuietStep(k, Scheduler(k, start));
  }

  lemma BlockWaits(k: Kernel, pid: nat)
    requires WaitInv(k) && (Slot(k, pid) < MAX_PROCESSES && Slot(k, pid) in k.conts ==> k.table[Slot(k, pid)].state == Blocked)
    ensures var r := Block(k, pid).0; SemInv(r) && WokenAreGoing(r) && r.sems == k.sems
  {
    BlockUndisturbed(k, pid);
    QuietStep(k, Block(k, pid).0);
  }

  lemma WakeWaits(k: Kernel, pid: nat)
    requires WaitInv(k) && !Waits(k, Slot(k, pid))
    ensures var r := Wake(k, pid).0; SemInv(r) && WokenAreGoing(r) && r.sems == k.sems
  {
    WakeUndisturbed(k, pid);
    QuietStep(k, Wake(k, pid).0);
  }

  lemma ToggleWaits(k: Kernel, pid: nat)
    requires WaitInv(k) && Slot(k, pid) !in k.conts
    ensures var r := Toggle(k, pid).0; SemInv(r) && WokenAreGoing(r) && r.sems == k.sems
  {
    WakeUndisturbed(k, pid);
    BlockUndisturbed(k, pid);
    QuietStep(k, Wake(k, pid).0);
    QuietStep(k, Block(k, pid).0);
  }

  lemma PriorityWaits(k: Kernel, pid: nat, priority: nat)
    requires WaitInv(k)
    ensures var r := ChangePriority(k, pid, priority).0; SemInv(r) && WokenAreGoing(r) && r.sems == k.sems
  {
    ChangePriorityUndisturbed(k, pid, priority);
    QuietStep(k, ChangePriority(k, pid, priority).0);
  }

  lemma ProcessCallWaits(k: Kernel, e: Event)
    requires WaitInv(k) && Possible(k, e) && Respects(k, e)
    requires e.SysBlock? || e.SysWake? || e.SysToggle? || e.SysPriority?
    ensures var r := Apply(k, e); SemInv(r) && WokenAreGoing(r) && r.sems == k.sems
  {
    match e {
      case SysBlock(pid) => BlockWaits(k, pid);
      case SysWake(pid) => WakeWaits(k, pid);
      case SysToggle(pid) => ToggleWaits(k, pid);
      case SysPriority(pid, priority) => PriorityWaits(k, pid, priority);
    }
  }

  lemma TickWaits(k: Kernel, start: nat)
    requires WaitInv(k) && start < PRIORITY_LEVELS
    ensures var r := Scheduler(TimerTick(k), start); SemInv(r) && WokenAreGoing(r) && r.sems == k.sems
  {
    TimerTickUndisturbed(k);
    TimerTickKeeps(k);
    QuietStep(k, TimerTick(k));
    SwitchKeepsWaits(TimerTick(k), start);
  }

  lemma SleepWaits(k: Kernel, seconds: nat, start: nat)
    requires WaitInv(k) && Possible(k, SysSleep(seconds, start))
    ensures var r := Apply(k, SysSleep(seconds, start)); SemInv(r) && WokenAreGoing(r) && r.sems == k.sems
  {
    var k1 := Sleep(k, seconds).0;
    SleepUndisturbed(k, seconds);
    SleepKeeps(k, seconds);
    QuietStep(k, k1);
    SwitchKeepsWaits(k1, start);
  }

  lemma SwitchCallWaits(k: Kernel, e: Event)
    requires WaitInv(k) && Possible(k, e) && (e.Tick? || e.Yield? || e.SysSleep?)
    ensures var r := Apply(k, e); SemInv(r) && WokenAreGoing(r) && r.sems == k.sems
  {
    match e {
      case Tick(start) => TickWaits(k, start);
      case Yield(start) => SwitchKeepsWaits(k, start);
      case SysSleep(seconds, start) => SleepWaits(k, seconds, start);
    }
  }

  lemma CreateWaits(k: Kernel, stack: bool, foreground: bool)
    requires WaitInv(k) && k.nextPid < 0xffff && k.nextPid != NOT_A_PROCESS
    ensures var r := Create(k, stack, foreground).0; SemInv(r) && WokenAreGoing(r) && r.sems == k.sems && r.conts == k.conts
  {
    var r := Create(k, stack, foreground).0;
    if Claims(k) {
      var i := FindTerminated(k.table, 1);
      CreateIs(k, stack, foreground);
      assert k.conts - {i} == k.conts;
      CreatedPids(k, stack, foreground);
      forall s | 0 <= s < MAX_SEMAPHORES
        ensures CellsOk(r, s) && Bound(r, s)
      {
        ClaimKeepsSem(k, r, i, s, stack);
      }
      ClaimKeepsConts(k, r, i, stack);
    }
  }

  lemma ClaimKeepsConts(k: Kernel, r: Kernel, i: nat, stack: bool)
    requires SemInv(k) && WokenAreGoing(k) && Sized(r) && i < MAX_PROCESSES && k.table[i].state == Terminated
    requires ClaimedIn(k, r, i, stack) && k.nextPid != NOT_A_PROCESS
    requires r.sems == k.sems && r.conts == k.conts && r.dead == k.dead
    ensures ContsOk(r) && DeadOk(r) && WokenAreGoing(r)
  {
    forall j | 0 <= j < MAX_PROCESSES && j != i
      ensures r.table[j].pid == k.table[j].pid && r.table[j].state == k.table[j].state && (QueuedSlot(k, j) <==> QueuedSlot(r, j))
    {
      assert SlotKin(k, r, j);
    }
  }

  lemma ClaimKeepsSem(k: Kernel, r: Kernel, i: nat, s: nat, stack: bool)
    requires SemInv(k) && Sized(r) && PidsOk(r) && i < MAX_PROCESSES && k.table[i].state == Terminated && s < MAX_SEMAPHORES
    requires ClaimedIn(k, r, i, stack) && r.sems == k.sems && r.conts == k.conts
    ensures CellsOk(r, s) && Bound(r, s)
  {
    assert CellsOk(k, s) && Bound(k, s);
    forall c | 0 <= c < MAX_PROCESSES && r.sems[s].waiting[c] != NOT_A_PROCESS
      ensures WaiterOk(r, s, r.sems[s].waiting[c])
    {
      var pid := k.sems[s].waiting[c];
      assert WaiterOk(k, s, pid);
      assert SlotKin(k, r, Slot(k, pid));
      SlotIs(r, Slot(k, pid));
    }
    ClaimKeepsWoken(k, r, i, s, stack);
  }

  lemma ClaimKeepsWoken(k: Kernel, r: Kernel, i: nat, s: nat, stack: bool)
    requires SemInv(k) && Sized(r) && i < MAX_PROCESSES && k.table[i].state == Terminated && s < MAX_SEMAPHORES
    requires ClaimedIn(k, r, i, stack) && r.sems == k.sems && r.conts == k.conts
    ensures Woken(r, s) == Woken(k, s)
  {
    forall j
      ensures j in Woken(r, s) <==> j in Woken(k, s)
    {
      if j in k.conts && j < MAX_PROCESSES {
        assert SlotKin(k, r, j);
      }
    }
  }

  lemma CreateCallWaits(k: Kernel, e: Event)
    requires WaitInv(k) && Possible(k, e) && Careful(k, e) && Respects(k, e) && (e.MainCreate? || e.SysCreate?)
    ensures var r := Apply(k, e); SemInv(r) && WokenAreGoing(r)
  {
    var foreground := e.MainCreate? || e.foreground;
    CreateWaits(k, e.stack, foreground);
    if e.SysCreate? && foreground {
      var (k1, pid) := Create(k, e.stack, true);
      CreateKeeps(k, e.stack, true);
      CreatorStays(k, e.stack, true);
      JoinWaits(k1, AsPid(pid), e.start);
    }
  }

  lemma CreatorStays(k: Kernel, stack: bool, foreground: bool)
    requires Sized(k) && k.table[k.current].state == Running
    ensures var r := Create(k, stack, foreground).0;
      r.current == k.current && r.table[r.current].state == Running && (k.current !in k.conts ==> r.current !in r.conts)
  {
    if Claims(k) {
      CreateIs(k, stack, foreground);
      assert SlotKin(k, Create(k, stack, foreground).0, k.current);
    }
  }

  lemma KillWaits(k: Kernel, pid: nat)
    requires WaitInv(k) && Slot(k, pid) !in k.conts
    ensures var r := Kill(k, pid).0; SemInv(r) && WokenAreGoing(r)
  {
    KillKeepsSems(k, pid);
    if Kill(k, pid).1 == 0 {
      var i := Slot(k, pid);
      KillIs(k, pid);
      var k2 := Terminate(k, i);
      TerminateIs(k, i);
      TerminateKeeps(k, i);
      TerminateUndisturbed(k, i);
      QuietStep(k, k2);
      PostKeepsGoing(k2, k.table[i].semWait);
      var k3 := if k.table[i].semWait != -1 then SemPost(k2, k.table[i].semWait) else k2;
      PostLeavesDead(k2, k.table[i].semWait, i);
      BuryUndisturbed(k3, i);
      UndisturbedKeepsGoing(k3, Kill(k, pid).0);
    }
  }

  // What a call to kill or exit is about to kill, and in which state.
  function KillState(k: Kernel, e: Event): Kernel
    requires Sized(k)
  {
    if e.SysExit? then SetExit(k, e.status) else k
  }

  function Victim(k: Kernel, e: Event): nat
    requires Sized(k) && (e.SysKill? || e.KeyKill? || e.SysExit?)
  {
    if e.SysExit? then CurrentPid(k) else e.pid
  }

  lemma KillStateWaits(k: Kernel, e: Event)
    requires WaitInv(k) && Possible(k, e) && Respects(k, e) && (e.SysKill? || e.KeyKill? || e.SysExit?)
    ensures var k1 := KillState(k, e); WaitInv(k1) && k1.sems == k.sems && KinOnly(k, k1)
    ensures Victim(k, e) != 0 ==> Slot(KillState(k, e), Victim(k, e)) !in KillState(k, e).conts
  {
    var k1 := KillState(k, e);
    if e.SysExit? {
      SetExitOnly(k, e.status);
      KinOnlyKeeps(k, k1);
      KinUndisturbed(k, k1);
      QuietStep(k, k1);
      assert SlotKin(k, k1, k.current);
      if CurrentPid(k) != 0 {
        SlotIs(k1, k.current);
      }
    } else {
      assert k1 == k;
      KinOnlySelf(k);
    }
  }

  lemma KinOnlySelf(k: Kernel)
    requires Sized(k)
    ensures KinOnly(k, k)
  {
  }

  lemma KillCallWaits(k: Kernel, e: Event)
    requires WaitInv(k) && Possible(k, e) && Respects(k, e) && (e.SysKill? || e.KeyKill? || e.SysExit?)
    ensures var r := Apply(k, e); SemInv(r) && WokenAreGoing(r)
    ensures !e.KeyKill? ==> Apply(k, e).sems == Kill(KillState(k, e), Victim(k, e)).0.sems
  {
    var k1 := KillState(k, e);
    var pid := Victim(k, e);
    KillStateWaits(k, e);
    if pid != 0 {
      KillWaits(k1, pid);
    }
    KillKeeps(k1, pid);
    if !e.KeyKill? {
      SwitchKeepsWaits(Kill(k1, pid).0, e.start);
    }
  }

  lemma WaitStretch(k: Kernel, c: Cont, start: nat)
    requires WaitInv(k) && start < PRIORITY_LEVELS && k.current != 0 && k.table[k.current].state == Running
    requires (c.InJoin? ==> c.child < MAX_PROCESSES) && (k.current in k.conts ==> k.conts[k.current] == c)
    ensures var r := SemWaitFrom(k, c, start); SemInv(r) && WokenAreGoing(r)
    ensures !SemWait(k, c.sem).1 ==> SemWaitFrom(k, c, start).sems == SemWait(k, c.sem).0.sems
  {
    var (k1, done) := SemWait(k, c.sem);
    SemWaitFromKeepsSems(k, c, start);
    SemWaitKeeps(k, c.sem);
    if !done {
      SemWaitIs(k, c.sem);
      ParkKeeps(k, c.sem, c);
      ParkKeepsGoing(k, c.sem, c);
      var k2 := k1.(conts := k1.conts[k1.current := c]);
      OtherFields(k1, k2);
      SwitchKeepsWaits(k2, start);
    } else {
      var k2 := k1.(conts := k1.conts - {k1.current});
      LeftKeeps(k, c);
      LeftGoing(k, c);
      OtherFields(k1, k2);
      if c.InJoin? {
        JoinEndGoing(k2, c.child);
      }
    }
  }

  lemma LeftGoing(k: Kernel, c: Cont)
    requires WaitInv(k) && SemWait(k, c.sem).1
    ensures var k1 := SemWait(k, c.sem).0; WokenAreGoing(k1.(conts := k1.conts - {k1.current}))
  {
    var k1 := SemWait(k, c.sem).0;
    if !InvalidSem(k, c.sem) {
      SemWaitIs(k, c.sem);
    }
    LeaveKeepsGoing(k, k1.(conts := k1.conts - {k1.current}));
  }

  lemma JoinEndGoing(k: Kernel, i: nat)
    requires SchedInv(k) && SemInv(k) && WokenAreGoing(k) && i < MAX_PROCESSES
    ensures WokenAreGoing(JoinEnd(k, i))
  {
    DestroyKeepsGoing(k, k.table[i].semWait);
    SetSemWaitUndisturbed(DestroySem(k, k.table[i].semWait), i, -1);
    UndisturbedKeepsGoing(DestroySem(k, k.table[i].semWait), JoinEnd(k, i));
  }

  lemma JoinBeginWaits(k: Kernel, pid: nat)
    requires WaitInv(k)
    ensures var (k1, s, i) := JoinBegin(k, pid); WaitInv(k1)
    ensures var (k1, s, i) := JoinBegin(k, pid);
      k1.current == k.current && k1.conts == k.conts && k1.table[k.current].state == k.table[k.current].state
    ensures var (k1, s, i) := JoinBegin(k, pid);
      s != -1 ==> 0 <= s < MAX_SEMAPHORES && !k.sems[s].used && k1.sems == k.sems[s := k.sems[s].(used := true, value := 0)]
    ensures var (k1, s, i) := JoinBegin(k, pid); s == -1 ==> k1.sems == k.sems
  {
    var (k1, s, i) := JoinBegin(k, pid);
    JoinBeginKeeps(k, pid);
    JoinBeginKeepsSems(k, pid);
    if !(pid == 0 || i == MAX_PROCESSES || k.table[i].state == Terminated || k.table[i].semWait != -1) {
      var k0 := CreateSem(k, 0).0;
      CreateSemKeepsGoing(k, 0);
      SetSemWaitUndisturbed(k0, i, s);
      UndisturbedKeepsGoing(k0, k1);
    }
  }

  lemma JoinWaits(k: Kernel, pid: nat, start: nat)
    requires WaitInv(k) && start < PRIORITY_LEVELS && k.current != 0 && k.table[k.current].state == Running && k.current !in k.conts
    ensures var r := WaitFor(k, pid, start); SemInv(r) && WokenAreGoing(r)
  {
    var (k1, s, i) := JoinBegin(k, pid);
    JoinBeginWaits(k, pid);
    if s != -1 {
      WaitStretch(k1, InJoin(s, i), start);
    }
  }

  lemma SemCallWaits(k: Kernel, e: Event)
    requires WaitInv(k) && Possible(k, e) && (e.SysSemOpen? || e.SysSemClose? || e.SysSemPost?)
    ensures var r := Apply(k, e); SemInv(r) && WokenAreGoing(r)
  {
    match e {
      case SysSemOpen(value) => CreateSemKeeps(k, value); CreateSemKeepsGoing(k, value);
      case SysSemClose(s) => DestroySemKeepsSems(k, s); DestroyKeepsGoing(k, s);
      case SysSemPost(s) => SemPostKeepsSems(k, s); PostKeepsGoing(k, s);
    }
  }

  lemma SysSemWaitWaits(k: Kernel, e: Event)
    requires WaitInv(k) && Possible(k, e) && Respects(k, e) && e.SysSemWait?
    ensures var r := Apply(k, e); SemInv(r) && WokenAreGoing(r)
  {
    WaitStretch(k, InWait(e.sem), e.start);
  }

  lemma ResumeWaits(k: Kernel, e: Event)
    requires WaitInv(k) && Possible(k, e) && e.Resume?
    ensures var r := Apply(k, e); SemInv(r) && WokenAreGoing(r)
  {
    WaitStretch(k, k.conts[k.current], e.start);
  }

  lemma SysJoinWaits(k: Kernel, e: Event)
    requires WaitInv(k) && Possible(k, e) && Respects(k, e) && e.SysJoin?
    ensures var r := Apply(k, e); SemInv(r) && WokenAreGoing(r)
  {
    if !(e.pid >= MAX_PROCESSES || e.pid == CurrentPid(k)) {
      JoinWaits(k, e.pid, e.start);
    }
  }

  /** Every kernel entry keeps the semaphores' invariant. */
  lemma StepKeepsWaits(k: Kernel, e: Event)
    requires WaitInv(k) && Possible(k, e) && Careful(k, e) && Respects(k, e)
    ensures WaitInv(Apply(k, e))
  {
    StepKeeps(k, e);
    if e.SysBlock? || e.SysWake? || e.SysToggle? || e.SysPriority? {
      ProcessCallWaits(k, e);
    } else if e.Tick? || e.Yield? || e.SysSleep? {
      SwitchCallWaits(k, e);
    } else if e.MainCreate? || e.SysCreate? {
      CreateCallWaits(k, e);
    } else if e.SysKill? || e.KeyKill? || e.SysExit? {
      KillCallWaits(k, e);
    } else if e.SysSemOpen? || e.SysSemClose? || e.SysSemPost? {
      SemCallWaits(k, e);
    } else if e.SysSemWait? {
      SysSemWaitWaits(k, e);
    } else if e.SysJoin? {
      SysJoinWaits(k, e);
    } else {
      ResumeWaits(k, e);
    }
  }

  ghost predicate RespectfulRun(k: Kernel, es: seq<Event>)
    requires Sized(k)
    decreases |es|
  {
    es == [] || (Possible(k, es[0]) && Careful(k, es[0]) && Respects(k, es[0]) && RespectfulRun(Apply(k, es[0]), es[1..]))
  }

  lemma {:induction false} RespectfulIsCareful(k: Kernel, es: seq<Event>)
    requires Sized(k) && RespectfulRun(k, es)
    ensures CarefulRun(k, es)
    decreases |es|
  {
    if es != [] {
      RespectfulIsCareful(Apply(k, es[0]), es[1..]);
    }
  }

  lemma {:induction false} RunKeepsWaits(k: Kernel, es: seq<Event>)
    requires WaitInv(k) && RespectfulRun(k, es) && CarefulRun(k, es)
    ensures WaitInv(Run(k, es))
    decreases |es|
  {
    if es != [] {
      StepKeepsWaits(k, es[0]);
      RunKeepsWaits(Apply(k, es[0]), es[1..]);
    }
  }

  // Whoever was woken for a semaphore is running or has an entry in its ready queue.
  lemma WokenAreScheduled(k: Kernel, s: nat)
    requires WaitInv(k) && s < MAX_SEMAPHORES
    ensures forall i :: i in Woken(k, s) ==> k.table[i].state == Running || (k.table[i].state == Ready && HasEntry(k, i))
  {
    forall i | i in Woken(k, s)
      ensures k.table[i].state == Running || (k.table[i].state == Ready && HasEntry(k, i))
    {
      assert !QueuedSlot(k, i);
      assert k.table[i].state == Ready ==> HasEntry(k, i);
    }
  }

  /** In every state of a run: while anyone is queued on a semaphore, its value is at most the number of
      processes already woken for it that have not retried, and each of those is running or has an entry
      in the queue it will be scheduled from. */
  lemma NoLostWakeUp(k: Kernel, es: seq<Event>, s: nat)
    requires WaitInv(k) && RespectfulRun(k, es) && CarefulRun(k, es) && s < MAX_SEMAPHORES
    ensures var r := Run(k, es); Queue(r.sems[s]) != [] ==> r.sems[s].value <= |Woken(r, s)|
    ensures var r := Run(k, es); forall i :: i in Woken(r, s) ==> r.table[i].state == Running || (r.table[i].state == Ready && HasEntry(r, i))
  {
    RunKeepsWaits(k, es);
    assert Bound(Run(k, es), s);
    WokenAreScheduled(Run(k, es), s);
  }

  /** The kernel starts in a state that meets the invariant, so every run from it does. */
  lemma BootKeepsWaits()
    ensures WaitInv(Boot())
  {
    var k := Boot();
    assert RingsOk(k) by { EmptyIsOk(); }
    forall s | 0 <= s < MAX_SEMAPHORES
      ensures CellsOk(k, s) && Bound(k, s)
    {
      EmptyIsOk();
      assert k.sems[s] == EmptySem();
    }
  }

  /** So no wake-up is lost in any respectful run of the kernel from its start. */
  lemma KernelLosesNoWakeUp(es: seq<Event>, s: nat)
    requires RespectfulRun(Boot(), es) && s < MAX_SEMAPHORES
    ensures CarefulRun(Boot(), es)
    ensures var r := Run(Boot(), es); Queue(r.sems[s]) != [] ==> r.sems[s].value <= |Woken(r, s)|
    ensures var r := Run(Boot(), es); forall i :: i in Woken(r, s) ==> r.table[i].state == Running || (r.table[i].state == Ready && HasEntry(r, i))
  {
    BootKeepsWaits();
    RespectfulIsCareful(Boot(), es);
    NoLostWakeUp(Boot(), es, s);
  }
}
