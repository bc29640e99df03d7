/** The exit status of a process: what it passes to exit is what whoever waits for it gets, and whoever asks later as long
    as its slot is not claimed again. */
module ExitStatus {
  import opened KernelState
  import opened KernelRuns
  import opened SchedulerProofs
  import opened SleepProofs
  import opened SemaphoreState
  import opened SemaphoreRuns
  import opened Households
  import opened Foreground
  import opened JoinState
  import opened JoinRuns

  /** The process with this pid has ended with this status, and does not run. */
  predicate HasLeft(k: Kernel, i: nat, pid: nat, status: int) {
    && Sized(k) && 1 <= i < MAX_PROCESSES && k.table[i].pid == pid && k.table[i].state == Terminated && k.table[i].kin.exit == status
    && (k.current == i ==> !k.system)
  }

  // ---------------------------------------------------------------- who runs

  // Either the same process has the processor, or one that is running, or the system has stopped.
  predicate Moves(k: Kernel, r: Kernel)
    requires Sized(k) && Sized(r)
  {
    (r.current == k.current && r.system == k.system) || r.table[r.current].state == Running || !r.system
  }

  lemma SwitchMoves(k: Kernel, k1: Kernel, start: nat)
    requires Sized(k) && Sized(k1) && start < PRIORITY_LEVELS
    ensures Moves(k, Scheduler(k1, start))
  {
  }

  lemma WaitMoves(k: Kernel, c: Cont, start: nat)
    requires Sized(k) && start < PRIORITY_LEVELS && (c.InJoin? ==> c.child < MAX_PROCESSES)
    ensures Moves(k, SemWaitFrom(k, c, start))
  {
    var (k1, done) := SemWait(k, c.sem);
    OnlyThatSem(k, c.sem);
    if done {
      var k2 := k1.(conts := k1.conts - {k1.current});
      if c.InJoin? {
        DestroyCurrent(k2, k2.table[c.child].semWait);
      }
    } else {
      SwitchMoves(k, k1.(conts := k1.conts[k1.current := c]), start);
    }
  }

  lemma WaitForMoves(k: Kernel, pid: nat, start: nat)
    requires Sized(k) && start < PRIORITY_LEVELS
    ensures Moves(k, WaitFor(k, pid, start))
  {
    var (k1, s, i) := JoinBegin(k, pid);
    if s != -1 {
      WaitMoves(k1, InJoin(s, i), start);
    }
  }

  lemma CreateMoves(k: Kernel, e: Event)
    requires Sized(k) && Possible(k, e) && (e.MainCreate? || e.SysCreate?)
    ensures Moves(k, Apply(k, e))
  {
    var foreground := e.MainCreate? || e.foreground;
    var (k1, pid) := Create(k, e.stack, foreground);
    assert k1.current == k.current && k1.system == k.system by { if Claims(k) { CreateIs(k, e.stack, foreground); } }
    if e.SysCreate? && foreground {
      WaitForMoves(k1, AsPid(pid), e.start);
    }
  }

  lemma SwitchCallMoves(k: Kernel, e: Event)
    requires Sized(k) && Possible(k, e) && (e.Tick? || e.Yield? || e.SysSleep? || e.SysKill? || e.SysExit?)
    ensures Moves(k, Apply(k, e))
  {
    match e {
      case Tick(start) => SwitchMoves(k, TimerTick(k), start);
      case Yield(start) => SwitchMoves(k, k, start);
      case SysSleep(seconds, start) => SwitchMoves(k, Sleep(k, seconds).0, start);
      case SysKill(pid, start) => SwitchMoves(k, Kill(k, pid).0, start);
      case SysExit(status, start) => SwitchMoves(k, Kill(SetExit(k, status), CurrentPid(k)).0, start);
    }
  }

  lemma StepMoves(k: Kernel, e: Event)
    requires Sized(k) && Possible(k, e)
    ensures Moves(k, Apply(k, e))
  {
    if e.Tick? || e.Yield? || e.SysSleep? || e.SysKill? || e.SysExit? {
      SwitchCallMoves(k, e);
    } else if e.MainCreate? || e.SysCreate? {
      CreateMoves(k, e);
    } else if e.SysSemWait? || e.Resume? {
      WaitMoves(k, if e.SysSemWait? then InWait(e.sem) else k.conts[k.current], e.start);
    } else if e.SysJoin? {
      WaitForMoves(k, e.pid, e.start);
    } else if e.SysBlock? || e.SysWake? || e.SysToggle? || e.SysPriority? {
      ProcessCallCurrent(k, e);
    } else {
      SemCallCurrent(k, e);
    }
  }

  // ---------------------------------------------------------------- what stays in the slot

  // The slot still holds the process that ended, and its status.
  predicate Gone(k: Kernel, i: nat, pid: nat, status: int)
    requires Sized(k) && i < MAX_PROCESSES
  {
    k.table[i].pid == pid && k.table[i].state == Terminated && k.table[i].kin.exit == status
  }

  lemma KinLeavesGone(k: Kernel, r: Kernel, i: nat, pid: nat, status: int)
    requires KinSame(k, r) && i < MAX_PROCESSES && Gone(k, i, pid, status)
    ensures Gone(r, i, pid, status)
  {
    assert SlotKinSame(k, r, i);
  }

  lemma KillLeavesGone(k: Kernel, victim: nat, i: nat, pid: nat, status: int)
    requires SchedInv(k) && i < MAX_PROCESSES && Gone(k, i, pid, status)
    ensures Gone(Kill(k, victim).0, i, pid, status)
  {
    if Kill(k, victim).1 == 0 {
      var v := Slot(k, victim);
      var t := Terminate(k, v);
      KillGivesBack(k, victim);
      KillIs(k, victim);
      TerminateIs(k, v);
      TerminateKeeps(k, v);
      assert PostsFor(t, k.table[v].semWait, Kill(k, victim).0);
      KillPosts(k, v, t, Kill(k, victim).0);
      assert i != v ==> SlotKin(k, t, i);
    }
  }

  lemma SwitchLeavesGone(k: Kernel, start: nat, i: nat, pid: nat, status: int)
    requires SchedInv(k) && DeadEnded(k) && start < PRIORITY_LEVELS && i < MAX_PROCESSES && Gone(k, i, pid, status)
    ensures Gone(Scheduler(k, start), i, pid, status)
  {
    SchedulerSame(k, start);
    AllIsKin(k, Scheduler(k, start));
    KinLeavesGone(k, Scheduler(k, start), i, pid, status);
  }

  lemma CreateLeavesGone(k: Kernel, stack: bool, foreground: bool, i: nat, pid: nat, status: int)
    requires Sized(k) && i < MAX_PROCESSES && Gone(k, i, pid, status) && (Claims(k) ==> FindTerminated(k.table, 1) != i)
    ensures Gone(Create(k, stack, foreground).0, i, pid, status)
  {
    if Claims(k) {
      CreateIs(k, stack, foreground);
      CreateHandsOver(k, stack, foreground);
      assert SlotKin(k, Create(k, stack, foreground).0, i);
    }
  }

  // No creation claims the slot, or one that still awaits cleanup.
  predicate LeavesSlot(k: Kernel, e: Event, i: nat)
    requires Sized(k)
  {
    (e.MainCreate? || e.SysCreate?) && Claims(k) ==> FindTerminated(k.table, 1) != i && FindTerminated(k.table, 1) !in k.dead
  }

  lemma EndLeavesGone(k: Kernel, e: Event, i: nat, pid: nat, status: int)
    requires SchedInv(k) && DeadEnded(k) && Possible(k, e) && HasLeft(k, i, pid, status) && (e.SysKill? || e.KeyKill? || e.SysExit?)
    ensures Gone(Apply(k, e), i, pid, status) && DeadEnded(Apply(k, e))
  {
    var k1 := if e.SysExit? then SetExit(k, e.status) else k;
    var victim := if e.SysExit? then CurrentPid(k) else e.pid;
    ExitLeavesGone(k, e, i, pid, status);
    KilledGone(k1, victim, i, pid, status);
    if !e.KeyKill? {
      SwitchedGone(Kill(k1, victim).0, e.start, i, pid, status);
    }
  }

  lemma KilledGone(k: Kernel, victim: nat, i: nat, pid: nat, status: int)
    requires SchedInv(k) && DeadEnded(k) && i < MAX_PROCESSES && Gone(k, i, pid, status)
    ensures var r := Kill(k, victim).0; SchedInv(r) && DeadEnded(r) && Gone(r, i, pid, status)
  {
    KillLeavesGone(k, victim, i, pid, status);
    KillLeavesDead(k, victim);
    KillKeeps(k, victim);
  }

  lemma ExitLeavesGone(k: Kernel, e: Event, i: nat, pid: nat, status: int)
    requires SchedInv(k) && DeadEnded(k) && Possible(k, e) && HasLeft(k, i, pid, status) && (e.SysKill? || e.KeyKill? || e.SysExit?)
    ensures var k1 := if e.SysExit? then SetExit(k, e.status) else k; SchedInv(k1) && DeadEnded(k1) && Gone(k1, i, pid, status)
  {
    if e.SysExit? {
      SetExitOnly(k, e.status);
      KinOnlyKeeps(k, SetExit(k, e.status));
    }
  }

  lemma CreateCallLeavesGone(k: Kernel, e: Event, i: nat, pid: nat, status: int)
    requires SchedInv(k) && DeadEnded(k) && Possible(k, e) && Careful(k, e) && HasLeft(k, i, pid, status) && LeavesSlot(k, e, i)
    requires e.MainCreate? || e.SysCreate?
    ensures Gone(Apply(k, e), i, pid, status) && DeadEnded(Apply(k, e))
  {
    var foreground := e.MainCreate? || e.foreground;
    CreateLeavesGone(k, e.stack, foreground, i, pid, status);
    CreateLeavesDead(k, e.stack, foreground);
    if e.SysCreate? && foreground {
      var (k1, child) := Create(k, e.stack, true);
      var r := WaitFor(k1, AsPid(child), e.start);
      CreateKeeps(k, e.stack, true);
      WaitForKin(k1, AsPid(child), e.start);
      KinLeavesGone(k1, r, i, pid, status);
      KinLeavesDead(k1, r);
    }
  }

  lemma StepLeavesLeft(k: Kernel, e: Event, i: nat, pid: nat, status: int)
    requires SchedInv(k) && DeadEnded(k) && Possible(k, e) && Careful(k, e) && HasLeft(k, i, pid, status) && LeavesSlot(k, e, i)
    ensures HasLeft(Apply(k, e), i, pid, status) && DeadEnded(Apply(k, e))
  {
    StepMoves(k, e);
    if e.SysKill? || e.KeyKill? || e.SysExit? {
      EndLeavesGone(k, e, i, pid, status);
    } else if e.MainCreate? || e.SysCreate? {
      CreateCallLeavesGone(k, e, i, pid, status);
    } else {
      StepKin(k, e);
      KinLeavesGone(k, Apply(k, e), i, pid, status);
      KinLeavesDead(k, Apply(k, e));
    }
  }

  // ---------------------------------------------------------------- exit and after

  lemma ExitingIsGone(k: Kernel, i: nat, pid: nat, status: int)
    requires SchedInv(k) && 1 <= i < MAX_PROCESSES && pid != 0 && Slot(k, pid) == i && k.table[i].kin.exit == status
    ensures Gone(Kill(k, pid).0, i, pid, status)
  {
    var t := Terminate(k, i);
    KillGivesBack(k, pid);
    KillIs(k, pid);
    TerminateIs(k, i);
    TerminateKeeps(k, i);
    assert PostsFor(t, k.table[i].semWait, Kill(k, pid).0);
    KillPosts(k, i, t, Kill(k, pid).0);
  }

  lemma ExitKills(k: Kernel, status: int)
    requires SchedInv(k) && DeadEnded(k) && k.current != 0 && CurrentPid(k) != 0
    ensures var r := Kill(SetExit(k, status), CurrentPid(k)).0; SchedInv(r) && DeadEnded(r) && Gone(r, k.current, CurrentPid(k), status)
  {
    var k1 := SetExit(k, status);
    SetExitOnly(k, status);
    KinOnlyKeeps(k, k1);
    SlotIs(k1, k.current);
    ExitingIsGone(k1, k.current, CurrentPid(k), status);
    KillLeavesDead(k1, CurrentPid(k));
    KillKeeps(k1, CurrentPid(k));
  }

  /** A process that exits has left with the status it passed. */
  lemma ExitLeaves(k: Kernel, e: Event)
    requires SchedInv(k) && DeadEnded(k) && e.SysExit? && Possible(k, e) && CurrentPid(k) != 0
    ensures HasLeft(Apply(k, e), k.current, CurrentPid(k), e.status) && DeadEnded(Apply(k, e))
  {
    ExitKills(k, e.status);
    SwitchedGone(Kill(SetExit(k, e.status), CurrentPid(k)).0, e.start, k.current, CurrentPid(k), e.status);
  }

  lemma SwitchedGone(k: Kernel, start: nat, i: nat, pid: nat, status: int)
    requires SchedInv(k) && DeadEnded(k) && start < PRIORITY_LEVELS && 1 <= i < MAX_PROCESSES && Gone(k, i, pid, status)
    ensures HasLeft(Scheduler(k, start), i, pid, status) && DeadEnded(Scheduler(k, start))
  {
    SwitchLeavesGone(k, start, i, pid, status);
    SchedulerSame(k, start);
    SwitchedFrom(k, start);
  }

  // The one that has just ended is not selected.
  lemma SwitchedFrom(k: Kernel, start: nat)
    requires Sized(k) && start < PRIORITY_LEVELS
    ensures var r := Scheduler(k, start); r.system ==> r.table[r.current].state == Running
  {
  }

  // A run that leaves the slot alone.
  ghost predicate SparesSlot(k: Kernel, es: seq<Event>, i: nat)
    requires Sized(k)
    decreases |es|
  {
    es == [] || (Possible(k, es[0]) && Careful(k, es[0]) && LeavesSlot(k, es[0], i) && SparesSlot(Apply(k, es[0]), es[1..], i))
  }

  lemma {:induction false} StatusStays(k: Kernel, es: seq<Event>, i: nat, pid: nat, status: int)
    requires SchedInv(k) && DeadEnded(k) && HasLeft(k, i, pid, status) && SparesSlot(k, es, i) && CarefulRun(k, es)
    ensures HasLeft(Run(k, es), i, pid, status)
    decreases |es|
  {
    if es != [] {
      StepKeeps(k, es[0]);
      StepLeavesLeft(k, es[0], i, pid, status);
      StatusStays(Apply(k, es[0]), es[1..], i, pid, status);
    }
  }

  /** What a process passes to exit is its exit status in every later state, until its slot is claimed again: wait_process
      called then gives it at once. */
  lemma ExitStatusStays(k: Kernel, status: int, start: nat, es: seq<Event>, before: int)
    requires SchedInv(k) && DeadEnded(k) && Possible(k, SysExit(status, start)) && CurrentPid(k) != 0
    requires SparesSlot(Apply(k, SysExit(status, start)), es, k.current) && CarefulRun(Apply(k, SysExit(status, start)), es)
    ensures var r := Run(Apply(k, SysExit(status, start)), es);
      && SchedInv(r) && r.table[k.current].state == Terminated && r.table[k.current].kin.exit == status
      && StatusAtCall(r, CurrentPid(k), before) == status && JoinBegin(r, CurrentPid(k)).1 == -1
  {
    var k1 := Apply(k, SysExit(status, start));
    var r := Run(k1, es);
    ExitLeaves(k, SysExit(status, start));
    StepKeeps(k, SysExit(status, start));
    StatusStays(k1, es, k.current, CurrentPid(k), status);
    RunKeeps(k1, es);
    SlotIs(r, k.current);
  }

  // The process in slot j is switched out there in every state of the run.
  ghost predicate StaysOut(k: Kernel, es: seq<Event>, j: nat, c: Cont)
    requires Sized(k) && CarefulRun(k, es)
    decreases |es|
  {
    j in k.conts && k.conts[j] == c && (es == [] || StaysOut(Apply(k, es[0]), es[1..], j, c))
  }

  lemma {:induction false} WaitersSlotIsSpared(k: Kernel, es: seq<Event>, j: nat, s: int, i: nat)
    requires Sized(k) && CarefulRun(k, es) && DiscreetRun(k, es) && StaysOut(k, es, j, InJoin(s, i))
    ensures SparesSlot(k, es, i) && j in Run(k, es).conts && Run(k, es).conts[j] == InJoin(s, i)
    decreases |es|
  {
    if es != [] {
      WaitersSlotIsSpared(Apply(k, es[0]), es[1..], j, s, i);
    }
  }

  lemma ReadsTheStatus(k: Kernel, j: nat, start: nat, status: int)
    requires TieInv(k) && Joins(k, j) && k.conts[j].child < MAX_PROCESSES && k.table[k.conts[j].child].kin.exit == status
    requires k.current == j && Possible(k, Resume(start))
    ensures Apply(k, Resume(start)).table[k.conts[j].child].kin.exit == status && j !in Apply(k, Resume(start)).conts
  {
    WaitReturns(k, start);
  }

  /** Whoever waits for a process gets the status that it passes to exit: from that call on, whatever happens until the waiter
      comes back, the status is there, the waiter is running or in a ready queue, and when it comes back
      it reads that status. */
  lemma WaiterGetsStatus(k: Kernel, status: int, start: nat, es: seq<Event>, j: nat, again: nat)
    requires TieInv(k) && Possible(k, SysExit(status, start)) && Respects(k, SysExit(status, start)) && CurrentPid(k) != 0
    requires Joins(k, j) && k.conts[j].child == k.current
    requires var k1 := Apply(k, SysExit(status, start)); CarefulRun(k1, es) && DiscreetRun(k1, es) && StaysOut(k1, es, j, k.conts[j])
    ensures var r := Run(Apply(k, SysExit(status, start)), es);
      && Joins(r, j) && WaitsRightly(r, j) && r.table[k.current].state == Terminated && r.table[k.current].kin.exit == status
      && (r.current == j && Possible(r, Resume(again)) ==>
            j !in Apply(r, Resume(again)).conts && Apply(r, Resume(again)).table[k.current].kin.exit == status)
  {
    var k1 := Apply(k, SysExit(status, start));
    var r := Run(k1, es);
    StepKeepsTies(k, SysExit(status, start));
    RunKeepsTies(k1, es);
    WaitersSlotIsSpared(k1, es, j, k.conts[j].sem, k.current);
    ExitStatusStays(k, status, start, es, 0);
    TiedWaitsRightly(r, j);
    if r.current == j && Possible(r, Resume(again)) {
      ReadsTheStatus(r, j, again, status);
    }
  }
}
