/** What goes wrong when the slot of a process is claimed before whoever waited for it has come back. */
module FamilyWitnesses {
  import opened KernelState
  import opened KernelRuns
  import opened SchedulerProofs
  import opened KernelStart
  import opened KernelWitnesses
  import opened Foreground

  // A process of the first priority.
  predicate Stands(k: Kernel, i: nat, pid: nat, s: PState, semWait: int) {
    Sized(k) && i < MAX_PROCESSES && k.table[i].pid == pid && k.table[i].state == s && k.table[i].priority == 0 && k.table[i].semWait == semWait
  }

  // The shell and two more in the first slots; who is queued, and who runs.
  predicate Three(k: Kernel, pid2: nat, ready: seq<nat>, current: nat) {
    && Sized(k) && k.table[0].pid == 0 && k.table[1].pid == 1 && k.table[2].pid == pid2 && k.table[3].pid == 3
    && k.ready == [ready, [], []] && k.current == current && k.dead == [] && k.system && !k.firstSwitch
  }

  lemma SlotsOfThree(k: Kernel)
    requires Sized(k) && k.table[0].pid == 0 && k.table[1].pid == 1 && k.table[2].pid == 2 && k.table[3].pid == 3
    ensures Slot(k, 1) == 1 && Slot(k, 2) == 2 && Slot(k, 3) == 3
  {
    assert Slot(k, 1) <= 1 && Slot(k, 2) <= 2 && Slot(k, 3) <= 3;
  }

  // The shell is queued on semaphore 0 to wait for the process in slot 2.
  predicate ShellQueued(k: Kernel) {
    && Three(k, 2, [3], 2) && k.count == 4 && k.nextPid == 4 && |k.table[3].kin.kids| < MAX_CHILDREN
    && Stands(k, 1, 1, Blocked, -1) && k.table[1].previous == Ready && Stands(k, 2, 2, Running, 0) && Stands(k, 3, 3, Ready, -1)
    && k.conts == map[1 := InJoin(0, 2)] && k.sems[0].used && k.sems[0].value == 0 && k.sems[0].cur == 0 && k.sems[0].waiting[0] == 1
  }

  /** The shell waits for its first child. */
  lemma ShellWaits(k: Kernel) returns (r: Kernel)
    requires Looks(k, [Ready, Running, Ready, Ready], [2, 3], 1) && Quiet(k) && k.count == 4
    ensures Possible(k, SysJoin(2, 0)) && Careful(k, SysJoin(2, 0)) && r == Apply(k, SysJoin(2, 0)) && ShellQueued(r)
  {
    var ps := [Ready, Running, Ready, Ready];
    HeldAt(k, ps, 0);
    HeldAt(k, ps, 1);
    HeldAt(k, ps, 2);
    HeldAt(k, ps, 3);
    SlotsOfThree(k);
    var k1 := ShellBegins(k);
    r := ShellParks(k, k1);
  }

  lemma ShellBegins(k: Kernel) returns (k1: Kernel)
    requires Sized(k) && Quiet(k) && Slot(k, 2) == 2 && Stands(k, 2, 2, Ready, -1)
    ensures JoinBegin(k, 2) == (k1, 0, 2)
    ensures k1 == k.(table := k.table[2 := k.table[2].(semWait := 0)], sems := k.sems[0 := EmptySem().(used := true)])
  {
    assert k.sems[0] == EmptySem() && FindFreeSem(k.sems, 0) == 0;
    k1 := JoinBegin(k, 2).0;
  }

  lemma ShellParks(k: Kernel, k1: Kernel) returns (r: Kernel)
    requires Three(k, 2, [2, 3], 1) && Quiet(k) && k.count == 4 && k.nextPid == 4 && Slot(k, 1) == 1 && Slot(k, 2) == 2
    requires Stands(k, 1, 1, Running, -1) && Stands(k, 2, 2, Ready, -1) && Stands(k, 3, 3, Ready, -1)
    requires JoinBegin(k, 2) == (k1, 0, 2) && Sized(k1)
    requires k1 == k.(table := k.table[2 := k.table[2].(semWait := 0)], sems := k.sems[0 := EmptySem().(used := true)])
    ensures r == WaitFor(k, 2, 0) && ShellQueued(r)
  {
    var k2 := SemWait(k1, 0).0;
    SemWaitIs(k1, 0);
    SlotsOfThree(k1);
    var x := SchedulerProofs.Queued(k1.sems[0], 1);
    assert k2 == k1.(table := k1.table[1 := k1.table[1].(previous := Ready, state := Blocked)], sems := k1.sems[0 := x]);
    var k3 := k2.(conts := k2.conts[1 := InJoin(0, 2)]);
    assert [2] + [3] == [2, 3];
    NextOf(k3, 2, [3]);
    r := Scheduler(k3, 0);
  }

  // The child has ended, and the shell is ready.
  predicate ShellWoken(k: Kernel, pid2: nat, s2: PState, sw: int, ready: seq<nat>) {
    && Three(k, pid2, ready, 3) && k.count >= 3 && k.nextPid >= 4
    && Stands(k, 1, 1, Ready, -1) && Stands(k, 2, pid2, s2, sw) && Stands(k, 3, 3, Running, -1)
    && k.conts == map[1 := InJoin(0, 2)] && k.sems[0].used && k.sems[0].value == 1
  }

  /** The child exits, which wakes the shell. */
  lemma ChildExits(k: Kernel) returns (r: Kernel)
    requires ShellQueued(k)
    ensures Possible(k, SysExit(0, 0)) && Careful(k, SysExit(0, 0)) && r == Apply(k, SysExit(0, 0))
    ensures ShellWoken(r, 2, Terminated, 0, [1]) && r.nextPid == 4 && r.count == 3 && |r.table[3].kin.kids| < MAX_CHILDREN
  {
    var k1 := SetExit(k, 0);
    r := ChildEnds(k1);
  }

  lemma ChildEnds(k: Kernel) returns (r: Kernel)
    requires ShellQueued(k)
    ensures r == Scheduler(Kill(k, 2).0, 0)
    ensures ShellWoken(r, 2, Terminated, 0, [1]) && r.nextPid == 4 && r.count == 3 && |r.table[3].kin.kids| < MAX_CHILDREN
  {
    var k2 := Terminate(k, 2);
    SlotsOfThree(k);
    TerminateIs(k, 2);
    TerminateGives(k, 2);
    assert SlotKin(k, k2, 1) && SlotKin(k, k2, 3) && SlotKin(k, k2, 0);
    assert k2.table[3].kin.kids == k.table[3].kin.kids;
    KillIs(k, 2);
    var k3 := ShellIsPosted(k, k2);
    r := ShellWaitsItsTurn(k, k3, Kill(k, 2).0);
  }

  lemma ShellIsPosted(k1: Kernel, k2: Kernel) returns (k3: Kernel)
    requires ShellQueued(k1) && Sized(k2) && k2 == k1.(table := k2.table, foreground := k2.foreground)
    requires SlotKin(k1, k2, 0) && SlotKin(k1, k2, 1) && SlotKin(k1, k2, 3) && k2.table[2].pid == 2
    ensures k3 == SemPost(k2, 0) && Sized(k3)
    ensures k3 == k2.(table := k2.table[1 := k2.table[1].(state := Ready)], ready := [[3, 1], [], []], sems := k3.sems)
    ensures k3.sems[0].used && k3.sems[0].value == 1
  {
    SemPostIs(k2, 0);
    SlotsOfThree(SetSem(k2, 0, Posted(k2.sems[0])));
    assert [3] + [1] == [3, 1] && [[3], [], []][0 := [3, 1]] == [[3, 1], [], []];
    k3 := SemPost(k2, 0);
  }

  lemma ShellWaitsItsTurn(k1: Kernel, k3: Kernel, k4: Kernel) returns (r: Kernel)
    requires ShellQueued(k1) && Sized(k3) && k4 == k3.(dead := [2]) && k3.dead == [] && k3.ready == [[3, 1], [], []]
    requires k3.current == 2 && k3.system && !k3.firstSwitch && k3.count == 4 && k3.nextPid == 4 && k3.conts == k1.conts
    requires Stands(k3, 1, 1, Ready, -1) && Stands(k3, 2, 2, Terminated, 0) && Stands(k3, 3, 3, Ready, -1) && k3.table[0].pid == 0
    requires |k3.table[3].kin.kids| < MAX_CHILDREN && k3.sems[0].used && k3.sems[0].value == 1
    ensures r == Scheduler(k4, 0) && ShellWoken(r, 2, Terminated, 0, [1]) && r.nextPid == 4 && r.count == 3
    ensures |r.table[3].kin.kids| < MAX_CHILDREN
  {
    var k5 := Drain(k4);
    assert [2][1..] == [];
    assert FreeTerminated(k4) == k5;
    DrainFirst(k4, 0);
    assert [3] + [1] == [3, 1];
    NextOf(k5, 3, [1]);
    r := Scheduler(k5, 0);
  }

  /** Another process creates a child, which gets the slot. */
  lemma SlotIsClaimed(k: Kernel) returns (r: Kernel)
    requires ShellWoken(k, 2, Terminated, 0, [1]) && k.nextPid == 4 && k.count == 3 && |k.table[3].kin.kids| < MAX_CHILDREN
    ensures Possible(k, SysCreate(true, false, 0)) && Careful(k, SysCreate(true, false, 0)) && r == Apply(k, SysCreate(true, false, 0))
    ensures ShellWoken(r, 4, Ready, -1, [1, 2]) && r.count == 4
  {
    assert FindTerminated(k.table, 1) == 2;
    CreateIs(k, true, false);
    r := Create(k, true, false).0;
    assert SlotKin(k, r, 0) && SlotKin(k, r, 1) && SlotKin(k, r, 3);
    CreateHandsOver(k, true, false);
    assert [1] + [2] == [1, 2];
    assert k.conts - {2} == k.conts;
  }

  /** It yields to the shell. */
  lemma ShellTurn(k: Kernel) returns (r: Kernel)
    requires ShellWoken(k, 4, Ready, -1, [1, 2])
    ensures Possible(k, Yield(0)) && Careful(k, Yield(0)) && r == Apply(k, Yield(0))
    ensures Three(r, 4, [2, 3], 1) && Stands(r, 1, 1, Running, -1) && Stands(r, 2, 4, Ready, -1) && Stands(r, 3, 3, Ready, -1)
    ensures r.conts == map[1 := InJoin(0, 2)] && r.sems[0].used && r.sems[0].value == 1
  {
    assert [1] + [2] == [1, 2] && [2] + [3] == [2, 3];
    SwitchIs(k, 3, 1, [2]);
    assert k.ready[0 := [2, 3]] == [[2, 3], [], []];
    r := Scheduler(k, 0);
  }

  /** The shell comes back: it clears the record of the new process, and leaves its semaphore open for good. */
  lemma ShellReturns(k: Kernel) returns (r: Kernel)
    requires Three(k, 4, [2, 3], 1) && Stands(k, 1, 1, Running, -1) && Stands(k, 2, 4, Ready, -1) && Stands(k, 3, 3, Ready, -1)
    requires k.conts == map[1 := InJoin(0, 2)] && k.sems[0].used && k.sems[0].value == 1
    ensures Possible(k, Resume(0)) && Careful(k, Resume(0)) && r == Apply(k, Resume(0))
    ensures Sized(r) && r.sems[0].used && r.sems[0].value == 0 && r.conts == map[]
    ensures r.table[1].semWait == -1 && r.table[2].semWait == -1 && r.table[3].semWait == -1 && r.table[2].pid == 4
  {
    SemWaitIs(k, 0);
    assert k.conts - {1} == map[];
    assert k.table[2 := k.table[2].(semWait := -1)] == k.table;
    r := Apply(k, Resume(0));
  }

  function EarlyClaim(): seq<Event> {
    TwoChildren() + [SysJoin(2, 0)] + [SysExit(0, 0)] + [SysCreate(true, false, 0)] + [Yield(0)] + [Resume(0)]
  }

  /** The shell waits for a child, which exits, and before the shell comes back another process creates one in the same slot:
      the semaphore stays in use with nobody to close it. */
  lemma EarlyClaimLeaksSemaphore() returns (r: Kernel)
    ensures CarefulRun(Boot(), EarlyClaim()) && r == Run(Boot(), EarlyClaim())
    ensures r.sems[0].used && r.sems[0].value == 0 && r.conts == map[]
    ensures r.table[1].semWait == -1 && r.table[2].semWait == -1 && r.table[3].semWait == -1 && r.table[2].pid == 4
  {
    var k0 := TwoChildrenStart();
    var k1 := ShellWaits(k0);
    LeadsOn(TwoChildren(), k0, SysJoin(2, 0), k1);
    var k2 := ChildExits(k1);
    LeadsOn(TwoChildren() + [SysJoin(2, 0)], k1, SysExit(0, 0), k2);
    var k3 := SlotIsClaimed(k2);
    LeadsOn(TwoChildren() + [SysJoin(2, 0)] + [SysExit(0, 0)], k2, SysCreate(true, false, 0), k3);
    r := ShellLeaks(k3, TwoChildren() + [SysJoin(2, 0)] + [SysExit(0, 0)] + [SysCreate(true, false, 0)]);
  }

  lemma ShellLeaks(k: Kernel, es: seq<Event>) returns (r: Kernel)
    requires Leads(es, k) && ShellWoken(k, 4, Ready, -1, [1, 2])
    ensures CarefulRun(Boot(), es + [Yield(0)] + [Resume(0)]) && r == Run(Boot(), es + [Yield(0)] + [Resume(0)])
    ensures r.sems[0].used && r.sems[0].value == 0 && r.conts == map[]
    ensures r.table[1].semWait == -1 && r.table[2].semWait == -1 && r.table[3].semWait == -1 && r.table[2].pid == 4
  {
    var k4 := ShellTurn(k);
    LeadsOn(es, k, Yield(0), k4);
    r := ShellReturns(k4);
    LeadsOn(es + [Yield(0)], k4, Resume(0), r);
    LeadsThere(es + [Yield(0)] + [Resume(0)], r);
  }
}
