/** Runs from the start of the kernel after which no live process has the foreground, one for each way in which a run
    can lose it. */
module ForegroundWitnesses {
  import opened KernelState
  import opened KernelRuns
  import opened SchedulerProofs
  import opened Households
  import opened KernelStart
  import opened KernelWitnesses
  import Front = Foreground
  import opened SemaphoreRuns
  import opened FamilyWitnesses

  // ---------------------------------------------------------------- a child in the foreground

  // The first n slots hold processes with these pids, the others none.
  predicate Pids(k: Kernel, pids: seq<nat>) {
    && Sized(k) && 1 <= |pids| <= 8
    && (forall i :: 0 <= i < |pids| ==> k.table[i].pid == pids[i])
    && (forall i :: |pids| <= i < MAX_PROCESSES ==> k.table[i].pid == 0 && k.table[i].state == Terminated)
  }

  lemma PidsHeld(k: Kernel, ps: seq<PState>, pids: seq<nat>)
    requires Sized(k) && Holds(k, ps) && |pids| == |ps| && forall i :: 0 <= i < |pids| ==> pids[i] == i
    ensures Pids(k, pids)
  {
    forall i | 0 <= i < |pids|
      ensures k.table[i].pid == i
    {
      HeldAt(k, ps, i);
    }
  }

  /** The shell starts in the foreground. */
  lemma ShellInFront() returns (k: Kernel)
    ensures Leads([MainCreate(true), Tick(0)], k) && Looks(k, [Ready, Running], [], 1) && k.count == 2 && Quiet(k)
    ensures k.table[1].kin.foreground && !k.table[0].kin.foreground && k.foreground == 1
  {
    k := ShellStarts();
    var es := [MainCreate(true), Tick(0)];
    LeadsThere(es, k);
    var k1 := Apply(Boot(), MainCreate(true));
    CreateHandsOverAtBoot(k1);
    ShellInOrder(k1);
    assert es[1..] == [Tick(0)] && [Tick(0)][1..] == [];
    assert Run(k1, [Tick(0)]) == k;
    TickKeepsFront(k1, k);
  }

  lemma TickKeepsFront(k: Kernel, r: Kernel)
    requires SchedInv(k) && DeadEnded(k) && Possible(k, Tick(0)) && r == Apply(k, Tick(0)) && k.table[1].kin.foreground && !k.table[0].kin.foreground && k.foreground == 1
    ensures r.table[1].kin.foreground && !r.table[0].kin.foreground && r.foreground == 1
  {
    StepKin(k, Tick(0));
    assert SlotKinSame(k, r, 0) && SlotKinSame(k, r, 1);
  }

  lemma CreateHandsOverAtBoot(k: Kernel)
    requires Possible(Boot(), MainCreate(true)) && Careful(Boot(), MainCreate(true)) && k == Apply(Boot(), MainCreate(true))
    ensures k.table[1].kin.foreground && !k.table[0].kin.foreground && k.foreground == 1 && k.dead == []
  {
    Front.CreateHandsOver(Boot(), true, true);
    assert FindTerminated(Boot().table, 1) == 1;
    CreateIs(Boot(), true, true);
  }

  lemma ShellInOrder(k: Kernel)
    requires Possible(Boot(), MainCreate(true)) && Careful(Boot(), MainCreate(true)) && k == Apply(Boot(), MainCreate(true))
    ensures SchedInv(k)
  {
    BootKeepsWaits();
    StepKeeps(Boot(), MainCreate(true));
  }

  // The shell waits for its child, which runs in the foreground.
  predicate ChildInFront(k: Kernel) {
    && Pids(k, [0, 1, 2]) && k.nextPid == 3 && k.count == 3 && k.current == 2 && k.dead == [] && k.system && !k.firstSwitch
    && k.ready == [[], [], []] && Stands(k, 1, 1, Blocked, -1) && k.table[1].previous == Ready && Stands(k, 2, 2, Running, 0)
    && k.table[0].state == Ready && k.table[2].kin == Kin(1, [], true, -1) && k.foreground == 2 && !k.table[0].kin.foreground && !k.table[1].kin.foreground
    && k.conts == map[1 := InJoin(0, 2)] && k.sems[0].used && k.sems[0].value == 0 && k.sems[0].cur == 0 && k.sems[0].last == 1 && k.sems[0].waiting[0] == 1
  }

  /** The shell creates it. */
  lemma ChildGoesInFront(k: Kernel) returns (r: Kernel)
    requires Looks(k, [Ready, Running], [], 1) && k.count == 2 && Quiet(k) && k.table[1].kin.foreground && !k.table[0].kin.foreground
    ensures var e := SysCreate(true, true, 0); Possible(k, e) && Careful(k, e) && r == Apply(k, e) && ChildInFront(r)
  {
    HeldAt(k, [Ready, Running], 1);
    var k1 := ChildIsCreated(k);
    var k2 := ShellWillWait(k1);
    r := ShellLeaves(k2);
  }

  lemma ChildIsCreated(k: Kernel) returns (r: Kernel)
    requires Looks(k, [Ready, Running], [], 1) && k.count == 2 && Quiet(k) && k.table[1].kin.foreground && !k.table[0].kin.foreground
    ensures Create(k, true, true) == (r, 2) && !LosesSlot(k, true)
    ensures Looks(r, [Ready, Running, Ready], [2], 1) && r.count == 3 && Quiet(r) && r.table[2].kin == Kin(1, [], true, -1)
    ensures r.foreground == 2 && !r.table[0].kin.foreground && !r.table[1].kin.foreground
  {
    var ps := [Ready, Running];
    CreateHolds(k, ps, true);
    Front.CreateHandsOver(k, true, true);
    NextSlot(k, ps);
    r := Create(k, true, true).0;
    assert ps + [Ready] == [Ready, Running, Ready] && [] + [2] == [2] && [[], [], []][0 := [2]] == [[2], [], []];
  }

  lemma ShellWillWait(k: Kernel) returns (r: Kernel)
    requires Looks(k, [Ready, Running, Ready], [2], 1) && k.count == 3 && Quiet(k) && k.table[2].kin == Kin(1, [], true, -1)
    requires k.foreground == 2 && !k.table[0].kin.foreground && !k.table[1].kin.foreground
    ensures JoinBegin(k, 2) == (r, 0, 2) && ShellAsks(r)
  {
    var ps := [Ready, Running, Ready];
    HeldAt(k, ps, 0);
    HeldAt(k, ps, 1);
    HeldAt(k, ps, 2);
    SlotHeld(k, ps, 2);
    PidsHeld(k, ps, [0, 1, 2]);
    r := ShellBegins(k);
  }

  // The shell has asked to wait for its child.
  predicate ShellAsks(k: Kernel) {
    && Pids(k, [0, 1, 2]) && k.count == 3 && k.nextPid == 3 && k.ready == [[2], [], []] && k.current == 1
    && k.dead == [] && k.system && !k.firstSwitch && k.table[0].state == Ready && k.conts == map[]
    && Stands(k, 1, 1, Running, -1) && Stands(k, 2, 2, Ready, 0) && k.table[2].kin == Kin(1, [], true, -1) && k.foreground == 2
    && !k.table[0].kin.foreground && !k.table[1].kin.foreground && k.sems[0] == EmptySem().(used := true)
  }

  lemma ShellLeaves(k: Kernel) returns (r: Kernel)
    requires ShellAsks(k)
    ensures r == SemWaitFrom(k, InJoin(0, 2), 0) && ChildInFront(r)
  {
    var k1 := ShellStops(k);
    assert [2] + [] == [2];
    NextOf(k1, 2, []);
    r := Scheduler(k1, 0);
    ChildIsInFront(k, k1, r);
  }

  lemma ChildIsInFront(k: Kernel, k1: Kernel, r: Kernel)
    requires ShellAsks(k) && Sized(k1) && Sized(r)
    requires k1 == k.(table := k.table[1 := k.table[1].(previous := Ready, state := Blocked)],
                      sems := k.sems[0 := SchedulerProofs.Queued(k.sems[0], 1)], conts := map[1 := InJoin(0, 2)])
    requires r == k1.(table := k1.table[2 := k1.table[2].(state := Running)], ready := [[], [], []], current := 2)
    ensures ChildInFront(r)
  {
  }

  lemma ShellStops(k: Kernel) returns (r: Kernel)
    requires ShellAsks(k)
    ensures Sized(r) && SemWaitFrom(k, InJoin(0, 2), 0) == Scheduler(r, 0)
    ensures r == k.(table := k.table[1 := k.table[1].(previous := Ready, state := Blocked)],
                    sems := k.sems[0 := SchedulerProofs.Queued(k.sems[0], 1)], conts := map[1 := InJoin(0, 2)])
  {
    SemWaitIs(k, 0);
    SlotOfShell(SetSem(k, 0, SchedulerProofs.Queued(k.sems[0], 1)));
    r := SemWait(k, 0).0.(conts := map[1 := InJoin(0, 2)]);
  }

  lemma SlotOfShell(k: Kernel)
    requires Sized(k) && k.table[0].pid == 0 && k.table[1].pid == 1
    ensures Slot(k, 1) == 1
  {
    assert Slot(k, 1) <= 1;
  }

  function Opening(): seq<Event> { [MainCreate(true), Tick(0)] + [SysCreate(true, true, 0)] }

  lemma ChildStartsInFront() returns (k: Kernel)
    ensures Leads(Opening(), k) && ChildInFront(k)
  {
    var k0 := ShellInFront();
    k := ChildGoesInFront(k0);
    LeadsOn([MainCreate(true), Tick(0)], k0, SysCreate(true, true, 0), k);
  }

  // ---------------------------------------------------------------- a father that is gone

  /** These entries are possible, one after the other, and lead from k to r. */
  ghost predicate Goes(k: Kernel, es: seq<Event>, r: Kernel)
    requires Sized(k)
    decreases |es|
  {
    if es == [] then r == k else Possible(k, es[0]) && Goes(Apply(k, es[0]), es[1..], r)
  }

  // A process that nobody has on his list, in the foreground, whose father is in slot 2.
  predicate Stray(k: Kernel) {
    && Pids(k, [0, 1, 2, 3]) && k.table[0].state == Ready && k.system && !k.firstSwitch && k.ready == [[], [], []]
    && Stands(k, 3, 3, Ready, -1) && k.table[3].kin == Kin(2, [], true, -1) && k.foreground == 3 && !k.table[1].kin.foreground
  }

  /** The child creates another in the foreground, for which there is no memory: that one gets the foreground, but
      nobody has it for a child. */
  lemma StrayIsCreated(k: Kernel) returns (r: Kernel)
    requires ChildInFront(k)
    ensures Possible(k, SysCreate(false, true, 0)) && r == Apply(k, SysCreate(false, true, 0)) && Stray(r)
    ensures r.conts == k.conts && r.sems == k.sems && r.current == 2 && r.dead == [] && r.count == 3
    ensures Stands(r, 1, 1, Blocked, -1) && r.table[1].previous == Ready && Stands(r, 2, 2, Running, 0)
    ensures !r.table[2].kin.foreground && r.table[2].kin.kids == []
  {
    r := StrayGetsSlot(k);
    LastPidIsFree(r);
    NobodyToWaitFor(r);
  }

  lemma StrayGetsSlot(k: Kernel) returns (r: Kernel)
    requires ChildInFront(k)
    ensures Create(k, false, true) == (r, -1) && Stray(r)
    ensures r.conts == k.conts && r.sems == k.sems && r.current == 2 && r.dead == [] && r.count == 3
    ensures Stands(r, 1, 1, Blocked, -1) && r.table[1].previous == Ready && Stands(r, 2, 2, Running, 0)
    ensures !r.table[2].kin.foreground && r.table[2].kin.kids == []
  {
    assert k.table[3].state == Terminated;
    assert FindTerminated(k.table, 1) == 3;
    CreateIs(k, false, true);
    Front.CreateHandsOver(k, false, true);
    r := Create(k, false, true).0;
    assert SlotKin(k, r, 0) && SlotKin(k, r, 1) && SlotKin(k, r, 2);
    assert k.conts - {3} == k.conts;
    StrayPids(k, r);
  }

  // A creation that fails waits for pid 65535, which nobody has.
  lemma NobodyToWaitFor(k: Kernel)
    requires Sized(k) && Slot(k, 0xffff) == MAX_PROCESSES
    ensures WaitFor(k, AsPid(-1), 0) == k
  {
    assert AsPid(-1) == 0xffff;
  }

  lemma LastPidIsFree(k: Kernel)
    requires Pids(k, [0, 1, 2, 3])
    ensures Slot(k, 0xffff) == MAX_PROCESSES
  {
    forall i | 0 <= i < MAX_PROCESSES
      ensures k.table[i].pid != 0xffff
    {
      assert i < 4 ==> k.table[i].pid == [0, 1, 2, 3][i];
    }
  }

  lemma StrayPids(k: Kernel, r: Kernel)
    requires Pids(k, [0, 1, 2]) && Sized(r) && ClaimedIn(k, r, 3, false) && k.nextPid == 3
    ensures Pids(r, [0, 1, 2, 3])
  {
    forall i | 0 <= i < MAX_PROCESSES && i != 3
      ensures r.table[i].pid == k.table[i].pid && r.table[i].state == k.table[i].state
    {
      assert SlotKin(k, r, i);
    }
  }

  // The father is gone, and the shell has the processor.
  predicate FatherGone(k: Kernel) {
    Stray(k) && k.current == 1 && Stands(k, 1, 1, Running, -1) && k.table[2].state == Terminated && !k.table[2].kin.foreground
  }

  // The shell has been woken for its semaphore.
  predicate Opened(k: Kernel) {
    Sized(k) && k.sems[0].used && k.sems[0].value == 1 && k.sems[0].cur == k.sems[0].last
  }

  /** The child exits, which wakes the shell. */
  lemma FatherExits(k: Kernel) returns (r: Kernel)
    requires Stray(k) && k.conts == map[1 := InJoin(0, 2)] && k.current == 2 && k.dead == [] && k.count == 3
    requires Stands(k, 1, 1, Blocked, -1) && k.table[1].previous == Ready && Stands(k, 2, 2, Running, 0)
    requires !k.table[2].kin.foreground && k.table[2].kin.kids == []
    requires k.sems[0].used && k.sems[0].value == 0 && k.sems[0].cur == 0 && k.sems[0].last == 1 && k.sems[0].waiting[0] == 1
    ensures Possible(k, SysExit(0, 0)) && r == Apply(k, SysExit(0, 0)) && FatherGone(r)
    ensures r.conts == k.conts && Opened(r) && r.table[2].semWait == 0
  {
    var k1 := SetExit(k, 0);
    assert k1 == k.(table := k.table[2 := k1.table[2]]) && k1.table[2] == k.table[2].(kin := Kin(k.table[2].kin.father, [], false, 0));
    r := FatherIsKilled(k1);
  }

  lemma FatherIsKilled(k: Kernel) returns (r: Kernel)
    requires Stray(k) && k.current == 2 && k.dead == [] && k.count == 3
    requires Stands(k, 1, 1, Blocked, -1) && k.table[1].previous == Ready && Stands(k, 2, 2, Running, 0)
    requires !k.table[2].kin.foreground && k.table[2].kin.kids == []
    requires k.sems[0].used && k.sems[0].value == 0 && k.sems[0].cur == 0 && k.sems[0].last == 1 && k.sems[0].waiting[0] == 1
    ensures r == Scheduler(Kill(k, 2).0, 0) && FatherGone(r) && r.conts == k.conts && Opened(r) && r.table[2].semWait == 0
  {
    var k1 := FatherFalls(k);
    PidSlots(k);
    KillIs(k, 2);
    var k2 := FatherPosts(k, k1);
    r := FatherLeaves(k, k2, Kill(k, 2).0);
  }

  lemma FatherFalls(k: Kernel) returns (r: Kernel)
    requires Stray(k) && !k.table[2].kin.foreground && k.table[2].kin.kids == []
    ensures r == Terminate(k, 2) && r == k.(table := k.table[2 := k.table[2].(state := Terminated)])
  {
    r := Terminate(k, 2);
    TerminateIs(k, 2);
    Front.TerminateGives(k, 2);
    FatherEnds(k, r);
  }

  lemma PidSlots(k: Kernel)
    requires Pids(k, [0, 1, 2, 3])
    ensures Slot(k, 1) == 1 && Slot(k, 2) == 2 && Slot(k, 3) == 3
  {
    var pids := [0, 1, 2, 3];
    assert k.table[0].pid == pids[0] && k.table[1].pid == pids[1] && k.table[2].pid == pids[2] && k.table[3].pid == pids[3];
    assert Slot(k, 1) <= 1 && Slot(k, 2) <= 2 && Slot(k, 3) <= 3;
  }

  // Nobody but the victim changes.
  lemma FatherEnds(k: Kernel, r: Kernel)
    requires Stray(k) && !k.table[2].kin.foreground && k.table[2].kin.kids == [] && Sized(r) && r.foreground == k.foreground
    requires forall j {:trigger SlotKin(k, r, j)} :: 0 <= j < MAX_PROCESSES && j != 2 ==> SlotKin(k, r, j)
    requires r.table[2] == k.table[2].(state := Terminated, kin := r.table[2].kin)
    requires forall n :: 0 <= n < MAX_PROCESSES ==>
      r.table[n].kin == Front.Bereaved(k.table[n].kin, n, k.table[2].kin, k.table[2].kin.kids[..Front.Room(|k.table[0].kin.kids|, 0)])
    ensures r.table == k.table[2 := k.table[2].(state := Terminated)]
  {
    forall n | 0 <= n < MAX_PROCESSES
      ensures r.table[n].kin == k.table[n].kin
    {
      assert k.table[n].kin.kids + [] == k.table[n].kin.kids;
    }
    forall n | 0 <= n < MAX_PROCESSES && n != 2
      ensures r.table[n] == k.table[n]
    {
      assert SlotKin(k, r, n);
    }
  }

  lemma FatherPosts(k: Kernel, k1: Kernel) returns (r: Kernel)
    requires Stray(k) && Sized(k1) && k1 == k.(table := k.table[2 := k.table[2].(state := Terminated)])
    requires Stands(k, 1, 1, Blocked, -1) && k.table[1].previous == Ready
    requires k.sems[0].used && k.sems[0].value == 0 && k.sems[0].cur == 0 && k.sems[0].last == 1 && k.sems[0].waiting[0] == 1
    ensures r == SemPost(k1, 0) && Sized(r) && Opened(r)
    ensures r == k1.(table := k1.table[1 := k1.table[1].(state := Ready)], ready := [[1], [], []], sems := r.sems)
  {
    SemPostIs(k1, 0);
    var k2 := SetSem(k1, 0, Posted(k1.sems[0]));
    assert Pids(k2, [0, 1, 2, 3]);
    PidSlots(k2);
    assert [] + [1] == [1] && [[], [], []][0 := [1]] == [[1], [], []];
    r := SemPost(k1, 0);
  }

  lemma FatherLeaves(k: Kernel, k1: Kernel, k2: Kernel) returns (r: Kernel)
    requires Stray(k) && Sized(k1) && k2 == k1.(dead := [2]) && k1.dead == [] && Opened(k1)
    requires Stands(k, 1, 1, Blocked, -1) && Stands(k, 2, 2, Running, 0) && !k.table[2].kin.foreground && k.current == 2 && k.count == 3
    requires k1 == k.(table := k.table[2 := k.table[2].(state := Terminated)][1 := k.table[1].(state := Ready)], ready := [[1], [], []],
                      sems := k1.sems)
    ensures r == Scheduler(k2, 0) && FatherGone(r) && r.conts == k.conts && r.sems == k1.sems && r.table[2].semWait == 0
  {
    var k3 := Drain(k2);
    assert [2][1..] == [];
    assert FreeTerminated(k2) == k3;
    DrainFirst(k2, 0);
    assert [1] + [] == [1];
    NextOf(k3, 1, []);
    r := Scheduler(k3, 0);
  }

  /** The shell comes back from its wait. */
  lemma ShellComesBack(k: Kernel) returns (r: Kernel)
    requires FatherGone(k) && k.conts == map[1 := InJoin(0, 2)] && Opened(k) && k.table[2].semWait == 0
    ensures Possible(k, Resume(0)) && r == Apply(k, Resume(0)) && FatherGone(r) && r.conts == map[]
  {
    var k1 := SemWait(k, 0).0;
    SemWaitIs(k, 0);
    assert k1 == SetSem(k, 0, k.sems[0].(value := 0));
    assert k.conts - {1} == map[];
    var k2 := k1.(conts := map[]);
    assert WakeAll(k2, 0) == k2;
    r := JoinEnd(k2, 2);
    assert r == k2.(table := k2.table[2 := k2.table[2].(semWait := -1)], sems := k2.sems[0 := EmptySem()]);
  }

  /** The keyboard kills the stray process. */
  lemma StrayIsKilled(k: Kernel) returns (r: Kernel)
    requires FatherGone(k) && k.conts == map[]
    ensures Possible(k, KeyKill(3)) && r == Apply(k, KeyKill(3)) && r.foreground == 2
    ensures r.table[2].pid == 2 && r.table[2].state == Terminated && r.table[1].state == Running && r.current == 1 && !Front.OneHolds(r)
  {
    PidSlots(k);
    KillIs(k, 3);
    TerminateIs(k, 3);
    Front.TerminateGives(k, 3);
    r := Kill(k, 3).0;
    forall i | 0 <= i < MAX_PROCESSES && i != 3
      ensures r.table[i].pid == k.table[i].pid && r.table[i].state == k.table[i].state
    {
      assert SlotKin(k, Terminate(k, 3), i);
    }
    NobodyHolds(r, [0, 1, 2, 3], 2);
  }

  // The foreground is of somebody who has ended.
  lemma NobodyHolds(k: Kernel, pids: seq<nat>, f: nat)
    requires Pids(k, pids) && f < |pids| && k.table[f].state == Terminated && k.foreground == pids[f]
    requires forall i :: 0 <= i < |pids| && pids[i] == pids[f] ==> i == f
    ensures !Front.OneHolds(k)
  {
  }

  /** The child of the shell creates a process in the foreground for which there is no memory, and exits; the keyboard
      then kills that process, and the foreground goes to its father, who is dead: the shell runs and never gets it
      back. */
  lemma DeadFatherGetsForeground() returns (k: Kernel, r: Kernel)
    ensures CarefulRun(Boot(), Opening()) && k == Run(Boot(), Opening())
    ensures Goes(k, [SysCreate(false, true, 0), SysExit(0, 0), Resume(0), KeyKill(3)], r)
    ensures r.foreground == 2 && r.table[2].pid == 2 && r.table[2].state == Terminated && !Front.OneHolds(r)
    ensures r.current == 1 && r.table[1].state == Running
  {
    k := ChildStartsInFront();
    LeadsThere(Opening(), k);
    var k1 := StrayIsCreated(k);
    var k2 := FatherExits(k1);
    var k3 := ShellComesBack(k2);
    r := StrayIsKilled(k3);
    assert Goes(k3, [KeyKill(3)], r);
    assert Goes(k2, [Resume(0), KeyKill(3)], r);
    assert Goes(k1, [SysExit(0, 0), Resume(0), KeyKill(3)], r);
  }

  // ---------------------------------------------------------------- a creation by the dead

  /** The keyboard kills the child, which goes on and creates a process in the foreground: then both that one and the
      shell have it. */
  lemma DeadCreatorHandsOver() returns (k: Kernel)
    ensures CarefulRun(Boot(), Opening() + [KeyKill(2)]) && k == Run(Boot(), Opening() + [KeyKill(2)])
    ensures var e := SysCreate(true, true, 0); Possible(k, e) && Careful(k, e)
    ensures Front.OneHolds(k) && !Front.OneHolds(Create(k, true, true).0)
  {
    var k0 := ChildStartsInFront();
    LeadsThere(Opening(), k0);
    BootKeepsWaits();
    RunKeeps(Boot(), Opening());
    k := ChildIsKilled(k0);
    LeadsOn(Opening(), k0, KeyKill(2), k);
    LeadsThere(Opening() + [KeyKill(2)], k);
    StepKeeps(k0, KeyKill(2));
    Front.CreateKeepsForegroundExactlyWhen(k, true, true);
  }

  lemma SlotsInFront(k: Kernel)
    requires Pids(k, [0, 1, 2])
    ensures Slot(k, 1) == 1 && Slot(k, 2) == 2
  {
    var pids := [0, 1, 2];
    assert k.table[0].pid == pids[0] && k.table[1].pid == pids[1] && k.table[2].pid == pids[2];
    assert Slot(k, 1) <= 1 && Slot(k, 2) <= 2;
  }

  lemma ChildIsKilled(k: Kernel) returns (r: Kernel)
    requires SchedInv(k) && ChildInFront(k)
    ensures Possible(k, KeyKill(2)) && Careful(k, KeyKill(2)) && r == Apply(k, KeyKill(2))
    ensures Front.OneHolds(r) && Claims(r) && Front.Hands(r, true) && r.table[r.current].state == Terminated
    ensures var e := SysCreate(true, true, 0); Possible(r, e) && Careful(r, e)
  {
    SlotsInFront(k);
    r := Kill(k, 2).0;
    Front.KillGivesBack(k, 2);
    KillLeavesRest(k);
    assert FindTerminated(r.table, 1) <= 2;
    assert Front.Marked(k, 2);
    HolderIsChild(k);
    Front.KillKeepsForegroundExactlyWhen(k, 2);
  }

  lemma KillLeavesRest(k: Kernel)
    requires Sized(k) && Slot(k, 2) == 2
    ensures var r := Kill(k, 2).0; r.conts == k.conts && r.current == k.current && r.system == k.system && r.nextPid == k.nextPid && r.count == k.count
  {
    KillIs(k, 2);
    TerminateIs(k, 2);
    var k1 := Terminate(k, 2);
    var s := k.table[2].semWait;
    if s != -1 && !InvalidSem(k1, s) {
      SemPostIs(k1, s);
    }
  }

  lemma HolderIsChild(k: Kernel)
    requires ChildInFront(k)
    ensures Front.OneHolds(k)
  {
    assert Front.Holds(k, 2);
  }

  // ---------------------------------------------------------------- a claim before the cleanup

  // The shell runs in the foreground, and its child has been killed and awaits cleanup.
  predicate ChildFallen(k: Kernel) {
    && Pids(k, [0, 1, 2]) && k.nextPid == 3 && k.count == 3 && k.current == 1 && k.dead == [2] && k.system && !k.firstSwitch
    && k.table[0].state == Ready && Stands(k, 1, 1, Running, -1) && k.table[1].kin.foreground && |k.table[1].kin.kids| < MAX_CHILDREN
    && k.table[2].state == Terminated && k.ready == [[2], [], []] && k.conts == map[] && k.sems[0] == EmptySem()
  }

  lemma ChildOfShell() returns (k: Kernel)
    ensures Leads(OneChild(), k) && Looks(k, [Ready, Running, Ready], [2], 1) && Quiet(k) && k.count == 3
    ensures k.table[1].kin.foreground && k.table[2].kin.kids == [] && !k.table[2].kin.foreground
  {
    var k0 := ShellInFront();
    var e := SysCreate(true, false, 0);
    ChildLooks(k0, [Ready, Running], []);
    NextSlot(k0, [Ready, Running]);
    CreatedBehind(k0);
    k := Apply(k0, e);
    assert [Ready, Running] + [Ready] == [Ready, Running, Ready] && [] + [2] == [2];
    LeadsOn([MainCreate(true), Tick(0)], k0, e, k);
  }

  lemma CreatedBehind(k: Kernel)
    requires Sized(k) && FindTerminated(k.table, 1) == 2 && k.count < MAX_PROCESSES && k.current == 1 && |k.table[1].kin.kids| < MAX_CHILDREN
    ensures var r := Create(k, true, false).0;
      && r.table[1].kin.foreground == k.table[1].kin.foreground && r.table[2].kin.kids == [] && !r.table[2].kin.foreground
  {
    Front.CreateHandsOver(k, true, false);
  }

  lemma ChildFalls(k: Kernel) returns (r: Kernel)
    requires Looks(k, [Ready, Running, Ready], [2], 1) && Quiet(k) && k.count == 3
    requires k.table[1].kin.foreground && k.table[2].kin.kids == [] && !k.table[2].kin.foreground
    ensures Possible(k, KeyKill(2)) && Careful(k, KeyKill(2)) && r == Apply(k, KeyKill(2)) && ChildFallen(r)
  {
    var ps := [Ready, Running, Ready];
    HeldAt(k, ps, 0);
    HeldAt(k, ps, 1);
    HeldAt(k, ps, 2);
    SlotHeld(k, ps, 2);
    PidsHeld(k, ps, [0, 1, 2]);
    KillIs(k, 2);
    TerminateIs(k, 2);
    Front.TerminateGives(k, 2);
    var t := Terminate(k, 2);
    assert SlotKin(k, t, 0) && SlotKin(k, t, 1);
    assert k.table[1].kin.kids + [] == k.table[1].kin.kids;
    r := t.(dead := [2]);
    FallenPids(k, t);
  }

  lemma FallenPids(k: Kernel, r: Kernel)
    requires Pids(k, [0, 1, 2]) && Sized(r) && r.table[2].pid == 2
    requires forall j {:trigger SlotKin(k, r, j)} :: 0 <= j < MAX_PROCESSES && j != 2 ==> SlotKin(k, r, j)
    ensures Pids(r, [0, 1, 2])
  {
    forall i | 0 <= i < MAX_PROCESSES && i != 2
      ensures r.table[i].pid == k.table[i].pid && r.table[i].state == k.table[i].state
    {
      assert SlotKin(k, r, i);
    }
  }

  // The slot has been claimed for a new process in the foreground.
  predicate ClaimedAgain(k: Kernel) {
    && Pids(k, [0, 1, 3]) && k.count == 4 && k.current == 1 && k.dead == [2] && k.system && !k.firstSwitch && k.foreground == 3
    && k.table[0].state == Ready && Stands(k, 1, 1, Running, -1) && k.table[2].state == Ready && k.sems[0].used && k.sems[0].value == 0
  }

  lemma ShellClaims(k: Kernel) returns (r: Kernel)
    requires ChildFallen(k)
    ensures var e := SysCreate(true, true, 0);
      && Possible(k, e) && Careful(k, e) && ClaimedAgain(r) && Apply(k, e) == SemWaitFrom(r, InJoin(0, 2), 0)
  {
    assert FindTerminated(k.table, 1) == 2;
    CreateIs(k, true, true);
    Front.CreateHandsOver(k, true, true);
    var k1 := Create(k, true, true).0;
    assert SlotKin(k, k1, 0) && SlotKin(k, k1, 1);
    ReclaimedPids(k, k1);
    r := ShellWaitsAgain(k1);
  }

  lemma ReclaimedPids(k: Kernel, r: Kernel)
    requires Pids(k, [0, 1, 2]) && Sized(r) && ClaimedIn(k, r, 2, true) && k.nextPid == 3
    ensures Pids(r, [0, 1, 3]) && Slot(r, 3) == 2
  {
    forall i | 0 <= i < MAX_PROCESSES && i != 2
      ensures r.table[i].pid == k.table[i].pid && r.table[i].state == k.table[i].state
    {
      assert SlotKin(k, r, i);
    }
    var pids := [0, 1, 2];
    assert k.table[0].pid == pids[0] && k.table[1].pid == pids[1];
    assert Slot(r, 3) <= 2;
  }

  lemma ShellWaitsAgain(k: Kernel) returns (r: Kernel)
    requires Pids(k, [0, 1, 3]) && Slot(k, 3) == 2 && k.table[2].state == Ready && k.table[2].semWait == -1 && k.sems[0] == EmptySem()
    ensures JoinBegin(k, 3) == (r, 0, 2)
    ensures r == k.(table := k.table[2 := k.table[2].(semWait := 0)], sems := k.sems[0 := EmptySem().(used := true)])
  {
    assert FindFreeSem(k.sems, 0) == 0;
    r := JoinBegin(k, 3).0;
  }

  // What the switch leaves.
  lemma CleansUp(k: Kernel)
    requires Pids(k, [0, 1, 3]) && k.dead == [2] && k.foreground == 3 && k.table[1].state == Blocked && k.current == 1
    ensures var r := Scheduler(k, 0); r.foreground == 3 && r.table[2].pid == 3 && r.table[2].state == Terminated && Pids(r, [0, 1, 3])
  {
    var k1 := Drain(k);
    assert [2][1..] == [];
    assert FreeTerminated(k) == k1;
    if k1.system && k1.count > 1 {
      var k2 := SetNext(k1);
      PickIsReady(k2, 0, |k2.ready|);
    }
  }

  lemma ShellParksAgain(k: Kernel) returns (r: Kernel)
    requires ClaimedAgain(k)
    ensures Sized(r) && SemWaitFrom(k, InJoin(0, 2), 0) == Scheduler(r, 0)
    ensures Pids(r, [0, 1, 3]) && r.dead == [2] && r.foreground == 3 && r.table[1].state == Blocked && r.current == 1
  {
    SemWaitIs(k, 0);
    SlotOfShell(SetSem(k, 0, SchedulerProofs.Queued(k.sems[0], 1)));
    var k1 := SemWait(k, 0).0;
    assert k1.current == 1;
    r := k1.(conts := k1.conts[1 := InJoin(0, 2)]);
  }

  lemma SwitchTakesForeground(k: Kernel) returns (r: Kernel)
    requires ClaimedAgain(k)
    ensures r == SemWaitFrom(k, InJoin(0, 2), 0)
    ensures r.foreground == 3 && r.table[2].pid == 3 && r.table[2].state == Terminated && !Front.OneHolds(r)
  {
    var k1 := ShellParksAgain(k);
    CleansUp(k1);
    r := Scheduler(k1, 0);
    NobodyHolds(r, [0, 1, 3], 2);
  }

  function Claiming(): seq<Event> { OneChild() + [KeyKill(2)] + [SysCreate(true, true, 0)] }

  /** The keyboard kills a child, and the shell creates another in the foreground before the next switch: it gets the
      slot that still awaits cleanup, and the switch ends it with the foreground in its hands. */
  lemma CleanupTakesForeground() returns (r: Kernel)
    ensures CarefulRun(Boot(), Claiming()) && r == Run(Boot(), Claiming())
    ensures r.foreground == 3 && r.table[2].pid == 3 && r.table[2].state == Terminated && !Front.OneHolds(r)
  {
    var k := ChildOfShell();
    var k1 := ChildFalls(k);
    LeadsOn(OneChild(), k, KeyKill(2), k1);
    var k2 := ShellClaims(k1);
    r := SwitchTakesForeground(k2);
    LeadsOn(OneChild() + [KeyKill(2)], k1, SysCreate(true, true, 0), r);
    LeadsThere(Claiming(), r);
  }
}
