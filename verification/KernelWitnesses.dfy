/** Runs from the start of the kernel that break what its invariants promise, one for each of the
    conditions that the theorems over runs assume. */
module KernelWitnesses {
  import opened KernelState
  import opened KernelRuns
  import opened SchedulerProofs
  import opened SemaphoreRings
  import opened KernelStart
  import SleepPunctuality
  import WorkConserving

  // ---------------------------------------------------------------- a creation that fails

  lemma FailedCreation(k: Kernel) returns (r: Kernel)
    requires Looks(k, [Ready, Running, Ready], [2], 1) && Quiet(k) && k.count == 3
    ensures var e := SysCreate(false, false, 0); Possible(k, e) && !Careful(k, e) && r == Apply(k, e)
    ensures Sized(r) && r.table[3].state == Ready && r.table[3].pid == 3 && r.ready == [[2], [], []]
  {
    HeldAt(k, [Ready, Running, Ready], 1);
    NextSlot(k, [Ready, Running, Ready]);
    CreateIs(k, false, false);
    r := Create(k, false, false).0;
  }

  /** A creation for which there is no memory leaves a process ready that no queue knows of. */
  lemma CreationLosesAProcess() returns (k: Kernel, r: Kernel)
    ensures CarefulRun(Boot(), OneChild()) && k == Run(Boot(), OneChild())
    ensures var e := SysCreate(false, false, 0); Possible(k, e) && !Careful(k, e) && r == Apply(k, e)
    ensures Sized(r) && r.table[3].state == Ready && r.table[3].pid == 3 && r.ready == [[2], [], []]
  {
    k := OneChildStarts();
    LeadsThere(OneChild(), k);
    r := FailedCreation(k);
  }

  // ---------------------------------------------------------------- a kill of a dead process

  // The victim and its cleanup.
  lemma KilledIs(k: Kernel, ps: seq<PState>, i: nat)
    requires Sized(k) && Holds(k, ps) && 1 <= i < |ps| && k.dead == []
    ensures var r := FreeTerminated(Kill(k, i).0);
      && r == k.(table := r.table, count := k.count - 1, foreground := r.foreground)
      && Holds(r, ps[i := Terminated])
  {
    var k1 := Kill(k, i).0;
    var k2 := Terminate(k, i);
    SlotHeld(k, ps, i);
    HeldAt(k, ps, i);
    KillIs(k, i);
    TerminateIs(k, i);
    assert k1 == k2.(dead := [i]);
    var r := Drain(k1);
    assert FreeTerminated(k1) == r;
    assert [i][1..] == [];
    var qs := ps[i := Terminated];
    forall j | 0 <= j < |ps|
      ensures HoldsAt(r, j, qs[j])
    {
      HeldAt(k, ps, j);
      assert j != i ==> SlotKin(k, k2, j);
    }
    forall j | |ps| <= j < MAX_PROCESSES
      ensures r.table[j].pid == 0 && r.table[j].state == Terminated
    {
      assert SlotKin(k, k2, j);
    }
  }

  lemma DrainFirst(k: Kernel, start: nat)
    requires Sized(k) && start < PRIORITY_LEVELS
    ensures FreeTerminated(k).dead == [] && Scheduler(k, start) == Scheduler(FreeTerminated(k), start)
  {
    assert FreeTerminated(FreeTerminated(k)) == FreeTerminated(k);
  }

  // A stale entry is dropped.
  lemma PicksSecond(k: Kernel, y: nat, c: nat)
    requires Sized(k) && k.ready == [[y, c], [], []] && y < MAX_PROCESSES && k.table[y].state == Terminated
    requires c < MAX_PROCESSES && k.table[c].state == Ready && k.table[c].priority == 0
    ensures GetNext(k, 0) == SetPcb(k, c, k.table[c].(state := Running)).(ready := [[], [], []], current := c)
  {
    var k1 := k.(ready := [[c], [], []]);
    assert k.ready[0][1..] == [c] && k.ready[0 := [c]] == [[c], [], []];
    assert !Runnable(k, 0, y) && Runnable(k1, 0, c);
    assert k1.ready[0][1..] == [] && k1.ready[0 := []] == [[], [], []];
    assert DequeueRunnable(k, 0) == DequeueRunnable(k1, 0);
  }

  // The only other entry is stale, so the current process goes on.
  lemma StaysOn(k: Kernel, c: nat, y: nat)
    requires Sized(k) && c == k.current && k.table[c].state == Running && k.table[c].pid != 0 && k.table[c].priority == 0 && !k.firstSwitch
    requires k.ready == [[y], [], []] && y < MAX_PROCESSES && y != c && c != 0 && k.table[y].state == Terminated
    requires k.dead == [] && k.system && k.count > 1
    ensures Scheduler(k, 0) == k.(ready := [[], [], []])
  {
    SetNextIs(k, c);
    var k1 := SetPcb(k, c, k.table[c].(state := Ready)).(ready := [[y, c], [], []]);
    assert [y] + [c] == [y, c] && k.ready[0 := [y, c]] == [[y, c], [], []];
    assert SetNext(k) == k1;
    PicksSecond(k1, y, c);
    assert k.table[c := k.table[c].(state := Ready)][c := k.table[c]] == k.table;
  }

  lemma KillOnce(k: Kernel) returns (r: Kernel)
    requires Looks(k, [Ready, Running, Ready], [2], 1) && Quiet(k) && k.count == 3
    ensures Possible(k, SysKill(2, 0)) && Careful(k, SysKill(2, 0)) && r == Apply(k, SysKill(2, 0))
    ensures Looks(r, [Ready, Running, Terminated], [], 1) && r.conts == map[] && r.count == 2
  {
    var ps := [Ready, Running, Ready];
    HeldAt(k, ps, 1);
    KilledIs(k, ps, 2);
    DrainFirst(Kill(k, 2).0, 0);
    var k1 := FreeTerminated(Kill(k, 2).0);
    assert ps[2 := Terminated] == [Ready, Running, Terminated];
    HeldAt(k1, [Ready, Running, Terminated], 1);
    HeldAt(k1, [Ready, Running, Terminated], 2);
    StaysOn(k1, 1, 2);
    r := Scheduler(k1, 0);
    SameHolds(k1, r, [Ready, Running, Terminated]);
  }

  lemma KillAgain(k: Kernel) returns (r: Kernel)
    requires Looks(k, [Ready, Running, Terminated], [], 1) && k.conts == map[] && k.count == 2
    ensures Possible(k, SysKill(2, 0)) && Careful(k, SysKill(2, 0)) && r == Apply(k, SysKill(2, 0))
    ensures !r.system && r.table[1].state == Running && r.current == 1
  {
    var ps := [Ready, Running, Terminated];
    HeldAt(k, ps, 1);
    KilledIs(k, ps, 2);
    DrainFirst(Kill(k, 2).0, 0);
    var k1 := FreeTerminated(Kill(k, 2).0);
    HeldAt(k1, ps[2 := Terminated], 1);
    r := Scheduler(k1, 0);
  }

  /** Killing the same process twice counts it twice, and the system stops with the shell alive. */
  lemma KillingTwiceStopsTheSystem()
    ensures var es := OneChild() + [SysKill(2, 0)] + [SysKill(2, 0)];
      && CarefulRun(Boot(), es)
      && var r := Run(Boot(), es);
      && !r.system && r.current == 1 && r.table[1].state == Running
  {
    var k := OneChildStarts();
    var k1 := KillOnce(k);
    LeadsOn(OneChild(), k, SysKill(2, 0), k1);
    var r := KillAgain(k1);
    LeadsOn(OneChild() + [SysKill(2, 0)], k1, SysKill(2, 0), r);
    LeadsThere(OneChild() + [SysKill(2, 0)] + [SysKill(2, 0)], r);
  }

  // ---------------------------------------------------------------- idle on a queue

  // Idle is the first runnable entry of queue 1.
  lemma IdlePicked(k: Kernel)
    requires Sized(k) && k.ready[1] == [0] && k.table[0].state == Ready && k.table[0].priority == 1
    ensures GetNext(k, 1) == SetPcb(k, 0, k.table[0].(state := Running)).(ready := k.ready[1 := []], current := 0)
  {
    assert k.ready[1][0] == 0 && k.ready[1][1..] == [];
    assert Runnable(k, 1, 0);
  }

  lemma QueueIdle(k: Kernel) returns (r: Kernel)
    requires Looks(k, [Ready, Running, Ready, Ready], [2, 3], 1) && Quiet(k)
    ensures Possible(k, SysPriority(0, 1)) && Careful(k, SysPriority(0, 1)) && r == Apply(k, SysPriority(0, 1))
    ensures r == k.(table := k.table[0 := k.table[0].(priority := 1)], ready := [[2, 3], [0], []])
  {
    var ps := [Ready, Running, Ready, Ready];
    HeldAt(k, ps, 0);
    HeldAt(k, ps, 1);
    SlotHeld(k, ps, 0);
    r := Apply(k, SysPriority(0, 1));
    assert [] + [0] == [0];
    assert [[2, 3], [], []][1 := [0]] == [[2, 3], [0], []];
  }

  lemma YieldToIdle(k: Kernel) returns (r: Kernel)
    requires Sized(k) && k.ready == [[2, 3], [0], []] && k.table[0].state == Ready && k.table[0].priority == 1
    requires k.current == 1 && k.table[1].state == Running && k.table[1].pid == 1 && k.table[1].priority == 0 && !k.firstSwitch
    requires k.dead == [] && k.system && k.count > 1 && k.conts == map[]
    ensures Possible(k, Yield(1)) && Careful(k, Yield(1)) && r == Apply(k, Yield(1))
    ensures r.current == 0 && r.system && r.table[1].state == Ready && r.table[2] == k.table[2] && r.table[3] == k.table[3]
  {
    SetNextIs(k, 1);
    IdlePicked(SetNext(k));
    r := Scheduler(k, 1);
    assert r == GetNext(SetNext(k), 1);
  }

  /** A change of the priority of idle puts it on a queue, and the next switch prefers it to three ready
      processes. */
  lemma IdleOvertakesTheReady()
    ensures var es := TwoChildren() + [SysPriority(0, 1)] + [Yield(1)];
      && CarefulRun(Boot(), es)
      && var r := Run(Boot(), es);
      && r.system && r.current == 0 && r.table[1].state == Ready && r.table[2].state == Ready && r.table[3].state == Ready
  {
    var k := TwoChildrenStart();
    var k1 := QueueIdle(k);
    LeadsOn(TwoChildren(), k, SysPriority(0, 1), k1);
    var ps := [Ready, Running, Ready, Ready];
    HeldAt(k, ps, 0);
    HeldAt(k, ps, 1);
    HeldAt(k, ps, 2);
    HeldAt(k, ps, 3);
    var r := YieldToIdle(k1);
    LeadsOn(TwoChildren() + [SysPriority(0, 1)], k1, Yield(1), r);
    LeadsThere(TwoChildren() + [SysPriority(0, 1)] + [Yield(1)], r);
  }

  // ---------------------------------------------------------------- a sleeper unblocked early

  // The shell sleeps, or is blocked in its sleep, and is to be woken at tick 19.
  predicate Dozes(k: Kernel, state: PState) {
    Sized(k) && k.table[1].state == state && k.table[1].previous == Sleeping
  }

  lemma ShellSleeps(k: Kernel) returns (r: Kernel)
    requires Looks(k, [Ready, Running, Ready], [2], 1) && Quiet(k) && k.count == 3 && k.ticks == 1
    ensures Possible(k, SysSleep(1, 0)) && Careful(k, SysSleep(1, 0)) && r == Apply(k, SysSleep(1, 0))
    ensures Looks(r, [Ready, Sleeping, Running], [], 2) && r.conts == map[] && r.ticks == 1 && r.count == 3
    ensures r.table[1].previous == Ready && r.sleepers == Boot().sleepers[0 := SleepEntry(1, 19)]
  {
    var ps := [Ready, Running, Ready];
    HeldAt(k, ps, 1);
    HeldAt(k, ps, 2);
    SlotHeld(k, ps, 1);
    var k1 := Sleep(k, 1).0;
    var p := k.table[1].(previous := Ready, state := Sleeping);
    assert k1 == k.(table := k.table[1 := p], sleepers := Boot().sleepers[0 := SleepEntry(1, 19)]);
    NextRuns(k1, 2);
    r := Scheduler(k1, 0);
    forall i | 0 <= i < 3
      ensures HoldsAt(r, i, [Ready, Sleeping, Running][i])
    {
      HeldAt(k, ps, i);
    }
  }

  // A current process that is not running leaves the processor to the one in the queue.
  lemma NextRuns(k: Kernel, x: nat)
    requires Sized(k) && k.table[k.current].state != Running && !k.firstSwitch && k.dead == [] && k.system && k.count > 1
    requires k.ready == [[x], [], []] && x < MAX_PROCESSES && k.table[x].state == Ready && k.table[x].priority == 0
    ensures Scheduler(k, 0) == k.(table := k.table[x := k.table[x].(state := Running)], ready := [[], [], []], current := x)
  {
    assert [x] == [x] + [];
    assert k.ready[0 := []] == [[], [], []];
    PicksHead(k, x, []);
  }

  lemma ShellIsBlocked(k: Kernel) returns (r: Kernel)
    requires Looks(k, [Ready, Sleeping, Running], [], 2) && k.conts == map[]
    ensures Possible(k, SysBlock(1)) && Careful(k, SysBlock(1)) && r == Apply(k, SysBlock(1))
    ensures r == k.(table := k.table[1 := k.table[1].(previous := Sleeping, state := Blocked)])
  {
    var ps := [Ready, Sleeping, Running];
    HeldAt(k, ps, 1);
    HeldAt(k, ps, 2);
    SlotHeld(k, ps, 1);
    r := Apply(k, SysBlock(1));
  }

  lemma ShellIsUnblocked(k: Kernel) returns (r: Kernel)
    requires Sized(k) && Slot(k, 1) == 1 && Dozes(k, Blocked) && k.table[1].pid == 1 && k.ticks == 1
    requires k.sleepers == Boot().sleepers[0 := SleepEntry(1, 19)]
    requires k.current == 2 && k.table[2].pid == 2 && k.table[2].state == Running && k.conts == map[] && k.system
    ensures Possible(k, SysWake(1)) && Careful(k, SysWake(1)) && r == Apply(k, SysWake(1))
    ensures r == k.(table := k.table[1 := k.table[1].(state := Sleeping)])
  {
    assert k.sleepers[0] == SleepEntry(1, 19);
    assert FindSleeper(k.sleepers, 1, 0) == 0;
    r := Apply(k, SysWake(1));
  }

  // What the ticks that follow keep.
  predicate Oversleeps(k: Kernel) {
    && Sized(k) && k.conts == map[] && k.dead == [] && k.current != 1
    && k.table[0].pid != 1 && Dozes(k, Sleeping) && k.table[1].pid == 1
    && forall a :: 0 <= a < MAX_PROCESSES && k.sleepers[a].pid == 1 ==> k.sleepers[a].time <= 19
  }

  // What waking one sleeper keeps of it.
  predicate Same(k: Kernel, r: Kernel) {
    && Oversleeps(r) && r.current == k.current && r.ticks == k.ticks
  }

  lemma WakesInVain(k: Kernel, e: nat)
    requires Oversleeps(k) && e < MAX_PROCESSES
    ensures Same(k, WakeSleeper(k, e))
  {
    assert Slot(k, 1) == 1;
  }

  lemma {:induction false} AllWakeInVain(k: Kernel, n: nat)
    requires Oversleeps(k) && n <= MAX_PROCESSES
    ensures Same(k, WakeSleepers(k, n))
    decreases n
  {
    if n > 0 {
      AllWakeInVain(k, n - 1);
      WakesInVain(WakeSleepers(k, n - 1), n - 1);
    }
  }

  lemma SwitchInVain(k: Kernel)
    requires Oversleeps(k)
    ensures Oversleeps(Scheduler(k, 0)) && Scheduler(k, 0).ticks == k.ticks
  {
    assert FreeTerminated(k) == k;
    if k.system && k.count > 1 {
      var k1 := SetNext(k);
      assert Oversleeps(k1);
      PickIsReady(k1, 0, |k1.ready|);
    }
  }

  lemma {:induction false} DequeueIsReady(k: Kernel, q: nat)
    requires Sized(k) && q < PRIORITY_LEVELS
    ensures var i := DequeueRunnable(k, q).1; i < MAX_PROCESSES ==> k.table[i].state == Ready
    decreases |k.ready[q]|
  {
    if k.ready[q] != [] {
      DequeueIsReady(k.(ready := k.ready[q := k.ready[q][1..]]), q);
    }
  }

  lemma {:induction false} PickIsReady(k: Kernel, q: nat, n: nat)
    requires Sized(k) && q < PRIORITY_LEVELS
    ensures var i := Pick(k, q, n).1; i < MAX_PROCESSES ==> k.table[i].state == Ready
    decreases n
  {
    if n > 0 {
      DequeueIsReady(k, q);
      PickIsReady(DequeueRunnable(k, q).0, (q + 1) % PRIORITY_LEVELS, n - 1);
    }
  }

  lemma TickInVain(k: Kernel, n: nat) returns (r: Kernel)
    requires Oversleeps(k) && n == |k.sleepers|
    ensures Possible(k, Tick(0)) && Careful(k, Tick(0)) && r == Apply(k, Tick(0))
    ensures Oversleeps(r) && r.ticks == k.ticks + 1
  {
    TimerTickIs(k, n);
    AllWakeInVain(k.(ticks := k.ticks + 1), n);
    SwitchInVain(TimerTick(k));
    r := Scheduler(TimerTick(k), 0);
  }

  function Ticks(n: nat): seq<Event> { if n == 0 then [] else [Tick(0)] + Ticks(n - 1) }

  lemma {:induction false} TicksInVain(k: Kernel, n: nat, es: seq<Event>) returns (r: Kernel)
    requires Oversleeps(k) && es == Ticks(n)
    ensures CarefulRun(k, es) && r == Run(k, es) && Oversleeps(r) && r.ticks == k.ticks + n
    decreases n
  {
    if n == 0 {
      r := k;
    } else {
      var k1 := TickInVain(k, |k.sleepers|);
      r := TicksInVain(k1, n - 1, Ticks(n - 1));
      RunHead(k, Tick(0), Ticks(n - 1), es, k1);
    }
  }

  function Unblocking(): seq<Event> { OneChild() + [SysSleep(1, 0)] + [SysBlock(1)] + [SysWake(1)] }

  lemma UnblocksEarly() returns (k: Kernel)
    ensures Leads(Unblocking(), k) && Oversleeps(k) && k.ticks == 1
  {
    var k0 := OneChildStarts();
    var k1 := ShellSleeps(k0);
    LeadsOn(OneChild(), k0, SysSleep(1, 0), k1);
    var k2 := ShellIsBlocked(k1);
    LeadsOn(OneChild() + [SysSleep(1, 0)], k1, SysBlock(1), k2);
    k := WakesAgain(k1, k2);
    LeadsOn(OneChild() + [SysSleep(1, 0)] + [SysBlock(1)], k2, SysWake(1), k);
  }

  lemma WakesAgain(k1: Kernel, k2: Kernel) returns (k: Kernel)
    requires Looks(k1, [Ready, Sleeping, Running], [], 2) && k1.conts == map[] && k1.ticks == 1
    requires k1.sleepers == Boot().sleepers[0 := SleepEntry(1, 19)]
    requires k2 == k1.(table := k1.table[1 := k1.table[1].(previous := Sleeping, state := Blocked)]) && Sized(k2)
    ensures Possible(k2, SysWake(1)) && Careful(k2, SysWake(1)) && k == Apply(k2, SysWake(1))
    ensures Oversleeps(k) && k.ticks == 1
  {
    var ps := [Ready, Sleeping, Running];
    HeldAt(k1, ps, 0);
    HeldAt(k1, ps, 1);
    HeldAt(k1, ps, 2);
    assert k2.table[0].pid == 0 && k2.table[1].pid == 1;
    assert Slot(k2, 1) == 1;
    k := ShellIsUnblocked(k2);
  }

  /** A process that sleeps for a second and is blocked and unblocked in between is still asleep after any
      number of ticks, from its deadline on without an entry to wake it. */
  lemma UnblockedEarlyOversleeps(n: nat) returns (r: Kernel)
    ensures CarefulRun(Boot(), Unblocking() + Ticks(n)) && r == Run(Boot(), Unblocking() + Ticks(n))
    ensures r.ticks == n + 1 && r.table[1].state == Sleeping
    ensures n >= 18 ==> !SleepPunctuality.InTime(r, 1)
  {
    var k := UnblocksEarly();
    r := TicksInVain(k, n, Ticks(n));
  }

  // ---------------------------------------------------------------- a waiter that is killed

  // Semaphore 0 is open, with the first pids in its ring, and nobody sleeps.
  ghost predicate Ring(k: Kernel, value: nat, q: seq<nat>, cur: nat) {
    && Sized(k) && k.sleepers == Boot().sleepers
    && var x := k.sems[0];
    && x.used && x.value == value && x.cur == cur && x.last == cur + |q| < 4
    && (forall c :: cur <= c < x.last ==> x.waiting[c] == q[c - cur])
    && (forall c :: x.last <= c < MAX_PROCESSES ==> x.waiting[c] == NOT_A_PROCESS)
  }

  lemma OpensSemaphore(k: Kernel) returns (r: Kernel)
    requires Looks(k, [Ready, Running, Ready, Ready], [2, 3], 1) && Quiet(k) && k.count == 4
    ensures Possible(k, SysSemOpen(0)) && Careful(k, SysSemOpen(0)) && r == Apply(k, SysSemOpen(0))
    ensures Looks(r, [Ready, Running, Ready, Ready], [2, 3], 1) && Ring(r, 0, [], 0) && r.conts == map[] && r.count == 4
  {
    var ps := [Ready, Running, Ready, Ready];
    HeldAt(k, ps, 1);
    assert !k.sems[0].used;
    assert FindFreeSem(k.sems, 0) == 0;
    r := CreateSem(k, 0).0;
    SameHolds(k, r, ps);
  }

  lemma ChildRuns(k: Kernel) returns (r: Kernel)
    requires Looks(k, [Ready, Running, Ready, Ready], [2, 3], 1) && Ring(k, 0, [], 0) && k.conts == map[] && k.count == 4
    ensures Possible(k, Yield(0)) && Careful(k, Yield(0)) && r == Apply(k, Yield(0))
    ensures Looks(r, [Ready, Ready, Running, Ready], [3, 1], 2) && Ring(r, 0, [], 0) && r.conts == map[] && r.count == 4
  {
    var ps := [Ready, Running, Ready, Ready];
    HeldAt(k, ps, 1);
    assert [2] + [3] == [2, 3] && [3] + [1] == [3, 1];
    assert ps[1 := Ready][2 := Running] == [Ready, Ready, Running, Ready];
    SwitchLooks(k, ps, 1, 2, [3], [Ready, Ready, Running, Ready]);
    r := Scheduler(k, 0);
  }

  // The next in the queue gets the processor from one that has been blocked.
  lemma NextOf(k: Kernel, x: nat, rest: seq<nat>)
    requires Sized(k) && k.table[k.current].state != Running && !k.firstSwitch && k.dead == [] && k.system && k.count > 1
    requires k.ready == [[x] + rest, [], []] && x < MAX_PROCESSES && k.table[x].state == Ready && k.table[x].priority == 0
    ensures Scheduler(k, 0) == k.(table := k.table[x := k.table[x].(state := Running)], ready := [rest, [], []], current := x)
  {
    assert k.ready[0 := rest] == [rest, [], []];
    PicksHead(k, x, rest);
  }

  /** The current process queues on semaphore 0. */
  lemma Waits(k: Kernel, ps: seq<PState>, c: nat, x: nat, rest: seq<nat>, q: seq<nat>, qs: seq<PState>) returns (r: Kernel)
    requires Looks(k, ps, [x] + rest, c) && Ring(k, 0, q, 0) && |q| < 3 && c != 0 && c !in k.conts && k.count == 4
    requires x < |ps| && x != c && ps[c] == Running && ps[x] == Ready && qs == ps[c := Blocked][x := Running] && x != 0
    ensures Possible(k, SysSemWait(0, 0)) && Careful(k, SysSemWait(0, 0)) && r == Apply(k, SysSemWait(0, 0))
    ensures Looks(r, qs, rest, x) && Ring(r, 0, q + [c], 0) && r.conts == k.conts[c := InWait(0)] && r.count == 4
  {
    HeldAt(k, ps, c);
    HeldAt(k, ps, x);
    SlotHeld(k, ps, c);
    var k1 := Queues(k, c, q);
    r := WaiterLeaves(k, k1.(conts := k1.conts[c := InWait(0)]), ps, c, x, rest, qs);
  }

  lemma WaiterLeaves(k: Kernel, k1: Kernel, ps: seq<PState>, c: nat, x: nat, rest: seq<nat>, qs: seq<PState>) returns (r: Kernel)
    requires Looks(k, ps, [x] + rest, c) && c != 0 && k.count == 4 && x < |ps| && x != c && x != 0 && Sized(k1)
    requires ps[c] == Running && ps[x] == Ready && qs == ps[c := Blocked][x := Running]
    requires k1 == k.(table := k.table[c := k.table[c].(previous := Ready, state := Blocked)], sems := k1.sems, conts := k1.conts)
    ensures r == Scheduler(k1, 0) && Looks(r, qs, rest, x) && r.count == 4
    ensures r.sems == k1.sems && r.conts == k1.conts && r.sleepers == k1.sleepers
  {
    HeldAt(k, ps, c);
    HeldAt(k, ps, x);
    NextOf(k1, x, rest);
    r := Scheduler(k1, 0);
    forall i | 0 <= i < |qs|
      ensures HoldsAt(r, i, qs[i])
    {
      HeldAt(k, ps, i);
    }
  }

  lemma Queues(k: Kernel, c: nat, q: seq<nat>) returns (r: Kernel)
    requires Ring(k, 0, q, 0) && |q| < 3 && c == k.current && k.table[c].pid == c && Slot(k, c) == c && k.table[c].state == Running
    ensures SemWait(k, 0) == (r, false)
    ensures r == k.(table := k.table[c := k.table[c].(previous := Ready, state := Blocked)], sems := r.sems)
    ensures Ring(r, 0, q + [c], 0)
  {
    r := SemWait(k, 0).0;
  }

  lemma KillsWaiter(k: Kernel) returns (r: Kernel)
    requires Looks(k, [Ready, Running, Blocked, Blocked], [], 1) && Ring(k, 0, [2, 3], 0) && 1 !in k.conts && k.count == 4
    ensures Possible(k, SysKill(2, 0)) && Careful(k, SysKill(2, 0)) && r == Apply(k, SysKill(2, 0))
    ensures Looks(r, [Ready, Running, Terminated, Blocked], [], 1) && Ring(r, 0, [2, 3], 0) && r.conts == k.conts
  {
    var ps := [Ready, Running, Blocked, Blocked];
    HeldAt(k, ps, 1);
    r := KillAndSwitch(k);
  }

  lemma KillAndSwitch(k: Kernel) returns (r: Kernel)
    requires Looks(k, [Ready, Running, Blocked, Blocked], [], 1) && Ring(k, 0, [2, 3], 0) && k.count == 4
    ensures r == Scheduler(Kill(k, 2).0, 0)
    ensures Looks(r, [Ready, Running, Terminated, Blocked], [], 1) && Ring(r, 0, [2, 3], 0) && r.conts == k.conts
  {
    var ps := [Ready, Running, Blocked, Blocked];
    KilledIs(k, ps, 2);
    DrainFirst(Kill(k, 2).0, 0);
    assert ps[2 := Terminated] == [Ready, Running, Terminated, Blocked];
    r := ShellGoesOn(k, FreeTerminated(Kill(k, 2).0));
  }

  lemma ShellGoesOn(k: Kernel, k1: Kernel) returns (r: Kernel)
    requires Looks(k, [Ready, Running, Blocked, Blocked], [], 1) && Ring(k, 0, [2, 3], 0) && Sized(k1)
    requires k1 == k.(table := k1.table, count := 3, foreground := k1.foreground) && Holds(k1, [Ready, Running, Terminated, Blocked])
    ensures r == Scheduler(k1, 0) && Looks(r, [Ready, Running, Terminated, Blocked], [], 1) && Ring(r, 0, [2, 3], 0) && r.conts == k.conts
  {
    HeldAt(k1, [Ready, Running, Terminated, Blocked], 1);
    AloneStays(k1, 1);
    r := Scheduler(k1, 0);
  }

  // Nobody else is queued, so the current process goes on.
  lemma AloneStays(k: Kernel, c: nat)
    requires Sized(k) && c == k.current && k.table[c].state == Running && k.table[c].pid != 0 && k.table[c].priority == 0 && !k.firstSwitch
    requires k.ready == [[], [], []] && c != 0 && k.dead == [] && k.system && k.count > 1
    ensures Scheduler(k, 0) == k
  {
    SetNextIs(k, c);
    var k1 := SetPcb(k, c, k.table[c].(state := Ready)).(ready := [[c], [], []]);
    assert [] + [c] == [c] && k.ready[0 := [c]] == [[c], [], []];
    assert SetNext(k) == k1;
    assert [c] == [c] + [];
    PicksHead(k1, c, []);
    assert k1.ready[0 := []] == k.ready;
    assert k.table[c := k.table[c].(state := Ready)][c := k.table[c]] == k.table;
  }

  lemma PostsInVain(k: Kernel) returns (r: Kernel)
    requires Looks(k, [Ready, Running, Terminated, Blocked], [], 1) && Ring(k, 0, [2, 3], 0) && 1 !in k.conts
    ensures Possible(k, SysSemPost(0)) && Careful(k, SysSemPost(0)) && r == Apply(k, SysSemPost(0))
    ensures Sized(r) && r.table == k.table && r.ready == k.ready && r.current == 1 && Ring(r, 1, [3], 1)
  {
    var ps := [Ready, Running, Terminated, Blocked];
    HeldAt(k, ps, 2);
    SlotHeld(k, ps, 2);
    r := SemPost(k, 0);
  }

  function WaitingTwice(): seq<Event> {
    TwoChildren() + [SysSemOpen(0)] + [Yield(0)] + [SysSemWait(0, 0)] + [SysSemWait(0, 0)]
  }

  lemma BothWait() returns (k: Kernel)
    ensures Leads(WaitingTwice(), k) && Looks(k, [Ready, Running, Blocked, Blocked], [], 1) && Ring(k, 0, [2, 3], 0)
    ensures 1 !in k.conts && k.count == 4
  {
    var k0 := TwoChildrenStart();
    var k1 := OpensSemaphore(k0);
    LeadsOn(TwoChildren(), k0, SysSemOpen(0), k1);
    var k2 := ChildRuns(k1);
    LeadsOn(TwoChildren() + [SysSemOpen(0)], k1, Yield(0), k2);
    var k3 := FirstWaits(k2);
    LeadsOn(TwoChildren() + [SysSemOpen(0)] + [Yield(0)], k2, SysSemWait(0, 0), k3);
    k := SecondWaits(k3);
    LeadsOn(TwoChildren() + [SysSemOpen(0)] + [Yield(0)] + [SysSemWait(0, 0)], k3, SysSemWait(0, 0), k);
  }

  lemma FirstWaits(k: Kernel) returns (r: Kernel)
    requires Looks(k, [Ready, Ready, Running, Ready], [3, 1], 2) && Ring(k, 0, [], 0) && k.conts == map[] && k.count == 4
    ensures Possible(k, SysSemWait(0, 0)) && Careful(k, SysSemWait(0, 0)) && r == Apply(k, SysSemWait(0, 0))
    ensures Looks(r, [Ready, Ready, Blocked, Running], [1], 3) && Ring(r, 0, [2], 0) && r.conts == map[2 := InWait(0)] && r.count == 4
  {
    assert [3] + [1] == [3, 1] && [] + [2] == [2];
    var qs := [Ready, Ready, Blocked, Running];
    assert qs == [Ready, Ready, Running, Ready][2 := Blocked][3 := Running];
    r := Waits(k, [Ready, Ready, Running, Ready], 2, 3, [1], [], qs);
  }

  lemma SecondWaits(k: Kernel) returns (r: Kernel)
    requires Looks(k, [Ready, Ready, Blocked, Running], [1], 3) && Ring(k, 0, [2], 0) && k.conts == map[2 := InWait(0)] && k.count == 4
    ensures Possible(k, SysSemWait(0, 0)) && Careful(k, SysSemWait(0, 0)) && r == Apply(k, SysSemWait(0, 0))
    ensures Looks(r, [Ready, Running, Blocked, Blocked], [], 1) && Ring(r, 0, [2, 3], 0) && 1 !in r.conts && r.count == 4
  {
    assert [1] + [] == [1] && [2] + [3] == [2, 3];
    var qs := [Ready, Running, Blocked, Blocked];
    assert qs == [Ready, Ready, Blocked, Running][3 := Blocked][1 := Running];
    r := Waits(k, [Ready, Ready, Blocked, Running], 3, 1, [], [2], qs);
  }

  /** Two processes wait on a semaphore and the first of them is killed: the next post raises the value, the
      second still waits, and nobody is on the way to take the unit. */
  lemma KilledWaiterSwallowsWakeUp() returns (r: Kernel)
    ensures var es := WaitingTwice() + [SysKill(2, 0)] + [SysSemPost(0)]; CarefulRun(Boot(), es) && r == Run(Boot(), es)
    ensures r.sems[0].value == 1 && r.sems[0].waiting[r.sems[0].cur] == 3
    ensures r.current == 1 && r.table[2].state == Terminated && r.table[3].state == Blocked && r.table[3].pid == 3
    ensures r.ready == [[], [], []]
  {
    var k := BothWait();
    var k1 := KillsWaiter(k);
    LeadsOn(WaitingTwice(), k, SysKill(2, 0), k1);
    HeldAt(k1, [Ready, Running, Terminated, Blocked], 2);
    HeldAt(k1, [Ready, Running, Terminated, Blocked], 3);
    r := PostsInVain(k1);
    LeadsOn(WaitingTwice() + [SysKill(2, 0)], k1, SysSemPost(0), r);
    LeadsThere(WaitingTwice() + [SysKill(2, 0)] + [SysSemPost(0)], r);
  }
}
