/** Waiting for a process over whole runs: whoever waits is queued exactly while the other lives, and is on its way once
    the other has ended. */
module JoinRuns {
  import opened KernelState
  import opened KernelRuns
  import opened SchedulerProofs
  import opened SemaphoreRings
  import opened SemaphoreState
  import opened SemaphoreSteps
  import opened SemaphoreProofs
  import opened SemaphoreProgress
  import opened SemaphoreRuns
  import opened Households
  import opened JoinState
  import Foreground

  ghost predicate TieInv(k: Kernel) { WaitInv(k) && JoinInv(k) }

  // ---------------------------------------------------------------- waiting on other semaphores

  // sem_wait on a semaphore that nobody uses to wait for a process.
  lemma WaitElsewhere(k: Kernel, t: int, start: nat)
    requires TieInv(k) && start < PRIORITY_LEVELS && k.current != 0 && k.table[k.current].state == Running
    requires !IsJoinSem(k, t) && (k.current in k.conts ==> k.conts[k.current] == InWait(t))
    ensures JoinInv(SemWaitFrom(k, InWait(t), start))
  {
    var (k1, done) := SemWait(k, t);
    var k2 := if done then k1.(conts := k1.conts - {k1.current}) else k1.(conts := k1.conts[k1.current := InWait(t)]);
    StretchElsewhere(k, t, k1, k2);
    if !done {
      Parked(k, InWait(t), k2);
      SwitchKeepsJoins(k2, start);
    }
  }

  // The stretch up to the switch.
  lemma StretchElsewhere(k: Kernel, t: int, k1: Kernel, r: Kernel)
    requires TieInv(k) && k1 == SemWait(k, t).0 && Sized(k1) && !IsJoinSem(k, t) && (k.current in k.conts ==> k.conts[k.current] == InWait(t))
    requires r == k1.(conts := k1.conts - {k1.current}) || r == k1.(conts := k1.conts[k1.current := InWait(t)])
    ensures JoinInv(r)
  {
    SemWaitSame(k, t);
    SameTable(k1, r);
    SameChains(k, k1, r);
    SameIsHeld(k, r);
    SameLeavesDead(k, r);
    OnlyThatSem(k, t);
    assert SameJoiners(k, r);
    ElsewhereKeeps(k, r);
  }

  lemma OnlyThatSem(k: Kernel, t: int)
    requires Sized(k)
    ensures SemWait(k, t).0.current == k.current && SemWait(k, t).0.conts == k.conts
    ensures forall s :: 0 <= s < MAX_SEMAPHORES && s != t ==> SemWait(k, t).0.sems[s] == k.sems[s]
  {
    if !InvalidSem(k, t) {
      SemWaitIs(k, t);
    }
  }

  // The state in which a caller is switched out is in order.
  lemma Parked(k: Kernel, c: Cont, r: Kernel)
    requires WaitInv(k) && k.current != 0 && k.table[k.current].state == Running && (c.InJoin? ==> c.child < MAX_PROCESSES)
    requires (k.current in k.conts ==> k.conts[k.current] == c) && !SemWait(k, c.sem).1
    requires var k1 := SemWait(k, c.sem).0; r == k1.(conts := k1.conts[k1.current := c])
    ensures WaitInv(r)
  {
    SemWaitIs(k, c.sem);
    SemWaitKeeps(k, c.sem);
    ParkKeeps(k, c.sem, c);
    ParkKeepsGoing(k, c.sem, c);
    OtherFields(SemWait(k, c.sem).0, r);
  }

  lemma SwitchKeepsJoins(k: Kernel, start: nat)
    requires TieInv(k) && start < PRIORITY_LEVELS
    ensures JoinInv(Scheduler(k, start))
  {
    SchedulerSame(k, start);
    SchedulerUndisturbed(k, start);
    QuietKeeps(k, Scheduler(k, start));
  }

  // ---------------------------------------------------------------- calls

  /** What a run must leave to wait_process: the semaphores on which somebody waits for a process, and the slot of a
      process for which somebody waited until that one has come back. */
  predicate Discreet(k: Kernel, e: Event)
    requires Sized(k)
  {
    match e
    case SysSemWait(t, _) => !IsJoinSem(k, t)
    case SysSemPost(t) => !IsJoinSem(k, t)
    case SysSemClose(t) => !IsJoinSem(k, t)
    case Resume(_) => k.current in k.conts && k.conts[k.current].InWait? ==> !IsJoinSem(k, k.conts[k.current].sem)
    case MainCreate(_) => Claims(k) ==> Vacant(k, FindTerminated(k.table, 1))
    case SysCreate(_, _, _) => Claims(k) ==> Vacant(k, FindTerminated(k.table, 1))
    case _ => true
  }

  // Slot n does not await cleanup, and nobody still has to come back from waiting for its last process.
  predicate Vacant(k: Kernel, n: nat)
    requires Sized(k)
  {
    n !in k.dead && forall j :: j in k.conts ==> !(k.conts[j].InJoin? && k.conts[j].child == n)
  }

  lemma SemCallJoins(k: Kernel, e: Event)
    requires TieInv(k) && Possible(k, e) && Discreet(k, e) && (e.SysSemOpen? || e.SysSemClose? || e.SysSemPost?)
    ensures JoinInv(Apply(k, e))
  {
    var r := Apply(k, e);
    match e {
      case SysSemOpen(value) => CreateSemSame(k, value); OpenElsewhere(k, value);
      case SysSemClose(t) => DestroySemSame(k, t); DestroyElsewhere(k, t);
      case SysSemPost(t) => SemPostSame(k, t); PostElsewhere(k, t);
    }
    SameIsHeld(k, r);
    SameJoinersSelf(k, r);
    SameLeavesDead(k, r);
    ElsewhereKeeps(k, r);
  }

  lemma OpenElsewhere(k: Kernel, value: nat)
    requires JoinInv(k)
    ensures var r := CreateSem(k, value).0; r.conts == k.conts && forall t :: 0 <= t < MAX_SEMAPHORES && IsJoinSem(k, t) ==> r.sems[t] == k.sems[t]
  {
    forall t | 0 <= t < MAX_SEMAPHORES && IsJoinSem(k, t)
      ensures CreateSem(k, value).0.sems[t] == k.sems[t]
    {
      var i :| 0 <= i < MAX_PROCESSES && Records(k, i, t);
      assert k.sems[t].used;
    }
  }

  lemma PostElsewhere(k: Kernel, s: int)
    requires Sized(k)
    ensures SemPost(k, s).conts == k.conts && forall t :: 0 <= t < MAX_SEMAPHORES && t != s ==> SemPost(k, s).sems[t] == k.sems[t]
  {
    if !InvalidSem(k, s) {
      SemPostIs(k, s);
    }
  }

  lemma DestroyElsewhere(k: Kernel, s: int)
    requires Sized(k)
    ensures DestroySem(k, s).conts == k.conts && forall t :: 0 <= t < MAX_SEMAPHORES && t != s ==> DestroySem(k, s).sems[t] == k.sems[t]
  {
    if !InvalidSem(k, s) {
      var inv := (k1: Kernel) => Sized(k1) && k1.conts == k.conts && forall t :: 0 <= t < MAX_SEMAPHORES && t != s ==> k1.sems[t] == k.sems[t];
      WakeAllKeepsWhat(k, s, inv);
    }
  }

  lemma ProcessCallJoins(k: Kernel, e: Event)
    requires TieInv(k) && Possible(k, e) && Respects(k, e) && (e.SysBlock? || e.SysWake? || e.SysToggle? || e.SysPriority?)
    ensures JoinInv(Apply(k, e))
  {
    var r := Apply(k, e);
    ProcessCallWaits(k, e);
    CallLeavesConts(k, e);
    SameTable(k, k);
    match e {
      case SysBlock(pid) => BlockSame(k, pid);
      case SysWake(pid) => WakeSame(k, pid);
      case SysToggle(pid) => ToggleSame(k, pid);
      case SysPriority(pid, priority) => PrioritySame(k, pid, priority);
    }
    QuietKeeps(k, r);
  }

  lemma CallLeavesConts(k: Kernel, e: Event)
    requires Sized(k) && Possible(k, e) && (e.SysBlock? || e.SysWake? || e.SysToggle? || e.SysPriority?)
    ensures Apply(k, e).conts == k.conts
  {
  }

  lemma SwitchCallJoins(k: Kernel, e: Event)
    requires TieInv(k) && Possible(k, e) && (e.Tick? || e.Yield? || e.SysSleep?)
    ensures JoinInv(Apply(k, e))
  {
    match e {
      case Tick(start) => TickJoins(k, start);
      case Yield(start) => SwitchKeepsJoins(k, start);
      case SysSleep(seconds, start) => SleepJoins(k, seconds, start);
    }
  }

  lemma TickJoins(k: Kernel, start: nat)
    requires TieInv(k) && start < PRIORITY_LEVELS
    ensures JoinInv(Scheduler(TimerTick(k), start))
  {
    var k1 := TimerTick(k);
    TimerTickSame(k, |k.sleepers|);
    TimerTickUndisturbed(k);
    TimerTickKeeps(k);
    QuietStep(k, k1);
    QuietKeeps(k, k1);
    SwitchKeepsJoins(k1, start);
  }

  lemma SleepJoins(k: Kernel, seconds: nat, start: nat)
    requires TieInv(k) && start < PRIORITY_LEVELS && (k.table[k.current].state == Running || k.table[k.current].state == Terminated)
    requires k.table[k.current].state == Running ==> k.current !in k.conts
    ensures JoinInv(Sleep(k, seconds).0) && JoinInv(Scheduler(Sleep(k, seconds).0, start))
  {
    var k1 := Sleep(k, seconds).0;
    SleepSame(k, seconds);
    SleepUndisturbed(k, seconds);
    SleepKeeps(k, seconds);
    QuietStep(k, k1);
    QuietKeeps(k, k1);
    SwitchKeepsJoins(k1, start);
  }

  // ---------------------------------------------------------------- beginning to wait

  /** The current process has been queued on the free semaphore s, now recorded for the live process in slot i. */
  ghost predicate Tied(k: Kernel, i: nat, s: nat, r: Kernel)
    requires Sized(k) && Sized(r) && i < MAX_PROCESSES && s < MAX_SEMAPHORES
  {
    var c := k.current;
    && 1 <= i && i != c && k.table[i].pid != 0 && k.table[i].semWait == -1 && k.table[i].state != Terminated
    && c != 0 && c !in k.conts && CurrentPid(k) != NOT_A_PROCESS && !k.sems[s].used
    && r.conts == k.conts[c := InJoin(s, i)] && r.dead == k.dead
    && r.table[i].pid == k.table[i].pid && r.table[i].semWait == s && r.table[i].state != Terminated
    && (forall x {:trigger SlotHeld(k, r, x)} :: 0 <= x < MAX_PROCESSES && x != i ==> SlotHeld(k, r, x))
    && (forall t :: 0 <= t < MAX_SEMAPHORES && t != s ==> r.sems[t] == k.sems[t])
    && r.sems[s].used && r.sems[s].value == 0
    && (forall p {:trigger InRing(r.sems[s], p)} :: p != NOT_A_PROCESS ==> (InRing(r.sems[s], p) <==> p == CurrentPid(k)))
  }

  lemma TiedRecords(k: Kernel, i: nat, s: nat, r: Kernel)
    requires JoinInv(k) && Sized(r) && i < MAX_PROCESSES && s < MAX_SEMAPHORES && Tied(k, i, s, r)
    ensures RecordsOk(r)
    ensures forall x, t {:trigger Records(r, x, t)} :: 0 <= x < MAX_PROCESSES ==> (Records(r, x, t) <==> Records(k, x, t) || (x == i && t == s))
    ensures !IsJoinSem(k, s)
  {
    forall x | 0 <= x < MAX_PROCESSES
      ensures !Records(k, x, s)
    {
    }
    forall x, t | 0 <= x < MAX_PROCESSES
      ensures Records(r, x, t) <==> Records(k, x, t) || (x == i && t == s)
    {
      assert x != i ==> SlotHeld(k, r, x);
    }
  }

  lemma TiedJoiner(k: Kernel, i: nat, s: nat, r: Kernel, j: nat)
    requires JoinInv(k) && ContsOk(k) && PidsOk(k) && Sized(r) && i < MAX_PROCESSES && s < MAX_SEMAPHORES && Tied(k, i, s, r) && Joins(r, j)
    requires forall x, t {:trigger Records(r, x, t)} :: 0 <= x < MAX_PROCESSES ==> (Records(r, x, t) <==> Records(k, x, t) || (x == i && t == s))
    ensures JoinerOk(r, j) && (j != k.current ==> Joins(k, j) && r.conts[j] == k.conts[j] && k.conts[j].child != i)
  {
    if j == k.current {
      assert SlotHeld(k, r, j);
      assert InRing(r.sems[s], CurrentPid(k));
      assert Records(r, i, s);
    } else {
      assert Joins(k, j) && JoinerOk(k, j);
      var t, x := k.conts[j].sem, k.conts[j].child;
      assert Records(k, x, t) && Records(r, x, t);
      assert x != i && t != s;
      assert SlotHeld(k, r, x);
      assert j != i ==> SlotHeld(k, r, j);
    }
  }

  lemma TiedOthers(k: Kernel, i: nat, s: nat, r: Kernel, j: nat)
    requires JoinInv(k) && ContsOk(k) && PidsOk(k) && Sized(r) && i < MAX_PROCESSES && s < MAX_SEMAPHORES && Tied(k, i, s, r)
    requires forall x, t {:trigger Records(r, x, t)} :: 0 <= x < MAX_PROCESSES ==> (Records(r, x, t) <==> Records(k, x, t) || (x == i && t == s))
    requires k.table[k.current].pid != 0 && forall x :: 0 <= x < MAX_PROCESSES ==> k.table[x].pid != NOT_A_PROCESS
    ensures OthersOff(r, j)
  {
    assert OthersOff(k, j);
    if 1 <= j < MAX_PROCESSES && j != k.current {
      SlotsDiffer(k, j, k.current);
      assert j != i ==> SlotHeld(k, r, j);
    }
    if j in r.conts && r.conts[j].InWait? && QueuedSlot(r, j) {
      assert j in k.conts && k.conts[j] == r.conts[j] && j != k.current;
    }
  }

  lemma TiedKeeps(k: Kernel, i: nat, s: nat, r: Kernel)
    requires TieInv(k) && Sized(r) && i < MAX_PROCESSES && s < MAX_SEMAPHORES && Tied(k, i, s, r)
    requires k.table[k.current].pid != 0
    ensures JoinInv(r)
  {
    TiedRecords(k, i, s, r);
    forall j | Joins(r, j)
      ensures JoinerOk(r, j) && (j != k.current ==> Joins(k, j) && r.conts[j] == k.conts[j] && k.conts[j].child != i)
    {
      TiedJoiner(k, i, s, r, j);
    }
    forall j: nat
      ensures OthersOff(r, j)
    {
      TiedOthers(k, i, s, r, j);
    }
    forall j, j2 | Joins(r, j) && Joins(r, j2) && r.conts[j].child == r.conts[j2].child
      ensures j == j2
    {
      assert j != k.current ==> Joins(k, j);
      assert j2 != k.current ==> Joins(k, j2);
    }
    forall x | x in r.dead
      ensures x < MAX_PROCESSES && r.table[x].state == Terminated
    {
      assert x in k.dead;
      assert x != i ==> SlotHeld(k, r, x);
    }
  }

  // wait_process up to its switch, when it waits.
  lemma BeginTies(k: Kernel, pid: nat, r: Kernel)
    requires TieInv(k) && k.current != 0 && k.table[k.current].state == Running && k.current !in k.conts && Slot(k, pid) != k.current
    requires var (k1, s, i) := JoinBegin(k, pid); s != -1
    requires var (k1, s, i) := JoinBegin(k, pid); var k2 := SemWait(k1, s).0; r == k2.(conts := k2.conts[k2.current := InJoin(s, i)])
    ensures var (k1, s, i) := JoinBegin(k, pid); 0 <= s < MAX_SEMAPHORES && !SemWait(k1, s).1 && JoinInv(r)
  {
    var (k1, s, i) := JoinBegin(k, pid);
    var k2 := SemWait(k1, s).0;
    SlotIs(k, k.current);
    BeginIs(k, pid);
    SemWaitIs(k1, s);
    var x := Queued(k1.sems[s], CurrentPid(k));
    FreshRing(k, s, CurrentPid(k), x);
    CurrentBlocks(SetSem(k1, s, x), CurrentPid(k));
    BeginSlots(k, i, s, k1, x, r);
    TiedKeeps(k, i, s, r);
  }

  lemma BeginSlots(k: Kernel, i: nat, s: nat, k1: Kernel, x: Semaphore, r: Kernel)
    requires Sized(k) && i < MAX_PROCESSES && s < MAX_SEMAPHORES && i != k.current && Sized(r)
    requires k1 == k.(table := k.table[i := k.table[i].(semWait := s)], sems := k.sems[s := k.sems[s].(used := true, value := 0)])
    requires k.table[k.current].state == Running && k.table[i].state != Terminated
    requires r == k1.(table := k1.table[k.current := k.table[k.current].(previous := Ready, state := Blocked)], sems := k1.sems[s := x],
                      conts := k.conts[k.current := InJoin(s, i)])
    ensures r.table[i].pid == k.table[i].pid && r.table[i].semWait == s && r.table[i].state != Terminated
    ensures forall y {:trigger SlotHeld(k, r, y)} :: 0 <= y < MAX_PROCESSES && y != i ==> SlotHeld(k, r, y)
    ensures forall t :: 0 <= t < MAX_SEMAPHORES && t != s ==> r.sems[t] == k.sems[t]
  {
  }

  lemma BeginIs(k: Kernel, pid: nat)
    requires Sized(k) && JoinBegin(k, pid).1 != -1
    ensures var (k1, s, i) := JoinBegin(k, pid);
      && 0 <= s < MAX_SEMAPHORES && !k.sems[s].used && pid != 0 && i == Slot(k, pid) && i < MAX_PROCESSES
      && k.table[i].state != Terminated && k.table[i].semWait == -1
      && k1 == k.(table := k.table[i := k.table[i].(semWait := s)], sems := k.sems[s := k.sems[s].(used := true, value := 0)])
  {
  }

  lemma CurrentBlocks(k: Kernel, pid: nat)
    requires Sized(k) && pid == CurrentPid(k) && Slot(k, pid) == k.current && k.table[k.current].state == Running
    ensures Block(k, pid).0 == SetPcb(k, k.current, k.table[k.current].(previous := Ready, state := Blocked))
  {
  }

  // The ring of a free semaphore is empty, so a waiter is alone in it.
  lemma FreshRing(k: Kernel, s: nat, pid: nat, x: Semaphore)
    requires SemInv(k) && s < MAX_SEMAPHORES && !k.sems[s].used && pid != NOT_A_PROCESS
    requires x == Queued(k.sems[s].(used := true, value := 0), pid)
    ensures SemSized(x) && forall p {:trigger InRing(x, p)} :: p != NOT_A_PROCESS ==> (InRing(x, p) <==> p == pid)
  {
    var y := k.sems[s];
    assert RingOk(y) && Waiters(y) == 0;
    assert forall c :: 0 <= c < MAX_PROCESSES ==> y.waiting[c] == NOT_A_PROCESS;
    assert x.waiting[y.last] == pid;
  }

  lemma WaitForJoins(k: Kernel, pid: nat, start: nat)
    requires TieInv(k) && start < PRIORITY_LEVELS
    requires k.current != 0 && k.table[k.current].state == Running && k.current !in k.conts && Slot(k, pid) != k.current
    ensures JoinInv(WaitFor(k, pid, start))
  {
    var (k1, s, i) := JoinBegin(k, pid);
    if s == -1 {
      NoSemaphore(k, pid);
    } else {
      var k2 := SemWait(k1, s).0;
      var r := k2.(conts := k2.conts[k2.current := InJoin(s, i)]);
      BeginTies(k, pid, r);
      JoinBeginWaits(k, pid);
      JoinBeginKeeps(k, pid);
      Parked(k1, InJoin(s, i), r);
      SwitchKeepsJoins(r, start);
    }
  }

  lemma NoSemaphore(k: Kernel, pid: nat)
    requires Sized(k) && JoinBegin(k, pid).1 == -1
    ensures JoinBegin(k, pid).0 == k
  {
    var i := Slot(k, pid);
    if i < MAX_PROCESSES {
      assert k.table[i := k.table[i]] == k.table;
    }
  }

  // ---------------------------------------------------------------- coming back

  /** The current process has come back from waiting on s for the process in slot i. */
  ghost predicate Untied(k: Kernel, i: nat, s: nat, r: Kernel)
    requires Sized(k) && i < MAX_PROCESSES && s < MAX_SEMAPHORES
  {
    && r == k.(table := k.table[i := k.table[i].(semWait := -1)], sems := k.sems[s := EmptySem()], conts := k.conts - {k.current})
  }

  lemma UntiedKeeps(k: Kernel, i: nat, s: nat, r: Kernel)
    requires TieInv(k) && i < MAX_PROCESSES && s < MAX_SEMAPHORES && Sized(r) && Untied(k, i, s, r)
    requires Joins(k, k.current) && k.conts[k.current] == InJoin(s, i)
    ensures JoinInv(r)
  {
    var c := k.current;
    assert JoinerOk(k, c) && Records(k, i, s);
    forall x, t | 0 <= x < MAX_PROCESSES
      ensures Records(r, x, t) <==> Records(k, x, t) && x != i
      ensures Records(r, x, t) ==> t != s
    {
      assert Records(k, x, s) ==> x == i;
    }
    forall j | Joins(r, j)
      ensures Joins(k, j) && JoinerOk(r, j)
    {
      UntiedJoiner(k, i, s, r, j);
    }
    forall j, j2 | Joins(r, j) && Joins(r, j2) && r.conts[j].child == r.conts[j2].child
      ensures j == j2
    {
      assert Joins(k, j) && Joins(k, j2);
    }
    forall j: nat
      ensures OthersOff(r, j)
    {
      UntiedOthers(k, i, s, r, j);
    }
  }

  lemma UntiedJoiner(k: Kernel, i: nat, s: nat, r: Kernel, j: nat)
    requires TieInv(k) && i < MAX_PROCESSES && s < MAX_SEMAPHORES && Sized(r) && Untied(k, i, s, r)
    requires Joins(k, k.current) && k.conts[k.current] == InJoin(s, i) && Records(k, i, s) && Joins(r, j)
    ensures Joins(k, j) && JoinerOk(r, j)
  {
    assert Joins(k, j) && JoinerOk(k, j);
    var t, x := k.conts[j].sem, k.conts[j].child;
    assert Records(k, x, t);
    assert x != i;
    assert t != s;
    assert Records(r, x, t);
  }

  lemma UntiedOthers(k: Kernel, i: nat, s: nat, r: Kernel, j: nat)
    requires TieInv(k) && i < MAX_PROCESSES && s < MAX_SEMAPHORES && Sized(r) && Untied(k, i, s, r)
    requires forall x, t {:trigger Records(r, x, t)} :: 0 <= x < MAX_PROCESSES ==> (Records(r, x, t) <==> Records(k, x, t) && x != i)
    ensures OthersOff(r, j)
  {
    assert OthersOff(k, j);
    if j < MAX_PROCESSES {
      assert r.table[j].pid == k.table[j].pid && k.table[j].pid != NOT_A_PROCESS;
      NoneInEmpty(r.table[j].pid);
    }
    if j in r.conts && r.conts[j].InWait? && QueuedSlot(r, j) {
      assert k.conts[j] == r.conts[j] && r.conts[j].sem != s;
    }
  }

  lemma NoneInEmpty(pid: nat)
    requires pid != NOT_A_PROCESS
    ensures !InRing(EmptySem(), pid)
  {
  }

  // Nobody else is in the ring, so closing the semaphore wakes nobody.
  lemma ReturnIs(k: Kernel, start: nat)
    requires TieInv(k) && start < PRIORITY_LEVELS && Joins(k, k.current) && k.table[k.current].state == Running
    ensures JoinerOk(k, k.current)
    ensures var c := k.conts[k.current]; k.table[c.child].state == Terminated && 0 <= c.sem < MAX_SEMAPHORES && Untied(k, c.child, c.sem, SemWaitFrom(k, c, start))
  {
    var s, i := k.conts[k.current].sem, k.conts[k.current].child;
    assert JoinerOk(k, k.current) && Records(k, i, s);
    NotQueued(k);
    var k1 := SetSem(k, s, k.sems[s].(value := k.sems[s].value - 1));
    SemWaitIs(k, s);
    AloneInRing(k, i, s);
    EmptyRingCloses(k1.(conts := k1.conts - {k.current}), s);
  }

  lemma NotQueued(k: Kernel)
    requires SchedInv(k) && SemInv(k) && k.table[k.current].state == Running && k.current in k.conts
    ensures !QueuedSlot(k, k.current)
  {
    RunningIsNotQueued(k, k.conts[k.current].sem);
  }

  lemma AloneInRing(k: Kernel, i: nat, s: nat)
    requires TieInv(k) && i < MAX_PROCESSES && s < MAX_SEMAPHORES && Records(k, i, s) && k.table[k.current].state == Running
    requires Joins(k, k.current) && k.conts[k.current] == InJoin(s, i)
    ensures k.sems[s].cur == k.sems[s].last
  {
    var x := k.sems[s];
    assert RingOk(x);
    if Waiters(x) != 0 {
      HeadCell(x);
      var pid := x.waiting[x.cur];
      assert InRing(x, pid);
      RingOfJoiner(k, i, s, pid);
      assert Joins(k, Slot(k, pid));
      NotQueued(k);
    }
  }

  lemma EmptyRingCloses(k: Kernel, s: nat)
    requires Sized(k) && s < MAX_SEMAPHORES && k.sems[s].used && k.sems[s].cur == k.sems[s].last
    ensures DestroySem(k, s) == SetSem(k, s, EmptySem())
  {
  }

  lemma ReturnJoins(k: Kernel, start: nat)
    requires TieInv(k) && start < PRIORITY_LEVELS && Joins(k, k.current) && k.table[k.current].state == Running
    requires k.conts[k.current].child < MAX_PROCESSES
    ensures JoinInv(SemWaitFrom(k, k.conts[k.current], start))
  {
    ReturnIs(k, start);
    UntiedKeeps(k, k.conts[k.current].child, k.conts[k.current].sem, SemWaitFrom(k, k.conts[k.current], start));
  }

  // ---------------------------------------------------------------- the end of a process

  /** The process in slot i has ended, and whoever waits for it has been posted to. */
  ghost predicate Ended(k: Kernel, i: nat, r: Kernel)
    requires Sized(k) && Sized(r) && i < MAX_PROCESSES
  {
    var s := k.table[i].semWait;
    && k.table[i].pid != 0 && r.conts == k.conts
    && r.table[i].pid == k.table[i].pid && r.table[i].semWait == s && r.table[i].state == Terminated
    && (forall x {:trigger SlotHeld(k, r, x)} :: 0 <= x < MAX_PROCESSES && x != i ==> SlotHeld(k, r, x))
    && (forall t :: 0 <= t < MAX_SEMAPHORES ==> r.sems[t] == if t == s then Posted(k.sems[t]) else k.sems[t])
  }

  lemma EndedRecords(k: Kernel, i: nat, r: Kernel, x: nat, t: int)
    requires Sized(k) && Sized(r) && i < MAX_PROCESSES && Ended(k, i, r) && x < MAX_PROCESSES
    ensures Records(r, x, t) <==> Records(k, x, t)
  {
    assert x != i ==> SlotHeld(k, r, x);
  }

  // A post takes nobody into a ring, and the head out of it.
  lemma PostedRing(x: Semaphore, pid: nat)
    requires SemSized(x) && RingOk(x) && Distinct(x) && pid != NOT_A_PROCESS
    ensures InRing(Posted(x), pid) ==> InRing(x, pid) && pid != x.waiting[x.cur]
  {
    if InRing(Posted(x), pid) {
      var c :| 0 <= c < MAX_PROCESSES && Posted(x).waiting[c] == pid;
      assert x.waiting[c] == pid;
    }
  }

  lemma EndedQueue(k: Kernel, i: nat, r: Kernel, j: nat)
    requires TieInv(k) && Sized(r) && 1 <= i < MAX_PROCESSES && i !in k.conts && Ended(k, i, r) && QueuedSlot(r, j)
    ensures QueuedSlot(k, j)
    ensures Joins(k, j) ==> k.conts[j].child != i
  {
    var t := k.conts[j].sem;
    var s := k.table[i].semWait;
    assert SlotHeld(k, r, j);
    assert CellsOk(k, t) && RingOk(k.sems[t]);
    PostedRing(k.sems[t], k.table[j].pid);
    if Joins(k, j) && k.conts[j].child == i {
      assert JoinerOk(k, j) && Records(k, i, t);
      var x := k.sems[t];
      HeadCell(x);
      assert InRing(x, x.waiting[x.cur]);
      RingOfJoiner(k, i, t, x.waiting[x.cur]);
      assert false;
    }
  }

  lemma EndedJoiner(k: Kernel, i: nat, r: Kernel, j: nat)
    requires TieInv(k) && Sized(r) && 1 <= i < MAX_PROCESSES && i !in k.conts && Ended(k, i, r) && Joins(r, j)
    ensures JoinerOk(r, j)
  {
    assert Joins(k, j) && JoinerOk(k, j);
    var t, x := k.conts[j].sem, k.conts[j].child;
    assert Records(k, x, t);
    EndedRecords(k, i, r, x, t);
    if x != i {
      OtherJoiner(k, i, r, j, t, x);
    } else if QueuedSlot(r, j) {
      EndedQueue(k, i, r, j);
    }
  }

  lemma OtherJoiner(k: Kernel, i: nat, r: Kernel, j: nat, t: nat, x: nat)
    requires TieInv(k) && Sized(r) && 1 <= i < MAX_PROCESSES && i !in k.conts && Ended(k, i, r) && Joins(k, j) && JoinerOk(k, j)
    requires k.conts[j] == InJoin(t, x) && t < MAX_SEMAPHORES && x < MAX_PROCESSES && x != i && Records(k, x, t) && Records(r, x, t)
    ensures JoinerOk(r, j)
  {
    assert !Records(k, i, t);
    assert SlotHeld(k, r, x) && SlotHeld(k, r, j);
    assert r.sems[t] == k.sems[t];
  }

  lemma EndedOthers(k: Kernel, i: nat, r: Kernel, j: nat)
    requires TieInv(k) && Sized(r) && 1 <= i < MAX_PROCESSES && i !in k.conts && Ended(k, i, r)
    ensures OthersOff(r, j)
  {
    assert OthersOff(k, j);
    if j in r.conts && r.conts[j].InWait? && QueuedSlot(r, j) {
      var t := r.conts[j].sem;
      EndedQueue(k, i, r, j);
      forall x | 0 <= x < MAX_PROCESSES
        ensures !Records(r, x, t)
      {
        EndedRecords(k, i, r, x, t);
      }
    }
  }

  lemma EndedKeeps(k: Kernel, i: nat, r: Kernel)
    requires TieInv(k) && Sized(r) && 1 <= i < MAX_PROCESSES && i !in k.conts && Ended(k, i, r) && DeadEnded(r)
    ensures JoinInv(r)
  {
    forall x, t | 0 <= x < MAX_PROCESSES
      ensures Records(r, x, t) <==> Records(k, x, t)
    {
      EndedRecords(k, i, r, x, t);
    }
    forall j | Joins(r, j)
      ensures Joins(k, j) && r.conts[j] == k.conts[j] && JoinerOk(r, j)
    {
      EndedJoiner(k, i, r, j);
    }
    forall j: nat
      ensures OthersOff(r, j)
    {
      EndedOthers(k, i, r, j);
    }
  }

  lemma KillEnds(k: Kernel, pid: nat)
    requires TieInv(k) && Kill(k, pid).1 == 0
    ensures var i := Slot(k, pid); var r := Kill(k, pid).0; 1 <= i < MAX_PROCESSES && k.table[i].pid == pid && Ended(k, i, r)
  {
    var i := Slot(k, pid);
    var t := Terminate(k, i);
    var s := k.table[i].semWait;
    var r := Kill(k, pid).0;
    KillIs(k, pid);
    TerminateIs(k, i);
    TerminateKeeps(k, i);
    SemPostSame(t, s);
    assert Records(k, i, s) || s == -1;
    PostedEnd(k, t, s, i);
    EndedSlots(k, t, r, i, s);
  }

  lemma EndedSlots(k: Kernel, t: Kernel, r: Kernel, i: nat, s: int)
    requires Sized(k) && Sized(t) && AllSame(t, SemPost(t, s)) && i < MAX_PROCESSES && Sized(r) && r.table == (if s != -1 then SemPost(t, s) else t).table
    requires t.table[i] == k.table[i].(state := Terminated, kin := t.table[i].kin)
    requires forall j {:trigger SlotKin(k, t, j)} :: 0 <= j < MAX_PROCESSES && j != i ==> SlotKin(k, t, j)
    ensures r.table[i].semWait == k.table[i].semWait && r.table[i].pid == k.table[i].pid && r.table[i].state == Terminated
    ensures forall x {:trigger SlotHeld(k, r, x)} :: 0 <= x < MAX_PROCESSES && x != i ==> SlotHeld(k, r, x)
  {
    forall x | 0 <= x < MAX_PROCESSES
      ensures x != i ==> SlotHeld(k, r, x)
    {
      assert x != i ==> SlotKin(k, t, x);
      assert SlotSame(t, SemPost(t, s), x);
    }
    assert SlotSame(t, SemPost(t, s), i);
  }

  lemma PostedEnd(k: Kernel, t: Kernel, s: int, i: nat)
    requires JoinInv(k) && Sized(t) && t.sems == k.sems && t.conts == k.conts && i < MAX_PROCESSES && (s == -1 || Records(k, i, s))
    ensures var r := if s != -1 then SemPost(t, s) else t;
      r.conts == k.conts && forall u :: 0 <= u < MAX_SEMAPHORES ==> r.sems[u] == if u == s then Posted(k.sems[u]) else k.sems[u]
  {
    if s != -1 {
      SemPostIs(t, s);
    }
  }

  lemma KillJoins(k: Kernel, pid: nat)
    requires TieInv(k) && Slot(k, pid) !in k.conts
    ensures JoinInv(Kill(k, pid).0)
  {
    if Kill(k, pid).1 == 0 {
      KillEnds(k, pid);
      Foreground.KillLeavesDead(k, pid);
      EndedKeeps(k, Slot(k, pid), Kill(k, pid).0);
    } else {
      assert Kill(k, pid).0 == k;
    }
  }

  // ---------------------------------------------------------------- creation and ends as calls

  lemma ClaimKeepsJoins(k: Kernel, n: nat, stack: bool, r: Kernel)
    requires TieInv(k) && Sized(r) && 1 <= n < MAX_PROCESSES && k.table[n].state == Terminated && Vacant(k, n) && ClaimedIn(k, r, n, stack)
    requires r.conts == k.conts && r.sems == k.sems && r.dead == k.dead
    ensures JoinInv(r)
  {
    forall x, t | 0 <= x < MAX_PROCESSES
      ensures Records(r, x, t) <==> Records(k, x, t) && x != n
    {
      assert x != n ==> SlotKin(k, r, x);
    }
    forall j | Joins(r, j)
      ensures Joins(k, j) && JoinerOk(r, j)
    {
      assert Joins(k, j) && JoinerOk(k, j);
      assert Records(r, k.conts[j].child, k.conts[j].sem);
      assert SlotKin(k, r, j) && SlotKin(k, r, k.conts[j].child);
    }
    forall j: nat
      ensures OthersOff(r, j)
    {
      assert OthersOff(k, j);
      if j in r.conts && r.conts[j].InWait? && QueuedSlot(r, j) {
        assert SlotKin(k, r, j);
      }
    }
    forall x | x in r.dead
      ensures x < MAX_PROCESSES && r.table[x].state == Terminated
    {
      assert SlotKin(k, r, x);
    }
  }

  lemma CreateJoins(k: Kernel, stack: bool, foreground: bool)
    requires TieInv(k) && (Claims(k) ==> Vacant(k, FindTerminated(k.table, 1)))
    ensures JoinInv(Create(k, stack, foreground).0)
  {
    if Claims(k) {
      var n := FindTerminated(k.table, 1);
      ClaimIsQuiet(k, stack, foreground, n, Create(k, stack, foreground).0);
      ClaimKeepsJoins(k, n, stack, Create(k, stack, foreground).0);
    }
  }

  lemma ClaimIsQuiet(k: Kernel, stack: bool, foreground: bool, n: nat, r: Kernel)
    requires SemInv(k) && Claims(k) && n == FindTerminated(k.table, 1) && r == Create(k, stack, foreground).0
    ensures 1 <= n < MAX_PROCESSES && k.table[n].state == Terminated && Sized(r) && ClaimedIn(k, r, n, stack)
    ensures r.conts == k.conts && r.sems == k.sems && r.dead == k.dead && r.current == k.current
  {
    CreateIs(k, stack, foreground);
    assert k.conts - {n} == k.conts;
  }

  // The creator is not the one it waits for.
  lemma NotItself(k: Kernel, stack: bool)
    requires SchedInv(k) && k.nextPid < 0xffff && k.table[k.current].state == Running
    ensures var (r, pid) := Create(k, stack, true); Slot(r, AsPid(pid)) != r.current
  {
    if Claims(k) {
      CreateIs(k, stack, true);
      PidsFit(k, Create(k, stack, true).1);
      ClaimedAnother(k, FindTerminated(k.table, 1), stack, Create(k, stack, true).0, AsPid(Create(k, stack, true).1));
    } else {
      ClaimedNothing(k);
    }
  }

  lemma PidsFit(k: Kernel, pid: int)
    requires k.nextPid < 0xffff && (pid == -1 || pid == k.nextPid)
    ensures AsPid(pid) == k.nextPid || AsPid(pid) == 0xffff
  {
  }

  lemma ClaimedAnother(k: Kernel, n: nat, stack: bool, r: Kernel, pid: nat)
    requires Sized(k) && PidsOk(k) && k.nextPid < 0xffff && k.table[k.current].state == Running && Sized(r) && 1 <= n < MAX_PROCESSES
    requires ClaimedIn(k, r, n, stack) && k.table[n].state == Terminated && r.current == k.current && (pid == k.nextPid || pid == 0xffff)
    ensures Slot(r, pid) != r.current
  {
    assert SlotKin(k, r, k.current);
  }

  lemma ClaimedNothing(k: Kernel)
    requires Sized(k) && PidsOk(k) && k.nextPid < 0xffff
    ensures Slot(k, AsPid(-1)) != k.current
  {
    assert AsPid(-1) == 0xffff;
  }

  lemma CreateCallJoins(k: Kernel, e: Event)
    requires TieInv(k) && Possible(k, e) && Careful(k, e) && Respects(k, e) && Discreet(k, e) && (e.MainCreate? || e.SysCreate?)
    ensures JoinInv(Apply(k, e))
  {
    var foreground := e.MainCreate? || e.foreground;
    CreateJoins(k, e.stack, foreground);
    if e.SysCreate? && foreground {
      var (k1, pid) := Create(k, e.stack, true);
      CreateWaits(k, e.stack, true);
      CreateKeeps(k, e.stack, true);
      CreatorStays(k, e.stack, true);
      NotItself(k, e.stack);
      WaitForJoins(k1, AsPid(pid), e.start);
    }
  }

  lemma KillStateJoins(k: Kernel, e: Event)
    requires TieInv(k) && Possible(k, e) && Respects(k, e) && (e.SysKill? || e.KeyKill? || e.SysExit?)
    ensures TieInv(KillState(k, e))
  {
    var r := KillState(k, e);
    KillStateWaits(k, e);
    forall i | 0 <= i < MAX_PROCESSES
      ensures SlotHeld(k, r, i)
    {
      assert SlotKin(k, r, i);
    }
    SameJoinersSelf(k, r);
    forall x | x in r.dead
      ensures x < MAX_PROCESSES && r.table[x].state == Terminated
    {
      assert SlotHeld(k, r, x);
    }
    ElsewhereKeeps(k, r);
  }

  lemma KillCallJoins(k: Kernel, e: Event)
    requires TieInv(k) && Possible(k, e) && Respects(k, e) && (e.SysKill? || e.KeyKill? || e.SysExit?)
    ensures JoinInv(Apply(k, e))
  {
    var k1 := KillState(k, e);
    var pid := Victim(k, e);
    KillStateJoins(k, e);
    KillStateWaits(k, e);
    KillKeeps(k1, pid);
    if pid != 0 {
      KillJoins(k1, pid);
      KillWaits(k1, pid);
    } else {
      assert Kill(k1, pid).0 == k1;
    }
    if !e.KeyKill? {
      SwitchKeepsJoins(Kill(k1, pid).0, e.start);
    }
  }

  lemma WaitCallJoins(k: Kernel, e: Event)
    requires TieInv(k) && Possible(k, e) && Respects(k, e) && Discreet(k, e) && (e.SysSemWait? || e.SysJoin? || e.Resume?)
    ensures JoinInv(Apply(k, e))
  {
    match e {
      case SysSemWait(t, start) => WaitElsewhere(k, t, start);
      case SysJoin(pid, start) =>
        if !(pid >= MAX_PROCESSES || pid == CurrentPid(k)) {
          WaitForJoins(k, pid, start);
        }
      case Resume(start) =>
        if k.conts[k.current].InWait? {
          WaitElsewhere(k, k.conts[k.current].sem, start);
        } else {
          assert Joins(k, k.current);
          ReturnJoins(k, start);
        }
    }
  }

  /** Every kernel entry keeps the ties between those who wait and those they wait for. */
  lemma StepKeepsTies(k: Kernel, e: Event)
    requires TieInv(k) && Possible(k, e) && Careful(k, e) && Respects(k, e) && Discreet(k, e)
    ensures TieInv(Apply(k, e))
  {
    StepKeepsWaits(k, e);
    if e.SysBlock? || e.SysWake? || e.SysToggle? || e.SysPriority? {
      ProcessCallJoins(k, e);
    } else if e.Tick? || e.Yield? || e.SysSleep? {
      SwitchCallJoins(k, e);
    } else if e.MainCreate? || e.SysCreate? {
      CreateCallJoins(k, e);
    } else if e.SysKill? || e.KeyKill? || e.SysExit? {
      KillCallJoins(k, e);
    } else if e.SysSemOpen? || e.SysSemClose? || e.SysSemPost? {
      SemCallJoins(k, e);
    } else {
      WaitCallJoins(k, e);
    }
  }

  // ---------------------------------------------------------------- what a waiter is promised

  /** A process switched out while it waits for the one in slot i: that one has recorded the semaphore it waits on. While
      the other lives it is queued there, blocked and alone; once the other has ended it is running or in a
      ready queue. */
  ghost predicate WaitsRightly(k: Kernel, j: nat)
    requires Sized(k) && Joins(k, j)
  {
    var s, i := k.conts[j].sem, k.conts[j].child;
    && j < MAX_PROCESSES && i < MAX_PROCESSES && 0 <= s < MAX_SEMAPHORES && k.table[i].semWait == s
    && (k.table[i].state != Terminated ==> k.table[j].state == Blocked && Queue(k.sems[s]) == [k.table[j].pid])
    && (k.table[i].state == Terminated ==> k.table[j].state == Running || (k.table[j].state == Ready && HasEntry(k, j)))
  }

  lemma AloneInQueue(k: Kernel, j: nat)
    requires TieInv(k) && Joins(k, j) && QueuedSlot(k, j)
    ensures var s := k.conts[j].sem; 0 <= s < MAX_SEMAPHORES && Queue(k.sems[s]) == [k.table[j].pid]
  {
    assert JoinerOk(k, j);
    var s, i := k.conts[j].sem, k.conts[j].child;
    var x := k.sems[s];
    assert Records(k, i, s) && CellsOk(k, s) && RingOk(x);
    var c :| 0 <= c < MAX_PROCESSES && x.waiting[c] == k.table[j].pid;
    forall n | 0 <= n < |Queue(x)|
      ensures Queue(x)[n] == k.table[j].pid && n == Dist(x.cur, c)
    {
      assert InRing(x, x.waiting[Pos(x.cur, n)]);
      RingOfJoiner(k, i, s, x.waiting[Pos(x.cur, n)]);
      assert Joins(k, Slot(k, x.waiting[Pos(x.cur, n)]));
    }
    assert Dist(x.cur, c) < Waiters(x);
    assert Queue(x)[0] == k.table[j].pid && Queue(x)[|Queue(x)| - 1] == k.table[j].pid;
  }

  lemma TiedWaitsRightly(k: Kernel, j: nat)
    requires TieInv(k) && Joins(k, j)
    ensures WaitsRightly(k, j)
  {
    assert JoinerOk(k, j);
    var s, i := k.conts[j].sem, k.conts[j].child;
    assert Records(k, i, s);
    if k.table[i].state != Terminated {
      AloneInQueue(k, j);
      QueuedIsBlocked(k, j);
    } else {
      assert j in Woken(k, s) by { assert !QueuedSlot(k, j); }
      WokenAreScheduled(k, s);
    }
  }

  lemma QueuedIsBlocked(k: Kernel, j: nat)
    requires SemInv(k) && PidsOk(k) && QueuedSlot(k, j)
    ensures k.table[j].state == Blocked
  {
    var s := k.conts[j].sem;
    var c :| 0 <= c < MAX_PROCESSES && k.sems[s].waiting[c] == k.table[j].pid;
    assert CellsOk(k, s);
    assert WaiterOk(k, s, k.sems[s].waiting[c]);
    assert k.table[j].pid != 0;
    SlotIs(k, j);
  }

  /** The end of a process leaves whoever waits for it running or ready with an entry in its queue. */
  lemma EndWakesWaiter(k: Kernel, pid: nat, j: nat)
    requires TieInv(k) && Slot(k, pid) !in k.conts && Kill(k, pid).1 == 0
    requires Joins(k, j) && k.conts[j].child == Slot(k, pid)
    ensures var r := Kill(k, pid).0;
      Sized(r) && j < MAX_PROCESSES && (r.table[j].state == Running || (r.table[j].state == Ready && HasEntry(r, j)))
  {
    var r := Kill(k, pid).0;
    KillJoins(k, pid);
    KillWaits(k, pid);
    KillKeeps(k, pid);
    KillEnds(k, pid);
    assert Joins(r, j);
    TiedWaitsRightly(r, j);
  }

  /** Whoever comes back from waiting does so after the end of the other, whose record is cleared and whose semaphore is
      free again; the exit status it then reads is that of the other. */
  lemma WaitReturns(k: Kernel, start: nat)
    requires TieInv(k) && Joins(k, k.current) && Possible(k, Resume(start))
    ensures var s, i := k.conts[k.current].sem, k.conts[k.current].child; var r := Apply(k, Resume(start));
      && 0 <= s < MAX_SEMAPHORES && k.table[i].state == Terminated
      && !r.sems[s].used && r.table[i].semWait == -1 && r.current == k.current && r.current !in r.conts
      && r.table[i].kin.exit == k.table[i].kin.exit
  {
    ReturnIs(k, start);
  }

  /** On any state, coming back clears the record; it frees the semaphore that was waited on exactly when that is still the
      one recorded, and otherwise closes another or none. */
  lemma ReturnFreesExactlyWhen(k: Kernel, i: nat, s: nat)
    requires SchedInv(k) && i < MAX_PROCESSES && s < MAX_SEMAPHORES && k.sems[s].used
    ensures JoinEnd(k, i).table[i].semWait == -1
    ensures !JoinEnd(k, i).sems[s].used <==> k.table[i].semWait == s
  {
    DestroyElsewhere(k, k.table[i].semWait);
  }

  // ---------------------------------------------------------------- runs

  ghost predicate DiscreetRun(k: Kernel, es: seq<Event>)
    requires Sized(k)
    decreases |es|
  {
    es == [] ||
    (Possible(k, es[0]) && Careful(k, es[0]) && Respects(k, es[0]) && Discreet(k, es[0]) && DiscreetRun(Apply(k, es[0]), es[1..]))
  }

  lemma {:induction false} DiscreetIsCareful(k: Kernel, es: seq<Event>)
    requires Sized(k) && DiscreetRun(k, es)
    ensures CarefulRun(k, es)
    decreases |es|
  {
    if es != [] {
      DiscreetIsCareful(Apply(k, es[0]), es[1..]);
    }
  }

  lemma {:induction false} RunKeepsTies(k: Kernel, es: seq<Event>)
    requires TieInv(k) && DiscreetRun(k, es) && CarefulRun(k, es)
    ensures TieInv(Run(k, es))
    decreases |es|
  {
    if es != [] {
      StepKeepsTies(k, es[0]);
      RunKeepsTies(Apply(k, es[0]), es[1..]);
    }
  }

  lemma BootTies()
    ensures TieInv(Boot())
  {
    BootKeepsWaits();
    var k := Boot();
    forall i, t | 0 <= i < MAX_PROCESSES
      ensures !Records(k, i, t)
    {
    }
  }

  /** In every state of every such run of the kernel from its start, whoever waits for a process does so rightly: nobody
      waits for a process that has ended. */
  lemma KernelWaitsForTheLiving(es: seq<Event>, j: nat)
    requires DiscreetRun(Boot(), es)
    ensures CarefulRun(Boot(), es)
    ensures Joins(Run(Boot(), es), j) ==> WaitsRightly(Run(Boot(), es), j)
  {
    BootTies();
    DiscreetIsCareful(Boot(), es);
    RunKeepsTies(Boot(), es);
    if Joins(Run(Boot(), es), j) {
      TiedWaitsRightly(Run(Boot(), es), j);
    }
  }
}
