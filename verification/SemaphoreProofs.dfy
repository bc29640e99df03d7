/** No wake-up is lost: whatever the kernel is asked to do, the units of a semaphore's value that nobody
    has come for never outnumber the processes already woken for them while others are still queued. */
module SemaphoreProofs {
  import opened KernelState
  import opened KernelRuns
  import opened SchedulerProofs
  import opened SemaphoreRings
  import opened SemaphoreState
  import opened SemaphoreSteps

  // ---------------------------------------------------------------- one semaphore changes

  lemma OtherSemKept(k: Kernel, r: Kernel, s: nat)
    requires Sized(k) && Sized(r) && s < MAX_SEMAPHORES && CellsOk(k, s) && Bound(k, s)
    requires r.table == k.table && r.conts == k.conts && r.sems[s] == k.sems[s]
    ensures CellsOk(r, s) && Bound(r, s)
  {
    assert Woken(r, s) == Woken(k, s);
    forall c | 0 <= c < MAX_PROCESSES && r.sems[s].waiting[c] != NOT_A_PROCESS
      ensures WaiterOk(r, s, r.sems[s].waiting[c])
    {
      assert WaiterOk(k, s, k.sems[s].waiting[c]);
    }
  }

  lemma SetSemKept(k: Kernel, s: nat, x: Semaphore)
    requires SemInv(k) && s < MAX_SEMAPHORES && SemSized(x) && RingOk(x) && (!x.used ==> Waiters(x) == 0)
    requires CellsOk(SetSem(k, s, x), s) && Bound(SetSem(k, s, x), s)
    ensures SemInv(SetSem(k, s, x))
  {
    var r := SetSem(k, s, x);
    forall t | 0 <= t < MAX_SEMAPHORES
      ensures CellsOk(r, t) && Bound(r, t)
    {
      if t != s {
        OtherSemKept(k, r, t);
      }
    }
  }

  /** The process a post is about to wake is no longer queued once its cell is cleared. */
  lemma PostedCells(k: Kernel, s: nat)
    requires SemInv(k) && s < MAX_SEMAPHORES
    ensures var x := k.sems[s]; var r := SetSem(k, s, Posted(x)); Sized(r) && CellsOk(r, s)
    ensures var x := k.sems[s]; Queue(x) != [] ==> !InRing(Posted(x), x.waiting[x.cur])
  {
    var x := k.sems[s];
    var r := SetSem(k, s, Posted(x));
    assert CellsOk(k, s);
    forall c | 0 <= c < MAX_PROCESSES && Posted(x).waiting[c] != NOT_A_PROCESS
      ensures WaiterOk(r, s, Posted(x).waiting[c])
    {
      assert Posted(x).waiting[c] == x.waiting[c];
      assert WaiterOk(k, s, x.waiting[c]);
    }
    assert Dist(x.cur, x.cur) == 0;
  }

  // A post takes nobody but the head off the ring.
  lemma OthersStay(x: Semaphore, q: nat)
    requires SemSized(x) && x.waiting[x.cur] != q && q != NOT_A_PROCESS
    ensures InRing(Posted(x), q) <==> InRing(x, q)
  {
    if InRing(x, q) {
      var c :| 0 <= c < |x.waiting| && x.waiting[c] == q;
      assert Posted(x).waiting[c] == q;
    }
  }

  lemma PostedWoken(k: Kernel, s: nat, h: nat)
    requires SchedInv(k) && SemInv(k) && s < MAX_SEMAPHORES && k.sems[s].waiting[k.sems[s].cur] != NOT_A_PROCESS
    requires h == Slot(k, k.sems[s].waiting[k.sems[s].cur])
    ensures var r := SetSem(k, s, Posted(k.sems[s])); Sized(r) && Woken(r, s) == Woken(k, s) + {h} && h !in Woken(k, s)
  {
    var x := k.sems[s];
    var r := SetSem(k, s, Posted(x));
    PostedCells(k, s);
    assert CellsOk(k, s) && RingOk(x) && WaiterOk(k, s, x.waiting[x.cur]);
    HeadCell(x);
    assert InRing(x, x.waiting[x.cur]);
    forall i
      ensures i in Woken(r, s) <==> i in Woken(k, s) + {h}
    {
      if i in k.conts && i < MAX_PROCESSES && k.conts[i].sem == s && i != h {
        SlotsDiffer(k, i, h);
        OthersStay(x, k.table[i].pid);
      }
    }
  }

  lemma PostedBound(k: Kernel, s: nat)
    requires SchedInv(k) && SemInv(k) && s < MAX_SEMAPHORES
    ensures var r := SetSem(k, s, Posted(k.sems[s])); Sized(r) && Bound(r, s)
  {
    var x := k.sems[s];
    PostTakesHead(x);
    assert Bound(k, s) && RingOk(x);
    if Queue(x) != [] {
      PostedWoken(k, s, Slot(k, x.waiting[x.cur]));
      BoundGoesUp(k, SetSem(k, s, Posted(x)), s, Slot(k, x.waiting[x.cur]));
    }
  }

  lemma BoundGoesUp(k: Kernel, r: Kernel, s: nat, h: nat)
    requires Sized(k) && Sized(r) && s < MAX_SEMAPHORES && Bound(k, s) && Queue(k.sems[s]) != []
    requires r.sems[s].value == k.sems[s].value + 1 && Woken(r, s) == Woken(k, s) + {h} && h !in Woken(k, s)
    ensures Bound(r, s)
  {
  }

  lemma SlotsDiffer(k: Kernel, i: nat, j: nat)
    requires Sized(k) && PidsOk(k) && 0 <= i < MAX_PROCESSES && 1 <= j < MAX_PROCESSES && i != j && k.table[j].pid != 0
    ensures k.table[i].pid != k.table[j].pid
  {
    if i == 0 {
    } else if i < j {
      assert k.table[i].pid != 0 ==> k.table[i].pid != k.table[j].pid;
    } else {
      assert k.table[j].pid != k.table[i].pid;
    }
  }

  lemma PostedKeeps(k: Kernel, s: nat)
    requires SchedInv(k) && SemInv(k) && s < MAX_SEMAPHORES && k.sems[s].used
    ensures SemInv(SetSem(k, s, Posted(k.sems[s])))
  {
    assert RingOk(k.sems[s]);
    PostTakesHead(k.sems[s]);
    PostedCells(k, s);
    PostedBound(k, s);
    SetSemKept(k, s, Posted(k.sems[s]));
  }

  /** sem_post keeps the bound: what it adds, the process it wakes will take. */
  lemma SemPostKeepsSems(k: Kernel, s: int)
    requires SchedInv(k) && SemInv(k)
    ensures SemInv(SemPost(k, s))
  {
    if !InvalidSem(k, s) {
      SemPostIs(k, s);
      var x := k.sems[s];
      var k1 := SetSem(k, s, Posted(x));
      PostedKeeps(k, s);
      SetSemKeeps(k, s, Posted(x));
      var pid := x.waiting[x.cur];
      if pid != NOT_A_PROCESS {
        HeadIsOff(k, s);
        WakeUndisturbed(k1, pid);
        UndisturbedKeeps(k1, Wake(k1, pid).0);
      }
    }
  }

  lemma HeadIsOff(k: Kernel, s: nat)
    requires SemInv(k) && s < MAX_SEMAPHORES && k.sems[s].waiting[k.sems[s].cur] != NOT_A_PROCESS
    ensures var x := k.sems[s]; var k1 := SetSem(k, s, Posted(x));
      Sized(k1) && !QueuedSlot(k1, Slot(k1, x.waiting[x.cur]))
  {
    var x := k.sems[s];
    assert CellsOk(k, s) && WaiterOk(k, s, x.waiting[x.cur]);
    assert RingOk(x);
    PostTakesHead(x);
    PostedCells(k, s);
  }

  // ---------------------------------------------------------------- sem_wait

  /** The current process leaves sem_wait: with a unit of s, or because s no longer exists. */
  lemma LeaveKeeps(k: Kernel, s: int, x: Semaphore)
    requires SchedInv(k) && SemInv(k) && k.table[k.current].state == Running
    requires k.current in k.conts ==> k.conts[k.current].sem == s
    requires 0 <= s < MAX_SEMAPHORES ==>
      var y := k.sems[s]; x == y.(value := x.value) && (y.used ==> x.value == 0 || x.value == y.value - 1)
    ensures var k1 := if 0 <= s < MAX_SEMAPHORES then SetSem(k, s, x) else k;
      SemInv(k1.(conts := k1.conts - {k1.current}))
  {
    var k1 := if 0 <= s < MAX_SEMAPHORES then SetSem(k, s, x) else k;
    var r := k1.(conts := k1.conts - {k1.current});
    forall t | 0 <= t < MAX_SEMAPHORES
      ensures CellsOk(r, t) && Bound(r, t)
    {
      LeaveOne(k, s, x, t);
    }
    forall t | 0 <= t < MAX_SEMAPHORES
      ensures RingOk(r.sems[t]) && (!r.sems[t].used ==> Waiters(r.sems[t]) == 0)
    {
      assert RingOk(k.sems[t]);
    }
  }

  lemma LeaveOne(k: Kernel, s: int, x: Semaphore, t: nat)
    requires SemInv(k) && k.table[k.current].state == Running && t < MAX_SEMAPHORES
    requires k.current in k.conts ==> k.conts[k.current].sem == s
    requires 0 <= s < MAX_SEMAPHORES ==>
      var y := k.sems[s]; x == y.(value := x.value) && (y.used ==> x.value == 0 || x.value == y.value - 1)
    ensures var k1 := if 0 <= s < MAX_SEMAPHORES then SetSem(k, s, x) else k;
      var r := k1.(conts := k1.conts - {k1.current});
      Sized(r) && CellsOk(r, t) && Bound(r, t)
  {
    var k1 := if 0 <= s < MAX_SEMAPHORES then SetSem(k, s, x) else k;
    var r := k1.(conts := k1.conts - {k1.current});
    assert CellsOk(k, t) && Bound(k, t);
    assert RingOk(k.sems[t]) && (!k.sems[t].used ==> Waiters(k.sems[t]) == 0);
    LeaveCells(k, r, t);
    LeaveWoken(k, r, t);
    if t != s {
      assert Woken(k, t) - {k.current} == Woken(k, t);
    }
  }

  lemma LeaveCells(k: Kernel, r: Kernel, t: nat)
    requires Sized(k) && Sized(r) && t < MAX_SEMAPHORES && CellsOk(k, t) && k.table[k.current].state == Running
    requires r.table == k.table && r.sems[t].waiting == k.sems[t].waiting && r.conts == k.conts - {k.current}
    ensures CellsOk(r, t)
  {
    forall c | 0 <= c < MAX_PROCESSES && r.sems[t].waiting[c] != NOT_A_PROCESS
      ensures WaiterOk(r, t, r.sems[t].waiting[c])
    {
      assert WaiterOk(k, t, k.sems[t].waiting[c]);
    }
  }

  lemma LeaveWoken(k: Kernel, r: Kernel, t: nat)
    requires Sized(k) && Sized(r) && t < MAX_SEMAPHORES
    requires r.table == k.table && r.sems[t].waiting == k.sems[t].waiting && r.conts == k.conts - {k.current}
    ensures Woken(r, t) == Woken(k, t) - {k.current}
  {
    forall i
      ensures i in Woken(r, t) <==> i in Woken(k, t) - {k.current}
    {
      assert i in r.conts <==> i in k.conts && i != k.current;
      assert i in r.conts ==> r.conts[i] == k.conts[i];
      assert forall q :: InRing(r.sems[t], q) <==> InRing(k.sems[t], q);
    }
  }

  predicate Positive(i: nat) { i >= 1 }

  // The slots of processes other than idle, were there n slots.
  function SlotsBelow(n: nat): set<nat> { set i: nat | i < n && Positive(i) }

  // Different slots, none of them c, are fewer than n - 1.
  lemma FewerThanSlots(q: seq<nat>, n: nat, c: nat)
    requires 1 <= c < n
    requires forall j :: 0 <= j < |q| ==> 1 <= q[j] < n && q[j] != c
    requires forall j, l :: 0 <= j < l < |q| ==> q[j] != q[l]
    ensures |q| <= n - 2
  {
    SizeBelow(n);
    assert Positive(c);
    DistinctFit(q, SlotsBelow(n) - {c});
  }

  lemma {:induction false} DistinctFit(q: seq<nat>, all: set<nat>)
    requires forall j :: 0 <= j < |q| ==> q[j] in all
    requires forall j, l :: 0 <= j < l < |q| ==> q[j] != q[l]
    ensures |q| <= |all|
    decreases |q|
  {
    if q != [] {
      DistinctFit(q[1..], all - {q[0]});
    }
  }

  lemma {:induction false} SizeBelow(n: nat)
    requires n >= 1
    ensures |SlotsBelow(n)| == n - 1
    decreases n
  {
    if n > 1 {
      SizeBelow(n - 1);
      assert Positive(n - 1);
      assert SlotsBelow(n) == SlotsBelow(n - 1) + {n - 1};
    } else {
      assert SlotsBelow(n) == {};
    }
  }

  /** The ring of 1024 cells never fills up: everybody on it is a different process, none of them idle
      or the one that is about to wait. */
  lemma RingHasRoom(k: Kernel, s: nat)
    requires SemInv(k) && s < MAX_SEMAPHORES && k.current != 0 && !InRing(k.sems[s], CurrentPid(k))
    ensures Waiters(k.sems[s]) < MAX_PROCESSES - 1
  {
    var x := k.sems[s];
    var q := Queue(x);
    assert CellsOk(k, s) && RingOk(x);
    var slots := seq(|q|, j requires 0 <= j < |q| => Slot(k, q[j]));
    forall j | 0 <= j < |q|
      ensures 1 <= slots[j] < MAX_PROCESSES && slots[j] != k.current && k.table[slots[j]].pid == q[j]
    {
      assert WaiterOk(k, s, x.waiting[Pos(x.cur, j)]);
    }
    forall j, l | 0 <= j < l < |q|
      ensures slots[j] != slots[l]
    {
      var c, d := Pos(x.cur, j), Pos(x.cur, l);
      assert x.waiting[c] != x.waiting[d];
    }
    FewerThanSlots(slots, MAX_PROCESSES, k.current);
  }

  // The current process, already blocked, is queued on s and switched out inside sem_wait.
  function Join(k: Kernel, s: nat, c: Cont): Kernel
    requires Sized(k) && s < MAX_SEMAPHORES
  {
    SetSem(k, s, Queued(k.sems[s], CurrentPid(k))).(conts := k.conts[k.current := c])
  }

  ghost predicate MayJoin(k: Kernel, s: nat, c: Cont) {
    && SemInv(k) && s < MAX_SEMAPHORES && k.sems[s].used && k.sems[s].value == 0 && PidsOk(k)
    && k.current != 0 && k.table[k.current].state == Blocked && k.table[k.current].previous == Ready && k.current !in k.dead
    && !InRing(k.sems[s], CurrentPid(k))
    && c.sem == s && (c.InJoin? ==> c.child < MAX_PROCESSES) && (k.current in k.conts ==> k.conts[k.current] == c)
  }

  lemma JoinOther(k: Kernel, s: nat, c: Cont, t: nat)
    requires MayJoin(k, s, c) && t < MAX_SEMAPHORES && t != s
    ensures Sized(Join(k, s, c)) && CellsOk(Join(k, s, c), t) && Bound(Join(k, s, c), t)
  {
    var r := Join(k, s, c);
    assert CellsOk(k, t) && Bound(k, t);
    forall d | 0 <= d < MAX_PROCESSES && r.sems[t].waiting[d] != NOT_A_PROCESS
      ensures WaiterOk(r, t, r.sems[t].waiting[d])
    {
      assert WaiterOk(k, t, k.sems[t].waiting[d]);
    }
    assert Woken(r, t) == Woken(k, t);
  }

  lemma JoinCells(k: Kernel, s: nat, c: Cont)
    requires MayJoin(k, s, c)
    ensures Sized(Join(k, s, c)) && CellsOk(Join(k, s, c), s)
  {
    var x := k.sems[s];
    var r := Join(k, s, c);
    var pid := CurrentPid(k);
    assert CellsOk(k, s);
    SlotIs(k, k.current);
    forall d | 0 <= d < MAX_PROCESSES && r.sems[s].waiting[d] != NOT_A_PROCESS
      ensures WaiterOk(r, s, r.sems[s].waiting[d])
    {
      if d != x.last {
        assert WaiterOk(k, s, x.waiting[d]);
      }
    }
    forall d, e | 0 <= d < e < MAX_PROCESSES && r.sems[s].waiting[d] != NOT_A_PROCESS
      ensures r.sems[s].waiting[d] != r.sems[s].waiting[e]
    {
      assert x.waiting[d] != pid && x.waiting[e] != pid;
    }
  }

  lemma JoinKeepsSems(k: Kernel, s: nat, c: Cont)
    requires MayJoin(k, s, c)
    ensures SemInv(Join(k, s, c))
  {
    var r := Join(k, s, c);
    assert RingOk(k.sems[s]);
    RingHasRoom(k, s);
    WaitAppends(k.sems[s], CurrentPid(k));
    JoinCells(k, s, c);
    forall t | 0 <= t < MAX_SEMAPHORES
      ensures CellsOk(r, t) && Bound(r, t)
    {
      if t != s {
        JoinOther(k, s, c, t);
      }
    }
  }

  // Nobody running is queued anywhere.
  lemma RunningIsNotQueued(k: Kernel, s: nat)
    requires SchedInv(k) && SemInv(k) && s < MAX_SEMAPHORES && k.table[k.current].state == Running
    ensures !InRing(k.sems[s], CurrentPid(k))
  {
    if InRing(k.sems[s], CurrentPid(k)) {
      var c :| 0 <= c < MAX_PROCESSES && k.sems[s].waiting[c] == CurrentPid(k);
      assert CellsOk(k, s) && WaiterOk(k, s, k.sems[s].waiting[c]);
      SlotIs(k, k.current);
      assert false;
    }
  }

  /** A process that finds no unit of s queues up and is switched out. */
  lemma ParkKeeps(k: Kernel, s: nat, c: Cont)
    requires SchedInv(k) && SemInv(k) && k.current != 0 && k.table[k.current].state == Running
    requires s < MAX_SEMAPHORES && k.sems[s].used && k.sems[s].value == 0
    requires c.sem == s && (c.InJoin? ==> c.child < MAX_PROCESSES) && (k.current in k.conts ==> k.conts[k.current] == c)
    ensures var k1 := Block(SetSem(k, s, Queued(k.sems[s], CurrentPid(k))), CurrentPid(k)).0;
      SemInv(k1.(conts := k1.conts[k1.current := c]))
  {
    var pid := CurrentPid(k);
    var k0 := k.(conts := k.conts - {k.current});
    LeaveKeeps(k, s, k.sems[s]);
    assert SetSem(k, s, k.sems[s]) == k;
    OtherFields(k, k0);
    var k1 := Block(k0, pid).0;
    SlotIs(k0, k.current);
    assert k1 == BlockSlot(k0, k.current);
    RunningIsNotQueued(k, s);
    BlockUndisturbed(k0, pid);
    BlockKeeps(k0, pid);
    UndisturbedKeeps(k0, k1);
    JoinKeepsSems(k1, s, c);
    BlockCommutes(k, s, c);
  }

  lemma BlockCommutes(k: Kernel, s: nat, c: Cont)
    requires SchedInv(k) && k.table[k.current].state == Running && s < MAX_SEMAPHORES && k.current != 0
    ensures var k1 := Block(SetSem(k, s, Queued(k.sems[s], CurrentPid(k))), CurrentPid(k)).0;
      k1.(conts := k1.conts[k1.current := c]) == Join(Block(k.(conts := k.conts - {k.current}), CurrentPid(k)).0, s, c)
  {
    var pid := CurrentPid(k);
    SlotIs(k, k.current);
    var k0 := k.(conts := k.conts - {k.current});
    var k2 := SetSem(k, s, Queued(k.sems[s], pid));
    assert Slot(k0, pid) == k.current && Slot(k2, pid) == k.current;
    assert k0.conts[k.current := c] == k.conts[k.current := c];
  }

  /** One stretch of sem_wait, from the call or the last yield. */
  lemma SemWaitFromKeepsSems(k: Kernel, c: Cont, start: nat)
    requires SchedInv(k) && SemInv(k) && start < PRIORITY_LEVELS && k.current != 0 && k.table[k.current].state == Running
    requires (c.InJoin? ==> c.child < MAX_PROCESSES) && (k.current in k.conts ==> k.conts[k.current] == c)
    ensures SemInv(SemWaitFrom(k, c, start))
  {
    var (k1, done) := SemWait(k, c.sem);
    SemWaitKeeps(k, c.sem);
    if !done {
      SemWaitIs(k, c.sem);
      ParkKeeps(k, c.sem, c);
      var k2 := k1.(conts := k1.conts[k1.current := c]);
      OtherFields(k1, k2);
      SchedulerUndisturbed(k2, start);
      UndisturbedKeeps(k2, Scheduler(k2, start));
    } else {
      var k2 := k1.(conts := k1.conts - {k1.current});
      LeftKeeps(k, c);
      OtherFields(k1, k2);
      if c.InJoin? {
        JoinEndKeepsSems(k2, c.child);
      }
    }
  }

  lemma LeftKeeps(k: Kernel, c: Cont)
    requires SchedInv(k) && SemInv(k) && k.table[k.current].state == Running && SemWait(k, c.sem).1
    requires k.current in k.conts ==> k.conts[k.current] == c
    ensures var k1 := SemWait(k, c.sem).0; SemInv(k1.(conts := k1.conts - {k1.current}))
  {
    var s := c.sem;
    if InvalidSem(k, s) {
      if 0 <= s < MAX_SEMAPHORES {
        LeaveKeeps(k, s, k.sems[s]);
        assert SetSem(k, s, k.sems[s]) == k;
      } else {
        LeaveKeeps(k, s, EmptySem());
      }
    } else {
      SemWaitIs(k, s);
      LeaveKeeps(k, s, k.sems[s].(value := k.sems[s].value - 1));
    }
  }

  // ---------------------------------------------------------------- opening and closing

  lemma CreateSemKeeps(k: Kernel, value: nat)
    requires SemInv(k)
    ensures SemInv(CreateSem(k, value).0)
  {
    var s := FindFreeSem(k.sems, 0);
    if s < MAX_SEMAPHORES {
      var x := k.sems[s].(used := true, value := value);
      assert RingOk(k.sems[s]) && CellsOk(k, s);
      assert forall c :: 0 <= c < MAX_PROCESSES ==> k.sems[s].waiting[c] == NOT_A_PROCESS;
      SetSemKept(k, s, x);
    }
  }

  lemma EmptiedKeeps(k: Kernel, s: nat)
    requires SemInv(k) && s < MAX_SEMAPHORES
    ensures SemInv(SetSem(k, s, EmptySem()))
  {
    EmptyIsOk();
    SetSemKept(k, s, EmptySem());
  }

  lemma StillOff(k: Kernel, s: nat, e: Semaphore)
    requires SchedInv(k) && s < MAX_SEMAPHORES && SemSized(e)
    requires forall c :: 0 <= c < MAX_PROCESSES && k.sems[s].waiting[c] != NOT_A_PROCESS ==>
      !QueuedSlot(SetSem(k, s, e), Slot(k, k.sems[s].waiting[c]))
    requires Undisturbed(SetSem(k, s, e), SetSem(WakeOne(k, s), s, e))
    ensures var k1 := WakeOne(k, s); forall c :: 0 <= c < MAX_PROCESSES && k1.sems[s].waiting[c] != NOT_A_PROCESS ==>
      !QueuedSlot(SetSem(k1, s, e), Slot(k1, k1.sems[s].waiting[c]))
  {
    var x := k.sems[s];
    var k0, k1 := SetSem(k, s, e), WakeOne(k, s);
    var r1 := SetSem(k1, s, e);
    SameSlots(k0, r1);
    forall c | 0 <= c < MAX_PROCESSES && k1.sems[s].waiting[c] != NOT_A_PROCESS
      ensures !QueuedSlot(r1, Slot(k1, k1.sems[s].waiting[c]))
    {
      var i := Slot(k, x.waiting[c]);
      assert Slot(k0, x.waiting[c]) == i && Slot(r1, x.waiting[c]) == i;
      assert !QueuedSlot(k0, i);
      assert i < MAX_PROCESSES ==> SlotKept(k0, r1, i);
    }
  }

  // Waking everyone on a ring changes no process but those on it.
  lemma {:induction false} WakeAllUndisturbed(k: Kernel, s: nat, e: Semaphore)
    requires SchedInv(k) && s < MAX_SEMAPHORES && SemSized(e)
    requires forall c :: 0 <= c < MAX_PROCESSES && k.sems[s].waiting[c] != NOT_A_PROCESS ==>
      !QueuedSlot(SetSem(k, s, e), Slot(k, k.sems[s].waiting[c]))
    ensures Sized(WakeAll(k, s)) && Undisturbed(SetSem(k, s, e), SetSem(WakeAll(k, s), s, e))
    decreases (k.sems[s].last - k.sems[s].cur) % MAX_PROCESSES
  {
    var x := k.sems[s];
    var k0 := SetSem(k, s, e);
    if x.cur == x.last {
      SameTableUndisturbed(k0, k0);
    } else {
      var k1 := WakeOne(k, s);
      WakeOneKeeps(k, s);
      WakeOneUndisturbed(k, s, e);
      var r1 := SetSem(k1, s, e);
      StillOff(k, s, e);
      WakeAllUndisturbed(k1, s, e);
      UndisturbedChains(k0, r1, SetSem(WakeAll(k, s), s, e));
    }
  }

  lemma WakeOneUndisturbed(k: Kernel, s: nat, e: Semaphore)
    requires SchedInv(k) && s < MAX_SEMAPHORES && SemSized(e)
    requires var pid := k.sems[s].waiting[k.sems[s].cur];
      pid != NOT_A_PROCESS ==> !QueuedSlot(SetSem(k, s, e), Slot(k, pid))
    ensures Undisturbed(SetSem(k, s, e), SetSem(WakeOne(k, s), s, e))
  {
    var k0 := SetSem(k, s, e);
    var pid := k.sems[s].waiting[k.sems[s].cur];
    SetSemKeeps(k, s, e);
    if pid != NOT_A_PROCESS {
      WakeUndisturbed(k0, pid);
      WakeCommutes(k, s, e, pid);
      SameTableUndisturbed(Wake(k0, pid).0, SetSem(WakeOne(k, s), s, e));
      UndisturbedChains(k0, Wake(k0, pid).0, SetSem(WakeOne(k, s), s, e));
    } else {
      SameTableUndisturbed(k0, SetSem(WakeOne(k, s), s, e));
    }
  }

  lemma WakeCommutes(k: Kernel, s: nat, e: Semaphore, pid: nat)
    requires Sized(k) && s < MAX_SEMAPHORES && SemSized(e)
    ensures Wake(SetSem(k, s, e), pid).0 == SetSem(Wake(k, pid).0, s, e)
  {
    assert Slot(SetSem(k, s, e), pid) == Slot(k, pid);
  }

  lemma DestroySemKeepsSems(k: Kernel, s: int)
    requires SchedInv(k) && SemInv(k)
    ensures SemInv(DestroySem(k, s))
  {
    if !InvalidSem(k, s) {
      EmptyIsOk();
      EmptiedKeeps(k, s);
      var k0 := SetSem(k, s, EmptySem());
      forall c | 0 <= c < MAX_PROCESSES && k.sems[s].waiting[c] != NOT_A_PROCESS
        ensures !QueuedSlot(k0, Slot(k, k.sems[s].waiting[c]))
      {
        assert CellsOk(k, s) && WaiterOk(k, s, k.sems[s].waiting[c]);
        assert k.table[Slot(k, k.sems[s].waiting[c])].pid != NOT_A_PROCESS;
      }
      WakeAllUndisturbed(k, s, EmptySem());
      UndisturbedKeeps(k0, DestroySem(k, s));
    }
  }

  // ---------------------------------------------------------------- processes come and go

  lemma JoinEndKeepsSems(k: Kernel, i: nat)
    requires SchedInv(k) && SemInv(k) && i < MAX_PROCESSES
    ensures SemInv(JoinEnd(k, i))
  {
    DestroySemKeepsSems(k, k.table[i].semWait);
    var k1 := DestroySem(k, k.table[i].semWait);
    SetSemWaitUndisturbed(k1, i, -1);
    UndisturbedKeeps(k1, JoinEnd(k, i));
  }

  lemma JoinBeginKeepsSems(k: Kernel, pid: nat)
    requires SemInv(k)
    ensures SemInv(JoinBegin(k, pid).0)
  {
    var i := Slot(k, pid);
    if !(pid == 0 || i == MAX_PROCESSES || k.table[i].state == Terminated || k.table[i].semWait != -1) {
      var (k1, s) := CreateSem(k, 0);
      CreateSemKeeps(k, 0);
      SetSemWaitUndisturbed(k1, i, s);
      UndisturbedKeeps(k1, JoinBegin(k, pid).0);
    }
  }

  lemma KillKeepsSems(k: Kernel, pid: nat)
    requires SchedInv(k) && SemInv(k) && Slot(k, pid) !in k.conts
    ensures SemInv(Kill(k, pid).0)
  {
    if Kill(k, pid).1 == 0 {
      var i := Slot(k, pid);
      KillIs(k, pid);
      var k2 := Terminate(k, i);
      TerminateIs(k, i);
      TerminateKeeps(k, i);
      TerminateUndisturbed(k, i);
      UndisturbedKeeps(k, k2);
      SemPostKeepsSems(k2, k.table[i].semWait);
      SemPostKeeps(k2, k.table[i].semWait);
      PostLeavesDead(k2, k.table[i].semWait, i);
      var k3 := if k.table[i].semWait != -1 then SemPost(k2, k.table[i].semWait) else k2;
      BuryUndisturbed(k3, i);
      UndisturbedKeeps(k3, k3.(dead := k3.dead + [i]));
    }
  }

  lemma PostLeavesDead(k: Kernel, s: int, i: nat)
    requires Sized(k) && i < MAX_PROCESSES && k.table[i].state == Terminated
    ensures SemPost(k, s).table[i].state == Terminated && SemPost(k, s).conts == k.conts
  {
    if !InvalidSem(k, s) {
      SemPostIs(k, s);
    }
  }
}
