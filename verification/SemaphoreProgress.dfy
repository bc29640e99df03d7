/** Nobody sleeps through a wake-up: a process inside sem_wait is on the queue of its semaphore, or it is
    ready or running and about to retry. */
module SemaphoreProgress {
  import opened KernelState
  import opened KernelRuns
  import opened SchedulerProofs
  import opened SemaphoreRings
  import opened SemaphoreState
  import opened SemaphoreSteps
  import opened SemaphoreProofs

  /** The post to a semaphore with a queue makes the first in it ready, and changes no other process. */
  lemma PostReadiesHead(k: Kernel, s: nat)
    requires SchedInv(k) && SemInv(k) && s < MAX_SEMAPHORES && k.sems[s].used && Queue(k.sems[s]) != []
    ensures var h := Slot(k, Queue(k.sems[s])[0]); h < MAX_PROCESSES && h in k.conts && k.conts[h].sem == s
    ensures var h := Slot(k, Queue(k.sems[s])[0]); SemPost(k, s).table == k.table[h := k.table[h].(state := Ready)]
    ensures SemPost(k, s).conts == k.conts
    ensures SemPost(k, s).sems == k.sems[s := Posted(k.sems[s])]
  {
    var x := k.sems[s];
    assert CellsOk(k, s) && RingOk(x);
    PostTakesHead(x);
    assert WaiterOk(k, s, x.waiting[x.cur]);
    SemPostIs(k, s);
  }

  lemma PostKeepsGoing(k: Kernel, s: int)
    requires SchedInv(k) && SemInv(k) && WokenAreGoing(k)
    ensures WokenAreGoing(SemPost(k, s))
  {
    if !InvalidSem(k, s) {
      var x := k.sems[s];
      var r := SemPost(k, s);
      SemPostIs(k, s);
      assert RingOk(x);
      PostTakesHead(x);
      if Queue(x) != [] {
        PostReadiesHead(k, s);
        var h := Slot(k, Queue(x)[0]);
        forall i | i in r.conts && i < MAX_PROCESSES && !QueuedSlot(r, i)
          ensures Going(r.table[i])
        {
          if i != h && QueuedSlot(k, i) {
            PostLeavesOthersQueued(k, s, i, h);
          }
        }
      } else {
        assert Posted(x).waiting == x.waiting;
        forall i | i in r.conts && i < MAX_PROCESSES && !QueuedSlot(r, i)
          ensures Going(r.table[i])
        {
          assert !QueuedSlot(k, i);
        }
      }
    }
  }

  lemma PostLeavesOthersQueued(k: Kernel, s: nat, i: nat, h: nat)
    requires SchedInv(k) && SemInv(k) && s < MAX_SEMAPHORES && k.sems[s].used && Queue(k.sems[s]) != []
    requires h == Slot(k, Queue(k.sems[s])[0]) && i != h && QueuedSlot(k, i)
    ensures QueuedSlot(SemPost(k, s), i)
  {
    PostReadiesHead(k, s);
    var x := k.sems[s];
    var pid := k.table[i].pid;
    if k.conts[i].sem == s {
      var c :| 0 <= c < MAX_PROCESSES && x.waiting[c] == pid;
      assert CellsOk(k, s) && RingOk(x);
      assert pid != NOT_A_PROCESS;
      assert WaiterOk(k, s, x.waiting[c]);
      SlotIs(k, i);
      assert c != x.cur by { PostTakesHead(x); }
      assert Posted(x).waiting[c] == pid;
    }
  }

  // The processes inside sem_wait stay as they are, but for the current one.
  lemma LeaveKeepsGoing(k: Kernel, r: Kernel)
    requires Sized(k) && Sized(r) && WokenAreGoing(k) && r.table == k.table && r.conts == k.conts - {k.current}
    requires forall s :: 0 <= s < MAX_SEMAPHORES ==> r.sems[s].waiting == k.sems[s].waiting
    ensures WokenAreGoing(r)
  {
    forall i | i in r.conts && i < MAX_PROCESSES && !QueuedSlot(r, i)
      ensures Going(r.table[i])
    {
      assert i in k.conts && k.conts[i] == r.conts[i];
      assert !QueuedSlot(k, i);
    }
  }

  lemma JoinKeepsGoing(k: Kernel, s: nat, c: Cont)
    requires MayJoin(k, s, c) && k.current !in k.conts && WokenAreGoing(k)
    ensures WokenAreGoing(Join(k, s, c))
  {
    var r := Join(k, s, c);
    var x := k.sems[s];
    assert RingOk(x);
    RingHasRoom(k, s);
    assert r.sems[s].waiting[x.last] == CurrentPid(k);
    assert QueuedSlot(r, k.current);
    forall i | i in r.conts && i < MAX_PROCESSES && !QueuedSlot(r, i)
      ensures Going(r.table[i])
    {
      if i != k.current {
        assert i in k.conts && k.conts[i] == r.conts[i];
        if QueuedSlot(k, i) {
          JoinLeavesOthersQueued(k, s, c, i);
        }
      }
    }
  }

  lemma JoinLeavesOthersQueued(k: Kernel, s: nat, c: Cont, i: nat)
    requires MayJoin(k, s, c) && Waiters(k.sems[s]) < MAX_PROCESSES - 1 && i != k.current && QueuedSlot(k, i)
    ensures Sized(Join(k, s, c)) && QueuedSlot(Join(k, s, c), i)
  {
    var x := k.sems[s];
    if k.conts[i].sem == s {
      var d :| 0 <= d < MAX_PROCESSES && x.waiting[d] == k.table[i].pid;
      assert RingOk(x);
      assert k.table[i].pid != NOT_A_PROCESS;
      assert Dist(x.cur, x.last) == Waiters(x);
      assert Queued(x, CurrentPid(k)).waiting[d] == k.table[i].pid;
    }
  }

  lemma ParkKeepsGoing(k: Kernel, s: nat, c: Cont)
    requires SchedInv(k) && SemInv(k) && WokenAreGoing(k) && k.current != 0 && k.table[k.current].state == Running
    requires s < MAX_SEMAPHORES && k.sems[s].used && k.sems[s].value == 0
    requires c.sem == s && (c.InJoin? ==> c.child < MAX_PROCESSES) && (k.current in k.conts ==> k.conts[k.current] == c)
    ensures var k1 := Block(SetSem(k, s, Queued(k.sems[s], CurrentPid(k))), CurrentPid(k)).0;
      WokenAreGoing(k1.(conts := k1.conts[k1.current := c]))
  {
    var k0 := k.(conts := k.conts - {k.current});
    var k1 := Block(k0, CurrentPid(k)).0;
    ParkReady(k, s, c);
    LeaveKeepsGoing(k, k0);
    SlotIs(k, k.current);
    SlotIs(k0, k.current);
    BlockUndisturbed(k0, CurrentPid(k));
    UndisturbedKeepsGoing(k0, k1);
    JoinKeepsGoing(k1, s, c);
    BlockCommutes(k, s, c);
  }

  lemma ParkReady(k: Kernel, s: nat, c: Cont)
    requires SchedInv(k) && SemInv(k) && k.current != 0 && k.table[k.current].state == Running
    requires s < MAX_SEMAPHORES && k.sems[s].used && k.sems[s].value == 0
    requires c.sem == s && (c.InJoin? ==> c.child < MAX_PROCESSES) && (k.current in k.conts ==> k.conts[k.current] == c)
    ensures var k1 := Block(k.(conts := k.conts - {k.current}), CurrentPid(k)).0;
      MayJoin(k1, s, c) && k1.current !in k1.conts
  {
    var pid := CurrentPid(k);
    var k0 := k.(conts := k.conts - {k.current});
    LeaveKeeps(k, s, k.sems[s]);
    assert SetSem(k, s, k.sems[s]) == k;
    OtherFields(k, k0);
    SlotIs(k0, k.current);
    var k1 := Block(k0, pid).0;
    assert k1 == BlockSlot(k0, k.current);
    RunningIsNotQueued(k, s);
    BlockUndisturbed(k0, pid);
    BlockKeeps(k0, pid);
    UndisturbedKeeps(k0, k1);
  }

  // ---------------------------------------------------------------- closing a semaphore

  predicate Wakeable(p: Pcb) { p.state == Ready || (p.state == Blocked && p.previous == Ready) }

  predicate OnRing(x: Semaphore, c: int)
    requires SemSized(x)
  {
    0 <= c < MAX_PROCESSES && Dist(x.cur, c) < Waiters(x)
  }

  ghost predicate AllWakeable(k: Kernel, s: nat)
    requires Sized(k) && s < MAX_SEMAPHORES
  {
    var x := k.sems[s];
    forall c :: OnRing(x, c) ==> x.waiting[c] != NOT_A_PROCESS && Slot(k, x.waiting[c]) < MAX_PROCESSES && Wakeable(k.table[Slot(k, x.waiting[c])])
  }

  // Whoever was ready still is, and lookups find the same slots.
  ghost predicate StillReady(k: Kernel, r: Kernel)
    requires Sized(k) && Sized(r)
  {
    && (forall pid :: Slot(r, pid) == Slot(k, pid))
    && (forall i :: 0 <= i < MAX_PROCESSES && k.table[i].state == Ready ==> r.table[i].state == Ready)
    && (forall i :: 0 <= i < MAX_PROCESSES && Wakeable(k.table[i]) ==> Wakeable(r.table[i]))
  }

  lemma WakeReadies(k: Kernel, pid: nat)
    requires Sized(k) && Slot(k, pid) < MAX_PROCESSES && Wakeable(k.table[Slot(k, pid)])
    ensures var r := Wake(k, pid).0; StillReady(k, r) && r.table[Slot(k, pid)].state == Ready && r.sems == k.sems
  {
    var r := Wake(k, pid).0;
    forall q
      ensures Slot(r, q) == Slot(k, q)
    {
      SamePidsSameSlot(k.table, r.table, q, 0);
    }
  }

  lemma WakeOneReadies(k: Kernel, s: nat)
    requires Sized(k) && s < MAX_SEMAPHORES && AllWakeable(k, s) && Waiters(k.sems[s]) > 0
    ensures StillReady(k, WakeOne(k, s)) && WakeOne(k, s).table[Slot(k, k.sems[s].waiting[k.sems[s].cur])].state == Ready
  {
    var x := k.sems[s];
    assert OnRing(x, x.cur);
    WakeReadies(k, x.waiting[x.cur]);
    var r := Wake(k, x.waiting[x.cur]).0;
    forall q
      ensures Slot(WakeOne(k, s), q) == Slot(k, q)
    {
      assert Slot(r, q) == Slot(k, q);
    }
  }

  ghost predicate CellReady(k: Kernel, r: Kernel, x: Semaphore, c: int)
    requires Sized(k) && Sized(r) && SemSized(x) && OnRing(x, c)
  {
    Slot(k, x.waiting[c]) < MAX_PROCESSES && r.table[Slot(k, x.waiting[c])].state == Ready
  }

  lemma RestWakeable(k: Kernel, s: nat)
    requires Sized(k) && s < MAX_SEMAPHORES && AllWakeable(k, s) && Waiters(k.sems[s]) > 0
    ensures AllWakeable(WakeOne(k, s), s)
  {
    var x := k.sems[s];
    var k1 := WakeOne(k, s);
    var y := k1.sems[s];
    WakeOneReadies(k, s);
    forall c | OnRing(y, c)
      ensures y.waiting[c] != NOT_A_PROCESS && Slot(k1, y.waiting[c]) < MAX_PROCESSES && Wakeable(k1.table[Slot(k1, y.waiting[c])])
    {
      assert OnRing(x, c);
    }
  }

  lemma StillReadyChains(a: Kernel, b: Kernel, c: Kernel)
    requires Sized(a) && Sized(b) && Sized(c) && StillReady(a, b) && StillReady(b, c)
    ensures StillReady(a, c)
  {
    forall pid
      ensures Slot(c, pid) == Slot(a, pid)
    {
      assert Slot(c, pid) == Slot(b, pid);
    }
  }

  /** destroy_sem wakes everyone on the queue. */
  lemma {:induction false} WakeAllReadies(k: Kernel, s: nat)
    requires Sized(k) && s < MAX_SEMAPHORES && AllWakeable(k, s)
    ensures StillReady(k, WakeAll(k, s))
    ensures forall c {:trigger OnRing(k.sems[s], c)} :: OnRing(k.sems[s], c) ==> CellReady(k, WakeAll(k, s), k.sems[s], c)
    decreases (k.sems[s].last - k.sems[s].cur) % MAX_PROCESSES
  {
    var x := k.sems[s];
    if x.cur != x.last {
      var k1 := WakeOne(k, s);
      WakeOneReadies(k, s);
      RestWakeable(k, s);
      WakeAllReadies(k1, s);
      var r := WakeAll(k1, s);
      StillReadyChains(k, k1, r);
      forall c | OnRing(x, c)
        ensures CellReady(k, r, x, c)
      {
        CellBecomesReady(k, s, r, c);
      }
    }
  }

  lemma CellBecomesReady(k: Kernel, s: nat, r: Kernel, c: int)
    requires Sized(k) && Sized(r) && s < MAX_SEMAPHORES && AllWakeable(k, s) && OnRing(k.sems[s], c)
    requires StillReady(WakeOne(k, s), r)
    requires OnRing(WakeOne(k, s).sems[s], c) ==> CellReady(WakeOne(k, s), r, WakeOne(k, s).sems[s], c)
    ensures CellReady(k, r, k.sems[s], c)
  {
    var x := k.sems[s];
    WakeOneReadies(k, s);
    assert c != x.cur ==> OnRing(WakeOne(k, s).sems[s], c);
  }

  lemma DestroyKeepsGoing(k: Kernel, s: int)
    requires SchedInv(k) && SemInv(k) && WokenAreGoing(k)
    ensures WokenAreGoing(DestroySem(k, s))
  {
    if !InvalidSem(k, s) {
      var x := k.sems[s];
      var r := DestroySem(k, s);
      DestroyUndisturbed(k, s);
      assert CellsOk(k, s) && RingOk(x);
      forall c | OnRing(x, c)
        ensures x.waiting[c] != NOT_A_PROCESS && Slot(k, x.waiting[c]) < MAX_PROCESSES && Wakeable(k.table[Slot(k, x.waiting[c])])
      {
        assert WaiterOk(k, s, x.waiting[c]);
      }
      WakeAllReadies(k, s);
      forall i | i in r.conts && i < MAX_PROCESSES && !QueuedSlot(r, i)
        ensures Going(r.table[i])
      {
        assert SlotKept(SetSem(k, s, EmptySem()), r, i);
        if QueuedSlot(k, i) {
          var c :| 0 <= c < MAX_PROCESSES && k.sems[k.conts[i].sem].waiting[c] == k.table[i].pid;
          assert k.conts[i].sem == s;
          assert k.table[i].pid != NOT_A_PROCESS;
          assert OnRing(x, c);
          assert CellReady(k, WakeAll(k, s), x, c);
          SlotIs(k, i);
        }
      }
    }
  }

  lemma DestroyUndisturbed(k: Kernel, s: int)
    requires SchedInv(k) && SemInv(k) && !InvalidSem(k, s)
    ensures Sized(SetSem(k, s, EmptySem())) && Undisturbed(SetSem(k, s, EmptySem()), DestroySem(k, s))
  {
    EmptyIsOk();
    var k0 := SetSem(k, s, EmptySem());
    forall c | 0 <= c < MAX_PROCESSES && k.sems[s].waiting[c] != NOT_A_PROCESS
      ensures !QueuedSlot(k0, Slot(k, k.sems[s].waiting[c]))
    {
      assert CellsOk(k, s) && WaiterOk(k, s, k.sems[s].waiting[c]);
      assert k.table[Slot(k, k.sems[s].waiting[c])].pid != NOT_A_PROCESS;
    }
    WakeAllUndisturbed(k, s, EmptySem());
  }

  lemma CreateSemKeepsGoing(k: Kernel, value: nat)
    requires Sized(k) && WokenAreGoing(k)
    ensures WokenAreGoing(CreateSem(k, value).0)
  {
    var r := CreateSem(k, value).0;
    forall i | i in r.conts && i < MAX_PROCESSES && !QueuedSlot(r, i)
      ensures Going(r.table[i])
    {
      assert !QueuedSlot(k, i);
    }
  }
}
