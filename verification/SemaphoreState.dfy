/** What the semaphores, their waiter rings and the processes switched out inside sem_wait keep in step,
    and what leaves it alone. */
module SemaphoreState {
  import opened KernelState
  import opened KernelRuns
  import opened SchedulerProofs
  import opened SemaphoreRings

  /** The process in slot i is queued on the semaphore its sem_wait was called with. */
  ghost predicate QueuedSlot(k: Kernel, i: nat)
    requires Sized(k)
  {
    && 1 <= i < MAX_PROCESSES && i in k.conts && 0 <= k.conts[i].sem < MAX_SEMAPHORES
    && InRing(k.sems[k.conts[i].sem], k.table[i].pid)
  }

  // A queued pid is that of a process blocked inside sem_wait on that very semaphore.
  ghost predicate WaiterOk(k: Kernel, s: nat, pid: nat)
    requires Sized(k)
  {
    var i := Slot(k, pid);
    && pid != 0 && 1 <= i < MAX_PROCESSES && i in k.conts && k.conts[i].sem == s
    && k.table[i].state == Blocked && k.table[i].previous == Ready
  }

  ghost predicate RingsOk(k: Kernel)
    requires Sized(k)
  {
    forall s :: 0 <= s < MAX_SEMAPHORES ==> RingOk(k.sems[s]) && (!k.sems[s].used ==> Waiters(k.sems[s]) == 0)
  }

  ghost predicate Distinct(x: Semaphore) {
    forall c, d :: 0 <= c < d < |x.waiting| && x.waiting[c] != NOT_A_PROCESS ==> x.waiting[c] != x.waiting[d]
  }

  ghost predicate CellsOk(k: Kernel, s: nat)
    requires Sized(k) && s < MAX_SEMAPHORES
  {
    && Distinct(k.sems[s])
    && forall c :: 0 <= c < MAX_PROCESSES && k.sems[s].waiting[c] != NOT_A_PROCESS ==> WaiterOk(k, s, k.sems[s].waiting[c])
  }

  // A process switched out inside sem_wait is not idle, not terminated, and waits for an existing semaphore.
  ghost predicate ContsOk(k: Kernel)
    requires Sized(k)
  {
    forall i :: i in k.conts ==>
      && 1 <= i < MAX_PROCESSES && k.table[i].state != Terminated && 0 <= k.conts[i].sem < MAX_SEMAPHORES
      && (k.conts[i].InJoin? ==> k.conts[i].child < MAX_PROCESSES)
  }

  /** Those inside sem_wait on s that are off its queue: woken, and not yet back to retry. */
  ghost function Woken(k: Kernel, s: nat): set<nat>
    requires Sized(k) && s < MAX_SEMAPHORES
  {
    set i | i in k.conts && i < MAX_PROCESSES && k.conts[i].sem == s && !InRing(k.sems[s], k.table[i].pid)
  }

  /** While somebody is queued, every unit of the value has a woken process coming for it. */
  ghost predicate Bound(k: Kernel, s: nat)
    requires Sized(k) && s < MAX_SEMAPHORES
  {
    Waiters(k.sems[s]) > 0 ==> k.sems[s].value <= |Woken(k, s)|
  }

  // Slots that await cleanup do not run and are not inside sem_wait, even when they were claimed again; no
  // process has the pid that marks an empty cell.
  ghost predicate DeadOk(k: Kernel)
    requires Sized(k)
  {
    && (forall x :: x in k.dead ==> x < MAX_PROCESSES && x !in k.conts && k.table[x].state != Running)
    && (forall i :: 0 <= i < MAX_PROCESSES ==> k.table[i].pid != NOT_A_PROCESS)
  }

  ghost predicate SemInv(k: Kernel) {
    && Sized(k) && RingsOk(k) && ContsOk(k) && DeadOk(k)
    && forall s :: 0 <= s < MAX_SEMAPHORES ==> CellsOk(k, s) && Bound(k, s)
  }

  // ---------------------------------------------------------------- steps that leave the semaphores alone

  predicate Going(p: Pcb) { p.state == Ready || p.state == Running }

  // One slot: who is in it, and whether sem_wait can still count on it.
  ghost predicate SlotKept(k: Kernel, r: Kernel, i: nat)
    requires Sized(k) && Sized(r) && i < MAX_PROCESSES
  {
    && r.table[i].pid == k.table[i].pid
    && (k.table[i].state == Terminated ==> r.table[i].state == Terminated)
    && (i in k.conts && k.table[i].state != Terminated ==> r.table[i].state != Terminated)
    && (i in k.conts && Going(k.table[i]) ==> Going(r.table[i]))
    && (QueuedSlot(k, i) && k.table[i].state == Blocked ==> r.table[i].state == Blocked && r.table[i].previous == k.table[i].previous)
  }

  ghost predicate Undisturbed(k: Kernel, r: Kernel)
    requires Sized(k) && Sized(r)
  {
    && r.sems == k.sems && r.conts == k.conts
    && (forall x :: x in r.dead ==> x in k.dead || (x < MAX_PROCESSES && x !in k.conts))
    && (forall x :: x in r.dead && x < MAX_PROCESSES && r.table[x].state == Running ==> x in k.dead && k.table[x].state == Running)
    && forall i {:trigger SlotKept(k, r, i)} :: 0 <= i < MAX_PROCESSES ==> SlotKept(k, r, i)
  }

  lemma UndisturbedChains(a: Kernel, b: Kernel, c: Kernel)
    requires Sized(a) && Sized(b) && Sized(c) && Undisturbed(a, b) && Undisturbed(b, c)
    ensures Undisturbed(a, c)
  {
    forall i | 0 <= i < MAX_PROCESSES
      ensures SlotKept(a, c, i)
    {
      assert SlotKept(a, b, i) && SlotKept(b, c, i);
    }
  }

  // Lookups by pid find the same slot in tables with the same pids.
  lemma {:induction false} SamePidsSameSlot(t: seq<Pcb>, u: seq<Pcb>, pid: nat, i: nat)
    requires |t| == |u| && i <= |t| && forall j :: 0 <= j < |t| ==> t[j].pid == u[j].pid
    ensures FindFrom(t, pid, i) == FindFrom(u, pid, i)
    decreases |t| - i
  {
    if i < |t| {
      SamePidsSameSlot(t, u, pid, i + 1);
    }
  }

  lemma SameSlots(k: Kernel, r: Kernel)
    requires Sized(k) && Sized(r) && forall i {:trigger SlotKept(k, r, i)} :: 0 <= i < MAX_PROCESSES ==> SlotKept(k, r, i)
    ensures forall pid :: Slot(k, pid) == Slot(r, pid)
  {
    forall j | 0 <= j < MAX_PROCESSES
      ensures k.table[j].pid == r.table[j].pid
    {
      assert SlotKept(k, r, j);
    }
    forall pid
      ensures Slot(k, pid) == Slot(r, pid)
    {
      SamePidsSameSlot(k.table, r.table, pid, 0);
    }
  }

  lemma CellsUndisturbed(k: Kernel, r: Kernel, s: nat)
    requires Sized(k) && Sized(r) && Undisturbed(k, r) && s < MAX_SEMAPHORES && CellsOk(k, s)
    ensures CellsOk(r, s)
  {
    SameSlots(k, r);
    forall c | 0 <= c < MAX_PROCESSES && r.sems[s].waiting[c] != NOT_A_PROCESS
      ensures WaiterOk(r, s, r.sems[s].waiting[c])
    {
      var pid := k.sems[s].waiting[c];
      assert WaiterOk(k, s, pid);
      var i := Slot(k, pid);
      assert QueuedSlot(k, i);
      assert SlotKept(k, r, i);
    }
  }

  lemma BoundUndisturbed(k: Kernel, r: Kernel, s: nat)
    requires Sized(k) && Sized(r) && Undisturbed(k, r) && s < MAX_SEMAPHORES && Bound(k, s)
    ensures Bound(r, s) && Woken(r, s) == Woken(k, s)
  {
    forall i | 0 <= i < MAX_PROCESSES
      ensures i in Woken(r, s) <==> i in Woken(k, s)
    {
      assert SlotKept(k, r, i);
    }
    assert Woken(r, s) == Woken(k, s);
  }

  lemma UndisturbedKeeps(k: Kernel, r: Kernel)
    requires SemInv(k) && Sized(r) && Undisturbed(k, r)
    ensures SemInv(r)
  {
    forall i | i in r.conts
      ensures 1 <= i < MAX_PROCESSES && r.table[i].state != Terminated
    {
      assert SlotKept(k, r, i);
    }
    forall i | 0 <= i < MAX_PROCESSES
      ensures r.table[i].pid != NOT_A_PROCESS
    {
      assert SlotKept(k, r, i);
    }
    forall s | 0 <= s < MAX_SEMAPHORES
      ensures RingOk(r.sems[s]) && (!r.sems[s].used ==> Waiters(r.sems[s]) == 0)
    {
      assert RingOk(k.sems[s]);
    }
    forall s | 0 <= s < MAX_SEMAPHORES
      ensures CellsOk(r, s) && Bound(r, s)
    {
      CellsUndisturbed(k, r, s);
      BoundUndisturbed(k, r, s);
    }
  }

  /** Whoever is inside sem_wait and off the queue is ready or running. */
  ghost predicate WokenAreGoing(k: Kernel)
    requires Sized(k)
  {
    forall i :: i in k.conts && i < MAX_PROCESSES && !QueuedSlot(k, i) ==> Going(k.table[i])
  }

  lemma UndisturbedKeepsGoing(k: Kernel, r: Kernel)
    requires Sized(k) && WokenAreGoing(k) && Sized(r) && Undisturbed(k, r)
    ensures WokenAreGoing(r)
  {
    forall i | i in r.conts && i < MAX_PROCESSES && !QueuedSlot(r, i)
      ensures Going(r.table[i])
    {
      assert SlotKept(k, r, i);
    }
  }

  // ---------------------------------------------------------------- one slot or the queues change

  lemma MovedUndisturbed(k: Kernel, i: nat, p: Pcb, enqueue: bool)
    requires Sized(k) && i < MAX_PROCESSES && p.priority < PRIORITY_LEVELS && p.kin == k.table[i].kin && p.pid == k.table[i].pid
    requires k.table[i].state == Terminated ==> p.state == Terminated
    requires i in k.conts ==> (k.table[i].state != Terminated ==> p.state != Terminated) && (Going(k.table[i]) ==> Going(p))
    requires QueuedSlot(k, i) && k.table[i].state == Blocked ==> p.state == Blocked && p.previous == k.table[i].previous
    requires p.state == Running ==> k.table[i].state == Running || i !in k.dead
    ensures Sized(Moved(k, i, p, enqueue)) && Undisturbed(k, Moved(k, i, p, enqueue))
  {
    var r := Moved(k, i, p, enqueue);
    forall j | 0 <= j < MAX_PROCESSES
      ensures SlotKept(k, r, j)
    {
      assert j != i ==> r.table[j] == k.table[j];
    }
    forall x | x in r.dead && x < MAX_PROCESSES && r.table[x].state == Running
      ensures x in k.dead && k.table[x].state == Running
    {
      assert x != i ==> r.table[x] == k.table[x];
    }
  }

  lemma KinUndisturbed(k: Kernel, r: Kernel)
    requires KinOnly(k, r)
    ensures Undisturbed(k, r)
  {
    forall j | 0 <= j < MAX_PROCESSES
      ensures SlotKept(k, r, j)
    {
      assert SlotKin(k, r, j);
    }
    forall x | x in r.dead && x < MAX_PROCESSES && r.table[x].state == Running
      ensures x in k.dead && k.table[x].state == Running
    {
      assert SlotKin(k, r, x);
    }
  }

  lemma SameTableUndisturbed(k: Kernel, r: Kernel)
    requires Sized(k) && Sized(r) && r.table == k.table && r.sems == k.sems && r.conts == k.conts && r.dead == k.dead
    ensures Undisturbed(k, r)
  {
    assert forall i :: 0 <= i < MAX_PROCESSES ==> SlotKept(k, r, i);
  }
}
