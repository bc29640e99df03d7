/** Waiting for a process: what ties whoever is switched out inside wait_process to the process it waits for, and the
    steps that leave the tie alone. */
module JoinState {
  import opened KernelState
  import opened KernelRuns
  import opened SchedulerProofs
  import opened SemaphoreRings
  import opened SemaphoreState
  import opened Households

  // The process in slot i records t as the semaphore on which somebody waits for its end.
  predicate Records(k: Kernel, i: nat, t: int)
    requires Sized(k) && i < MAX_PROCESSES
  {
    1 <= i && k.table[i].pid != 0 && t != -1 && k.table[i].semWait == t
  }

  /** Somebody waits, or may still come back from waiting, on t for the end of a process. */
  predicate IsJoinSem(k: Kernel, t: int)
    requires Sized(k)
  {
    exists i :: 0 <= i < MAX_PROCESSES && Records(k, i, t)
  }

  predicate Joins(k: Kernel, j: nat) { j in k.conts && k.conts[j].InJoin? }

  ghost predicate RecordsOk(k: Kernel)
    requires Sized(k)
  {
    && (forall i, t {:trigger Records(k, i, t)} :: 0 <= i < MAX_PROCESSES && Records(k, i, t) ==> 0 <= t < MAX_SEMAPHORES && k.sems[t].used)
    && (forall i, i2, t {:trigger Records(k, i, t), Records(k, i2, t)} ::
          0 <= i < MAX_PROCESSES && 0 <= i2 < MAX_PROCESSES && Records(k, i, t) && Records(k, i2, t) ==> i == i2)
  }

  /** Whoever waits for a process has its semaphore recorded there, and is queued on it without a unit exactly while
      the process lives; afterwards there is a unit. */
  ghost predicate JoinerOk(k: Kernel, j: nat)
    requires Sized(k) && Joins(k, j)
  {
    var s, i := k.conts[j].sem, k.conts[j].child;
    && 0 <= s < MAX_SEMAPHORES && i < MAX_PROCESSES && Records(k, i, s)
    && (if k.table[i].state != Terminated then QueuedSlot(k, j) && k.sems[s].value == 0 else !QueuedSlot(k, j) && k.sems[s].value > 0)
  }

  // Nobody else waits on such a semaphore.
  ghost predicate OthersOff(k: Kernel, j: nat)
    requires Sized(k)
  {
    j in k.conts && k.conts[j].InWait? && QueuedSlot(k, j) ==> !IsJoinSem(k, k.conts[j].sem)
  }

  ghost predicate JoinInv(k: Kernel) {
    && Sized(k) && DeadEnded(k) && RecordsOk(k)
    && (forall j {:trigger Joins(k, j)} :: Joins(k, j) ==> JoinerOk(k, j))
    && (forall j, j2 {:trigger Joins(k, j), Joins(k, j2)} :: Joins(k, j) && Joins(k, j2) && k.conts[j].child == k.conts[j2].child ==> j == j2)
    && (forall j: nat {:trigger OthersOff(k, j)} :: OthersOff(k, j))
  }

  // ---------------------------------------------------------------- steps elsewhere

  // One slot: the same process, alive or not as before, and the same record.
  predicate SlotHeld(k: Kernel, r: Kernel, i: nat)
    requires Sized(k) && Sized(r) && i < MAX_PROCESSES
  {
    var p, q := k.table[i], r.table[i];
    q.pid == p.pid && q.semWait == p.semWait && (q.state == Terminated <==> p.state == Terminated)
  }

  ghost predicate AllHeld(k: Kernel, r: Kernel) {
    Sized(k) && Sized(r) && forall i {:trigger SlotHeld(k, r, i)} :: 0 <= i < MAX_PROCESSES ==> SlotHeld(k, r, i)
  }

  // The same processes wait for the same others, and on the same semaphores, which are as before.
  ghost predicate SameJoiners(k: Kernel, r: Kernel)
    requires Sized(k) && Sized(r)
  {
    && (forall j :: Joins(r, j) ==> Joins(k, j) && r.conts[j] == k.conts[j])
    && (forall t :: 0 <= t < MAX_SEMAPHORES && IsJoinSem(k, t) ==> r.sems[t] == k.sems[t])
    && (forall j :: j in r.conts && r.conts[j].InWait? && IsJoinSem(k, r.conts[j].sem) ==> j in k.conts && k.conts[j] == r.conts[j])
  }

  lemma SameIsHeld(k: Kernel, r: Kernel)
    requires AllSame(k, r)
    ensures AllHeld(k, r)
  {
    forall i | 0 <= i < MAX_PROCESSES
      ensures SlotHeld(k, r, i)
    {
      assert SlotSame(k, r, i);
    }
  }

  lemma HeldRecords(k: Kernel, r: Kernel, i: nat, t: int)
    requires AllHeld(k, r) && i < MAX_PROCESSES
    ensures Records(r, i, t) <==> Records(k, i, t)
  {
    assert SlotHeld(k, r, i);
  }

  lemma HeldJoinSem(k: Kernel, r: Kernel, t: int)
    requires AllHeld(k, r)
    ensures IsJoinSem(r, t) <==> IsJoinSem(k, t)
  {
    if i :| 0 <= i < MAX_PROCESSES && Records(k, i, t) {
      HeldRecords(k, r, i, t);
    }
    if i :| 0 <= i < MAX_PROCESSES && Records(r, i, t) {
      HeldRecords(k, r, i, t);
    }
  }

  lemma HeldRecordsOk(k: Kernel, r: Kernel)
    requires AllHeld(k, r) && SameJoiners(k, r) && RecordsOk(k)
    ensures RecordsOk(r)
  {
    forall i, t | 0 <= i < MAX_PROCESSES && Records(r, i, t)
      ensures 0 <= t < MAX_SEMAPHORES && r.sems[t].used
    {
      HeldRecords(k, r, i, t);
      assert IsJoinSem(k, t);
    }
    forall i, i2, t | 0 <= i < MAX_PROCESSES && 0 <= i2 < MAX_PROCESSES && Records(r, i, t) && Records(r, i2, t)
      ensures i == i2
    {
      HeldRecords(k, r, i, t);
      HeldRecords(k, r, i2, t);
    }
  }

  lemma HeldJoiner(k: Kernel, r: Kernel, j: nat)
    requires AllHeld(k, r) && SameJoiners(k, r) && Joins(k, j) && JoinerOk(k, j) && Joins(r, j) && j < MAX_PROCESSES
    ensures JoinerOk(r, j)
  {
    var s, i := k.conts[j].sem, k.conts[j].child;
    assert IsJoinSem(k, s);
    HeldRecords(k, r, i, s);
    assert SlotHeld(k, r, i) && SlotHeld(k, r, j);
  }

  /** Steps that hold every slot and leave the semaphores of those who wait alone keep the ties. */
  lemma ElsewhereKeeps(k: Kernel, r: Kernel)
    requires JoinInv(k) && AllHeld(k, r) && SameJoiners(k, r) && DeadEnded(r) && ContsOk(k)
    ensures JoinInv(r)
  {
    HeldRecordsOk(k, r);
    forall j | Joins(r, j)
      ensures JoinerOk(r, j)
    {
      assert Joins(k, j);
      HeldJoiner(k, r, j);
    }
    forall j, j2 | Joins(r, j) && Joins(r, j2) && r.conts[j].child == r.conts[j2].child
      ensures j == j2
    {
      assert Joins(k, j) && Joins(k, j2);
    }
    forall j: nat
      ensures OthersOff(r, j)
    {
      OthersStayOff(k, r, j);
    }
  }

  lemma OthersStayOff(k: Kernel, r: Kernel, j: nat)
    requires JoinInv(k) && AllHeld(k, r) && SameJoiners(k, r)
    ensures OthersOff(r, j)
  {
    assert OthersOff(k, j);
    if j in r.conts && r.conts[j].InWait? && QueuedSlot(r, j) {
      HeldJoinSem(k, r, r.conts[j].sem);
      assert SlotHeld(k, r, j);
    }
  }

  // Nothing that matters here has changed.
  lemma SameJoinersSelf(k: Kernel, r: Kernel)
    requires Sized(k) && Sized(r) && r.conts == k.conts && forall t :: 0 <= t < MAX_SEMAPHORES && IsJoinSem(k, t) ==> r.sems[t] == k.sems[t]
    ensures SameJoiners(k, r)
  {
  }

  lemma QuietKeeps(k: Kernel, r: Kernel)
    requires JoinInv(k) && ContsOk(k) && AllSame(k, r) && r.conts == k.conts && r.sems == k.sems
    ensures JoinInv(r)
  {
    SameIsHeld(k, r);
    SameJoinersSelf(k, r);
    SameLeavesDead(k, r);
    ElsewhereKeeps(k, r);
  }

  /** A semaphore on which somebody waits for a process has nobody else in its ring. */
  lemma RingOfJoiner(k: Kernel, i: nat, s: nat, pid: nat)
    requires JoinInv(k) && SemInv(k) && i < MAX_PROCESSES && s < MAX_SEMAPHORES && Records(k, i, s) && InRing(k.sems[s], pid) && pid != NOT_A_PROCESS
    ensures var j := Slot(k, pid); Joins(k, j) && k.conts[j] == InJoin(s, i) && QueuedSlot(k, j) && k.table[j].pid == pid
  {
    var c :| 0 <= c < MAX_PROCESSES && k.sems[s].waiting[c] == pid;
    assert CellsOk(k, s);
    assert WaiterOk(k, s, k.sems[s].waiting[c]);
    var j := Slot(k, pid);
    assert QueuedSlot(k, j);
    assert IsJoinSem(k, s);
    assert OthersOff(k, j);
    assert Joins(k, j) && JoinerOk(k, j);
    assert Records(k, k.conts[j].child, s);
  }
}
