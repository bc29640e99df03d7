/** What single calls promise their caller: whom they change, how, and that they change nobody else. */
module KernelCalls {
  import opened KernelState
  import opened KernelRuns
  import opened SchedulerProofs
  import opened WorkConserving

  // Everyone but the process in slot i is as before.
  ghost predicate OnlySlot(k: Kernel, r: Kernel, i: nat)
    requires Sized(k) && Sized(r)
  {
    forall j :: 0 <= j < MAX_PROCESSES && j != i ==> r.table[j] == k.table[j]
  }

  // Queue q has one more entry, of slot i; the others are as before.
  predicate JoinsQueue(k: Kernel, r: Kernel, q: nat, i: nat)
    requires Sized(k) && Sized(r) && q < PRIORITY_LEVELS
  {
    r.ready == k.ready[q := k.ready[q] + [i]]
  }

  /** The priority of a known process becomes the one asked for. A ready process whose priority changes waits at
      the end of the queue of its new priority and is no longer picked from another; nothing else changes. */
  lemma PriorityIsAsAsked(k: Kernel, pid: nat, priority: nat)
    requires SchedInv(k)
    ensures var i := Slot(k, pid); var (r, code) := ChangePriority(k, pid, priority);
      if priority >= PRIORITY_LEVELS || i == MAX_PROCESSES then r == k && code == -1
      else
        && code == 0 && r.table[i] == k.table[i].(priority := priority) && OnlySlot(k, r, i)
        && r == k.(table := r.table, ready := r.ready)
        && (if k.table[i].state == Ready && k.table[i].priority != priority then JoinsQueue(k, r, priority, i) else r.ready == k.ready)
        && (forall q :: 0 <= q < PRIORITY_LEVELS && q != priority ==> !Runnable(r, q, i))
        && (k.table[i].state == Ready && i != 0 ==> i in r.ready[priority])
  {
    var i := Slot(k, pid);
    if priority < PRIORITY_LEVELS && i < MAX_PROCESSES && k.table[i].state == Ready && i != 0 {
      if k.table[i].priority == priority {
        assert HasEntry(k, i);
      } else {
        assert (k.ready[priority] + [i])[|k.ready[priority]|] == i;
      }
    }
  }

  // ---------------------------------------------------------------- blocking and unblocking

  /** Blocking stops a live process that is not blocked yet, which remembers whether it slept. */
  lemma BlockStops(k: Kernel, pid: nat)
    requires SchedInv(k)
    ensures var i := Slot(k, pid); var (r, code) := Block(k, pid);
      if i == MAX_PROCESSES || k.table[i].state == Terminated || k.table[i].state == Blocked then r == k && code == -1
      else
        && code == 0 && r == k.(table := r.table) && OnlySlot(k, r, i) && r.table[i].state == Blocked
        && r.table[i].previous == (if k.table[i].state == Sleeping then Sleeping else Ready)
        && forall q :: 0 <= q < PRIORITY_LEVELS ==> !Runnable(r, q, i)
  {
  }

  /** A sleeper whose tick is still to come. */
  predicate StillSleeps(k: Kernel, pid: nat)
    requires Sized(k)
  {
    !Expire(k, pid).1
  }

  /** Unblocking a blocked process makes it ready at the end of its queue, or lets it sleep on when it was blocked
      in its sleep and its tick is still to come. */
  lemma UnblockResumes(k: Kernel, pid: nat)
    requires SchedInv(k)
    ensures var i := Slot(k, pid); var (r, code) := Wake(k, pid);
      if i == MAX_PROCESSES || k.table[i].state != Blocked then r == k && code == -1
      else
        && code == 0 && OnlySlot(k, r, i)
        && (k.table[i].previous == Sleeping && StillSleeps(k, pid) ==> r.table[i].state == Sleeping && r.ready == k.ready)
        && (k.table[i].previous == Ready || (k.table[i].previous == Sleeping && !StillSleeps(k, pid)) ==>
            r.table[i].state == Ready && JoinsQueue(k, r, k.table[i].priority, i))
        && (k.table[i].previous == Blocked ==> r.table[i].state == Blocked && r.ready == k.ready)
  {
  }

  /** Toggling blocks exactly the live processes that are not blocked, and unblocks those that are. */
  lemma ToggleTogglesExactlyWhen(k: Kernel, pid: nat)
    requires SchedInv(k) && Slot(k, pid) < MAX_PROCESSES
    ensures var i := Slot(k, pid); var (r, code) := Toggle(k, pid);
      && (code == 0 <==> k.table[i].state != Terminated)
      && (k.table[i].state == Terminated ==> r == k)
      && (k.table[i].state != Terminated && k.table[i].state != Blocked ==> r == Block(k, pid).0 && r.table[i].state == Blocked)
      && (k.table[i].state == Blocked && k.table[i].previous != Blocked ==> r == Wake(k, pid).0 && r.table[i].state != Blocked)
  {
    BlockStops(k, pid);
    UnblockResumes(k, pid);
  }

  /** Toggling twice gives a ready process back its state, with one more entry in its queue; a running one becomes
      ready, and a sleeper sleeps on if its tick is still to come. */
  lemma ToggledTwice(k: Kernel, pid: nat)
    requires SchedInv(k) && Slot(k, pid) < MAX_PROCESSES && k.table[Slot(k, pid)].state in {Ready, Running, Sleeping}
    ensures var i := Slot(k, pid); var r := Toggle(Toggle(k, pid).0, pid).0;
      && OnlySlot(k, r, i)
      && (k.table[i].state != Sleeping ==> r.table[i].state == Ready && JoinsQueue(k, r, k.table[i].priority, i))
      && (k.table[i].state == Sleeping && StillSleeps(k, pid) ==> r.table[i].state == Sleeping && r.ready == k.ready && r.sleepers == k.sleepers)
  {
    var i := Slot(k, pid);
    var k1 := Block(k, pid).0;
    BlockStops(k, pid);
    BlockKeeps(k, pid);
    SamePids(k, k1, pid);
    UnblockResumes(k1, pid);
    ToggleUnblocks(k1, pid);
  }

  lemma ToggleUnblocks(k: Kernel, pid: nat)
    requires Sized(k) && Slot(k, pid) < MAX_PROCESSES && k.table[Slot(k, pid)].state == Blocked
    ensures Toggle(k, pid) == Wake(k, pid)
  {
  }

  lemma SamePids(k: Kernel, r: Kernel, pid: nat)
    requires Sized(k) && Sized(r) && forall j :: 0 <= j < MAX_PROCESSES ==> r.table[j].pid == k.table[j].pid
    ensures Slot(r, pid) == Slot(k, pid)
  {
    var a, b := Slot(k, pid), Slot(r, pid);
    assert a < MAX_PROCESSES ==> r.table[a].pid == pid;
    assert b < MAX_PROCESSES ==> k.table[b].pid == pid;
  }

  // ---------------------------------------------------------------- sleeping

  /** A sleep call that is accepted puts the caller to sleep with one new entry, for the tick so many seconds of
      eighteen ticks from now; it is refused for no seconds, for idle and when every entry is taken. */
  lemma SleepRecords(k: Kernel, seconds: nat)
    requires SchedInv(k) && k.table[k.current].state == Running
    ensures var (r, code) := Sleep(k, seconds); var pid := CurrentPid(k);
      && (code == -1 <==> seconds == 0 || pid == 0 || forall e :: 0 <= e < MAX_PROCESSES ==> k.sleepers[e].pid != 0)
      && (code == -1 ==> r == k)
      && (code != -1 ==> OnlySlot(k, r, k.current) && r.table[k.current] == k.table[k.current].(state := Sleeping, previous := Ready))
      && (code != -1 ==> exists e :: 0 <= e < MAX_PROCESSES && k.sleepers[e].pid == 0
                           && r.sleepers == k.sleepers[e := SleepEntry(pid, W64(k.ticks + W64(seconds * 18)))])
  {
    var e := FindSleeper(k.sleepers, 0, 0);
    if Sleep(k, seconds).1 != -1 {
      SlotIs(k, k.current);
      assert k.sleepers[e].pid == 0;
    }
  }

  // ---------------------------------------------------------------- switching

  /** A process that is switched out while it runs waits at the end of its queue. */
  lemma SwitchedOutIsLast(k: Kernel)
    requires SchedInv(k) && k.dead == [] && !k.firstSwitch && k.table[k.current].state == Running && k.current != 0
    ensures var r := WorkConserving.Queued(k);
      OnlySlot(k, r, k.current) && r.table[k.current].state == Ready && JoinsQueue(k, r, k.table[k.current].priority, k.current)
  {
  }

  /** A switch gives the processor to the process of the first runnable entry, in the order in which the queues
      are tried, and to idle when there is none. */
  lemma SwitchServesFirst(k: Kernel, start: nat, i: nat)
    requires SchedInv(k) && start < PRIORITY_LEVELS && Scheduler(k, start).system && i < MAX_PROCESSES
    ensures First(WorkConserving.Queued(k), start, i) ==> Scheduler(k, start).current == i && Scheduler(k, start).table[i].state == Running
    ensures NobodyReady(WorkConserving.Queued(k)) ==> Scheduler(k, start).current == 0
  {
    var k1 := FreeTerminated(k);
    var k2 := WorkConserving.Queued(k);
    FreeTerminatedKeeps(k);
    SetNextKeeps(k1);
    NextIsPicked(k2, start);
    PickIsFirst(k2, start);
    var n := Pick(k2, start, 3).1;
    if First(k2, start, i) {
      if n < MAX_PROCESSES {
        FirstIsUnique(k2, start, i, n);
      } else {
        FirstIsRunnable(k2, start, i);
      }
    }
    if NobodyReady(k2) && n < MAX_PROCESSES {
      FirstIsReady(k2, start, n);
    }
  }
}
