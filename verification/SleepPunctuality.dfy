/** The timer wakes every sleeper in time, unless the sleeper was blocked and then unblocked too early. */
module SleepPunctuality {
  import opened KernelState
  import opened KernelRuns
  import opened SchedulerProofs
  import opened SleepProofs
  import Loops

  /** A sleeping process will be made ready by the timer: it came from ready, and its entry is there. */
  ghost predicate Punctual(k: Kernel)
    requires Sized(k)
  {
    forall i :: 1 <= i < MAX_PROCESSES && k.table[i].state == Sleeping ==>
      k.table[i].previous == Ready && HasSleeper(k.sleepers, k.table[i].pid)
  }

  /** No entry of a sleeping process is due. */
  ghost predicate NoneOverdue(k: Kernel)
    requires Sized(k)
  {
    forall i, a :: 1 <= i < MAX_PROCESSES && k.table[i].state == Sleeping && 0 <= a < MAX_PROCESSES && k.sleepers[a].pid == k.table[i].pid ==>
      k.ticks < k.sleepers[a].time
  }

  /** The process in slot i is not asleep past its deadline: if it sleeps, its entry says until when. */
  ghost predicate InTime(k: Kernel, i: nat)
    requires Sized(k) && i < MAX_PROCESSES
  {
    k.table[i].state == Sleeping ==> exists a :: 0 <= a < MAX_PROCESSES && k.sleepers[a].pid == k.table[i].pid && k.ticks < k.sleepers[a].time
  }

  lemma PunctualInTime(k: Kernel, i: nat)
    requires Sized(k) && Punctual(k) && NoneOverdue(k) && 1 <= i < MAX_PROCESSES
    ensures InTime(k, i)
  {
    if k.table[i].state == Sleeping {
      var a :| 0 <= a < MAX_PROCESSES && k.sleepers[a].pid == k.table[i].pid;
      assert k.ticks < k.sleepers[a].time;
    }
  }

  lemma CalmPunctual(k: Kernel, r: Kernel)
    requires Sized(k) && Sized(r) && Calm(k, r)
    ensures Punctual(k) ==> Punctual(r)
    ensures NoneOverdue(k) ==> NoneOverdue(r)
  {
    forall i | 1 <= i < MAX_PROCESSES && r.table[i].state == Sleeping
      ensures k.table[i].state == Sleeping && r.table[i].previous == k.table[i].previous && r.table[i].pid == k.table[i].pid
    {
      assert SlotCalm(k, r, i);
    }
  }

  // ---------------------------------------------------------------- waking

  /** Unblocking the process now would be early: it was blocked in its sleep and its tick has not come. */
  predicate Early(k: Kernel, pid: nat)
    requires Sized(k)
  {
    var i := Slot(k, pid);
    1 <= i < MAX_PROCESSES && k.table[i].state == Blocked && k.table[i].previous == Sleeping && !Expire(k, pid).1
  }

  // Unblocking a process that was not blocked in its sleep puts nobody to sleep.
  lemma WakeCalm(k: Kernel, pid: nat)
    requires Sized(k)
    requires var i := Slot(k, pid); i < MAX_PROCESSES && k.table[i].state == Blocked ==> k.table[i].previous != Sleeping
    ensures Calm(k, Wake(k, pid).0)
  {
    SameTableCalm(k, k);
    var i := Slot(k, pid);
    if Wake(k, pid).1 == 0 {
      var p := k.table[i].(state := k.table[i].previous);
      assert Wake(k, pid).0 == Moved(k, i, p, p.state == Ready);
      MovedCalm(k, i, p, p.state == Ready);
    }
  }

  /** Unblocking keeps the timer able to wake every sleeper exactly when it is not early. */
  lemma WakePunctualExactlyWhen(k: Kernel, pid: nat)
    requires SchedInv(k) && SleepInv(k) && Punctual(k)
    ensures Punctual(Wake(k, pid).0) <==> !Early(k, pid)
  {
    var i := Slot(k, pid);
    var r := Wake(k, pid).0;
    if Early(k, pid) {
      assert r.table[i].state == Sleeping && r.table[i].previous == Sleeping;
    } else if Wake(k, pid).1 == 0 && k.table[i].previous == Sleeping {
      if pid == 0 {
        IdlePunctual(k);
      } else {
        ExpiredPunctual(k, pid);
      }
    } else {
      WakeCalm(k, pid);
      CalmPunctual(k, r);
    }
  }

  lemma ExpiredPunctual(k: Kernel, pid: nat)
    requires SchedInv(k) && SleepInv(k) && Punctual(k) && pid != 0
    requires Wake(k, pid).1 == 0 && k.table[Slot(k, pid)].previous == Sleeping && Expire(k, pid).1
    ensures Punctual(Wake(k, pid).0)
  {
    var i := Slot(k, pid);
    var r := Wake(k, pid).0;
    var e := FindSleeper(k.sleepers, pid, 0);
    if e < MAX_PROCESSES {
      Cleared(k.sleepers, e);
    }
    forall j | 1 <= j < MAX_PROCESSES && r.table[j].state == Sleeping
      ensures r.table[j].previous == Ready && HasSleeper(r.sleepers, r.table[j].pid)
    {
      assert j != i && r.table[j] == k.table[j];
      SlotIs(k, j);
      assert HasSleeper(k.sleepers, k.table[j].pid);
    }
  }

  lemma IdlePunctual(k: Kernel)
    requires SchedInv(k) && SleepInv(k) && Punctual(k)
    ensures Punctual(Wake(k, 0).0)
  {
    SlotIs(k, 0);
    var r := Wake(k, 0).0;
    var e := FindSleeper(k.sleepers, 0, 0);
    if e < MAX_PROCESSES {
      Cleared(k.sleepers, e);
    }
    forall j | 1 <= j < MAX_PROCESSES && r.table[j].state == Sleeping
      ensures r.table[j].previous == Ready && HasSleeper(r.sleepers, r.table[j].pid)
    {
      assert r.table[j] == k.table[j];
    }
  }

  // Whether unblocking one process is early does not depend on another having been unblocked before.
  lemma EarlyStays(k: Kernel, pid: nat, other: nat)
    requires SchedInv(k) && other != pid
    ensures Early(Wake(k, pid).0, other) <==> Early(k, other)
  {
    var r := Wake(k, pid).0;
    SameSlot(k, r, other);
    var i := Slot(k, other);
    if 1 <= i < MAX_PROCESSES && k.table[i].state == Blocked {
      assert r.table[i] == k.table[i];
      SameExpiry(k, r, pid, other);
    }
  }

  lemma SameSlot(k: Kernel, r: Kernel, pid: nat)
    requires Sized(k) && Sized(r) && forall j :: 0 <= j < MAX_PROCESSES ==> r.table[j].pid == k.table[j].pid
    ensures Slot(r, pid) == Slot(k, pid)
  {
  }

  // An entry cleared for one process is no entry of another.
  lemma SameExpiry(k: Kernel, r: Kernel, pid: nat, other: nat)
    requires Sized(k) && r == Wake(k, pid).0 && other != pid && other != 0
    ensures Expire(r, other).1 == Expire(k, other).1
  {
    var e := FindSleeper(k.sleepers, pid, 0);
    assert r.sleepers == k.sleepers || (e < MAX_PROCESSES && r.sleepers == k.sleepers[e := SleepEntry(0, 0)]);
    OtherEntry(k, r, e, other);
  }

  lemma OtherEntry(k: Kernel, r: Kernel, e: nat, other: nat)
    requires Sized(k) && Sized(r) && r.ticks == k.ticks && other != 0
    requires r.sleepers == k.sleepers || (e < MAX_PROCESSES && k.sleepers[e].pid != other && r.sleepers == k.sleepers[e := SleepEntry(0, 0)])
    ensures Expire(r, other).1 == Expire(k, other).1
  {
    var a, b := FindSleeper(k.sleepers, other, 0), FindSleeper(r.sleepers, other, 0);
    assert forall j :: 0 <= j < MAX_PROCESSES && j != e ==> r.sleepers[j] == k.sleepers[j];
  }

  // ---------------------------------------------------------------- posting and closing

  /** The process that a post to s would unblock, if any, would not be unblocked early. */
  predicate HeadNotEarly(k: Kernel, s: int)
    requires Sized(k)
  {
    InvalidSem(k, s) || (var pid := k.sems[s].waiting[k.sems[s].cur]; pid == NOT_A_PROCESS || !Early(k, pid))
  }

  lemma PostPunctualExactlyWhen(k: Kernel, s: int)
    requires SchedInv(k) && SleepInv(k) && Punctual(k)
    ensures Punctual(SemPost(k, s)) <==> HeadNotEarly(k, s)
  {
    if !InvalidSem(k, s) {
      SemPostIs(k, s);
      var pid := k.sems[s].waiting[k.sems[s].cur];
      var k1 := SetSem(k, s, Posted(k.sems[s]));
      SetSemKeeps(k, s, Posted(k.sems[s]));
      SameTableCalm(k, k1);
      CalmPunctual(k, k1);
      CalmRests(k, k1);
      SameEarly(k, k1, pid);
      WakePunctualExactlyWhen(k1, pid);
    }
  }

  lemma SameEarly(k: Kernel, r: Kernel, pid: nat)
    requires Sized(k) && Sized(r) && r.sleepers == k.sleepers && r.ticks == k.ticks
    requires forall j :: 0 <= j < MAX_PROCESSES ==>
      r.table[j].pid == k.table[j].pid && r.table[j].state == k.table[j].state && r.table[j].previous == k.table[j].previous
    ensures Early(r, pid) <==> Early(k, pid)
  {
    SameSlot(k, r, pid);
  }

  // The cells that the loop of destroy_sem goes through.
  predicate InLoop(x: Semaphore, c: nat)
    requires SemSized(x)
  {
    c < MAX_PROCESSES && if x.cur <= x.last then x.cur <= c < x.last else x.cur <= c || c < x.last
  }

  /** None of the processes that closing s unblocks is unblocked early. */
  predicate RingNotEarly(k: Kernel, s: int)
    requires Sized(k)
  {
    InvalidSem(k, s) || LoopNotEarly(k, s)
  }

  predicate LoopNotEarly(k: Kernel, s: int)
    requires Sized(k) && 0 <= s < MAX_SEMAPHORES
  {
    forall c: nat {:trigger InLoop(k.sems[s], c)} :: c < MAX_PROCESSES && InLoop(k.sems[s], c) ==> k.sems[s].waiting[c] == NOT_A_PROCESS || !Early(k, k.sems[s].waiting[c])
  }

  lemma WakeOnePunctual(k: Kernel, s: int)
    requires SchedInv(k) && SleepInv(k) && Punctual(k) && 0 <= s < MAX_SEMAPHORES
    ensures var pid := k.sems[s].waiting[k.sems[s].cur];
      Punctual(WakeOne(k, s)) <==> pid == NOT_A_PROCESS || !Early(k, pid)
    ensures SchedInv(WakeOne(k, s)) && SleepInv(WakeOne(k, s))
  {
    var pid := k.sems[s].waiting[k.sems[s].cur];
    var k1 := if pid != NOT_A_PROCESS then Wake(k, pid).0 else k;
    WakeOneKeeps(k, s);
    WakeOneRests(k, s);
    WakePunctualExactlyWhen(k, pid);
    SameTableCalm(k1, WakeOne(k, s));
    CalmPunctual(k1, WakeOne(k, s));
    SameTableCalm(WakeOne(k, s), k1);
    CalmPunctual(WakeOne(k, s), k1);
  }

  // What is left of the loop is early for the same processes, but for the one just unblocked.
  lemma LoopAfterOne(k: Kernel, s: int)
    requires SchedInv(k) && 0 <= s < MAX_SEMAPHORES && k.sems[s].cur != k.sems[s].last
    requires var pid := k.sems[s].waiting[k.sems[s].cur]; pid == NOT_A_PROCESS || !Early(k, pid)
    ensures LoopNotEarly(k, s) <==> LoopNotEarly(WakeOne(k, s), s)
  {
    var x := k.sems[s];
    var k1 := WakeOne(k, s);
    assert InLoop(x, x.cur);
    forall c: nat | c < MAX_PROCESSES && c != x.cur
      ensures InLoop(k1.sems[s], c) <==> InLoop(x, c)
    {
    }
    assert !InLoop(k1.sems[s], x.cur);
    forall c: nat | c < MAX_PROCESSES && x.waiting[c] != NOT_A_PROCESS
      ensures Early(k1, x.waiting[c]) <==> Early(k, x.waiting[c])
    {
      EarlyAfterOne(k, s, x.waiting[c]);
    }
  }

  lemma EarlyAfterOne(k: Kernel, s: int, other: nat)
    requires SchedInv(k) && 0 <= s < MAX_SEMAPHORES
    requires var pid := k.sems[s].waiting[k.sems[s].cur]; pid == NOT_A_PROCESS || !Early(k, pid)
    ensures Early(WakeOne(k, s), other) <==> Early(k, other)
  {
    var pid := k.sems[s].waiting[k.sems[s].cur];
    var k1 := if pid != NOT_A_PROCESS then Wake(k, pid).0 else k;
    SameEarly(k1, WakeOne(k, s), other);
    if pid != NOT_A_PROCESS {
      if other != pid {
        EarlyStays(k, pid, other);
      } else {
        NotEarlyTwice(k, pid);
      }
    }
  }

  lemma NotEarlyTwice(k: Kernel, pid: nat)
    requires SchedInv(k) && !Early(k, pid)
    ensures !Early(Wake(k, pid).0, pid)
  {
    var r := Wake(k, pid).0;
    SameSlot(k, r, pid);
  }

  // Somebody is stranded: asleep, and not having come from ready.
  ghost predicate Stranded(k: Kernel)
    requires Sized(k)
  {
    exists i :: 1 <= i < MAX_PROCESSES && k.table[i].state == Sleeping && k.table[i].previous != Ready
  }

  lemma WakeLeavesStranded(k: Kernel, pid: nat)
    requires Sized(k) && Stranded(k)
    ensures Stranded(Wake(k, pid).0)
  {
    var i :| 1 <= i < MAX_PROCESSES && k.table[i].state == Sleeping && k.table[i].previous != Ready;
    assert Wake(k, pid).0.table[i] == k.table[i];
  }

  lemma WakeOneLeavesStranded(k: Kernel, s: int)
    requires Sized(k) && Stranded(k) && 0 <= s < MAX_SEMAPHORES
    ensures Stranded(WakeOne(k, s))
  {
    WakeLeavesStranded(k, k.sems[s].waiting[k.sems[s].cur]);
  }

  lemma EarlyStrands(k: Kernel, pid: nat)
    requires Sized(k) && Early(k, pid)
    ensures Stranded(Wake(k, pid).0)
  {
    var i := Slot(k, pid);
    assert Wake(k, pid).0.table[i].state == Sleeping && Wake(k, pid).0.table[i].previous == Sleeping;
  }

  lemma WakeOneStrands(k: Kernel, s: int)
    requires Sized(k) && 0 <= s < MAX_SEMAPHORES
    requires var pid := k.sems[s].waiting[k.sems[s].cur]; pid != NOT_A_PROCESS && Early(k, pid)
    ensures Stranded(WakeOne(k, s))
  {
    var pid := k.sems[s].waiting[k.sems[s].cur];
    EarlyStrands(k, pid);
    assert WakeOne(k, s).table == Wake(k, pid).0.table;
  }

  lemma LoopEarlyNow(k: Kernel, s: int)
    requires Sized(k) && 0 <= s < MAX_SEMAPHORES && TurnsLeft(k.sems[s]) > 0
    requires var pid := k.sems[s].waiting[k.sems[s].cur]; pid != NOT_A_PROCESS && Early(k, pid)
    ensures !LoopNotEarly(k, s)
  {
    assert InLoop(k.sems[s], k.sems[s].cur);
  }

  lemma NoTurnsLeft(k: Kernel, s: int)
    requires Sized(k) && 0 <= s < MAX_SEMAPHORES && TurnsLeft(k.sems[s]) == 0
    ensures LoopNotEarly(k, s)
  {
  }

  lemma StrandedIsLate(k: Kernel)
    requires Sized(k) && Stranded(k)
    ensures !Punctual(k)
  {
  }

  ghost predicate InOrder(k: Kernel) { SchedInv(k) && SleepInv(k) && Punctual(k) }

  ghost predicate Late(k: Kernel) { Sized(k) && Stranded(k) }

  lemma TurnKeepsOrder(k: Kernel, s: int)
    requires InOrder(k) && 0 <= s < MAX_SEMAPHORES && TurnsLeft(k.sems[s]) > 0
    ensures var k1 := WakeOne(k, s); (InOrder(k1) && (LoopNotEarly(k, s) <==> LoopNotEarly(k1, s))) || (Late(k1) && !LoopNotEarly(k, s))
  {
    var pid := k.sems[s].waiting[k.sems[s].cur];
    WakeOnePunctual(k, s);
    if pid == NOT_A_PROCESS || !Early(k, pid) {
      LoopAfterOne(k, s);
    } else {
      LoopEarlyNow(k, s);
      WakeOneStrands(k, s);
    }
  }

  ghost predicate RestNotEarly(k: Kernel, s: int)
    requires 0 <= s < MAX_SEMAPHORES
  {
    Sized(k) ==> LoopNotEarly(k, s)
  }

  lemma LoopPunctual(k: Kernel, s: int)
    requires InOrder(k) && 0 <= s < MAX_SEMAPHORES
    ensures InOrder(WakeAll(k, s)) <==> LoopNotEarly(k, s)
  {
    var turn := (k: Kernel) => Turn(k, s);
    var left := (k: Kernel) => Left(k, s);
    var inv := (k: Kernel) => InOrder(k);
    var loop := (k: Kernel) => RestNotEarly(k, s);
    var bad := (k: Kernel) => Late(k);
    forall k1
      ensures Loops.TurnOk(k1, turn, left, inv, loop, bad)
    {
      TurnIsOk(k1, s);
    }
    WakeAllTurns(k, s, TurnsLeft(k.sems[s]), turn);
    Loops.KeepsExactlyWhen(k, TurnsLeft(k.sems[s]), turn, left, inv, loop, bad);
  }

  lemma TurnIsOk(k: Kernel, s: int)
    requires 0 <= s < MAX_SEMAPHORES
    ensures Left(k, s) == 0 ==> RestNotEarly(k, s)
    ensures Late(k) ==> Late(Turn(k, s)) && !InOrder(k)
    ensures Left(k, s) > 0 && InOrder(k) ==> Left(Turn(k, s), s) == Left(k, s) - 1
    ensures Left(k, s) > 0 && InOrder(k) ==> var k1 := Turn(k, s);
      (InOrder(k1) && (RestNotEarly(k, s) <==> RestNotEarly(k1, s))) || (Late(k1) && !RestNotEarly(k, s))
  {
    if Sized(k) {
      if TurnsLeft(k.sems[s]) == 0 {
        NoTurnsLeft(k, s);
      } else if InOrder(k) {
        TurnTaken(k, s);
        TurnKeepsOrder(k, s);
      }
      if Late(k) {
        StrandedIsLate(k);
        WakeOneLeavesStranded(k, s);
      }
    }
  }

  /** Closing a semaphore keeps the timer able to wake every sleeper exactly when it unblocks nobody early. */
  lemma ClosePunctualExactlyWhen(k: Kernel, s: int)
    requires SchedInv(k) && SleepInv(k) && Punctual(k)
    ensures Punctual(DestroySem(k, s)) <==> RingNotEarly(k, s)
  {
    if !InvalidSem(k, s) {
      var k1 := WakeAll(k, s);
      LoopPunctual(k, s);
      WakeAllKeeps(k, s);
      WakeAllRests(k, s);
      SameTableCalm(k1, DestroySem(k, s));
      CalmPunctual(k1, DestroySem(k, s));
      SameTableCalm(DestroySem(k, s), k1);
      CalmPunctual(DestroySem(k, s), k1);
    }
  }

  // ---------------------------------------------------------------- waiting, killing, creating

  lemma JoinEndPunctual(k: Kernel, i: nat)
    requires SchedInv(k) && SleepInv(k) && Punctual(k) && i < MAX_PROCESSES && RingNotEarly(k, k.table[i].semWait)
    ensures Punctual(JoinEnd(k, i))
  {
    var k1 := DestroySem(k, k.table[i].semWait);
    ClosePunctualExactlyWhen(k, k.table[i].semWait);
    SetSemWaitCalm(k1, i, -1);
    CalmPunctual(k1, JoinEnd(k, i));
  }

  /** A post that a kill of pid makes: to the semaphore that somebody waits on for the victim. */
  predicate KillNotEarly(k: Kernel, pid: nat)
    requires Sized(k)
  {
    var i := Slot(k, pid);
    pid == 0 || i == MAX_PROCESSES || k.table[i].semWait == -1 || HeadIs(k, k.table[i].semWait, pid) || HeadNotEarly(k, k.table[i].semWait)
  }

  predicate HeadIs(k: Kernel, s: int, pid: nat)
    requires Sized(k)
  {
    !InvalidSem(k, s) && k.sems[s].waiting[k.sems[s].cur] == pid
  }

  lemma KillPunctual(k: Kernel, pid: nat)
    requires SchedInv(k) && SleepInv(k) && Punctual(k) && KillNotEarly(k, pid)
    ensures Punctual(Kill(k, pid).0)
  {
    if Kill(k, pid).1 == 0 {
      var i := Slot(k, pid);
      var s := k.table[i].semWait;
      KillIs(k, pid);
      var k2 := Terminate(k, i);
      TerminateIs(k, i);
      TerminateKeeps(k, i);
      TerminateCalm(k, i);
      CalmPunctual(k, k2);
      CalmRests(k, k2);
      if s != -1 {
        VictimsPost(k, i, s);
        PostPunctualExactlyWhen(k2, s);
      }
      var k3 := if s != -1 then SemPost(k2, s) else k2;
      SameTableCalm(k3, Kill(k, pid).0);
      CalmPunctual(k3, Kill(k, pid).0);
    }
  }

  lemma VictimsPost(k: Kernel, i: nat, s: int)
    requires SchedInv(k) && 1 <= i < MAX_PROCESSES && i == Slot(k, k.table[i].pid)
    requires HeadIs(k, s, k.table[i].pid) || HeadNotEarly(k, s)
    ensures HeadNotEarly(Terminate(k, i), s)
  {
    var r := Terminate(k, i);
    TerminateIs(k, i);
    if !InvalidSem(k, s) {
      var pid := k.sems[s].waiting[k.sems[s].cur];
      forall j | 0 <= j < MAX_PROCESSES
        ensures r.table[j].pid == k.table[j].pid
      {
        assert j != i ==> SlotKin(k, r, j);
      }
      SameSlot(k, r, pid);
      var j := Slot(k, pid);
      assert j < MAX_PROCESSES && j != i ==> SlotKin(k, r, j);
    }
  }

  // A new process is not asleep.
  lemma CreatePunctual(k: Kernel, stack: bool, foreground: bool)
    requires SchedInv(k) && Punctual(k)
    ensures Punctual(Create(k, stack, foreground).0)
  {
    if Claims(k) {
      var r := Create(k, stack, foreground).0;
      var i := FindTerminated(k.table, 1);
      CreateIs(k, stack, foreground);
      forall j | 1 <= j < MAX_PROCESSES && r.table[j].state == Sleeping
        ensures r.table[j].previous == Ready && HasSleeper(r.sleepers, r.table[j].pid)
      {
        assert j != i && SlotKin(k, r, j);
      }
    }
  }

  // The stretch of sem_wait from a state onwards, when what follows it unblocks nobody early.
  lemma WaitStretchPunctual(k: Kernel, c: Cont, start: nat)
    requires SchedInv(k) && SleepInv(k) && Punctual(k) && start < PRIORITY_LEVELS && (c.InJoin? ==> c.child < MAX_PROCESSES)
    requires c.InJoin? && SemWait(k, c.sem).1 ==> RingNotEarly(k, k.table[c.child].semWait)
    ensures Punctual(SemWaitFrom(k, c, start))
  {
    var (k1, done) := SemWait(k, c.sem);
    SemWaitKeeps(k, c.sem);
    SemWaitCalm(k, c.sem);
    var k2 := if done then k1.(conts := k1.conts - {k1.current}) else k1.(conts := k1.conts[k1.current := c]);
    OtherFields(k1, k2);
    SameTableCalm(k1, k2);
    CalmChains(k, k1, k2);
    CalmRests(k, k2);
    CalmPunctual(k, k2);
    if !done {
      SchedulerCalm(k2, start);
      CalmPunctual(k2, Scheduler(k2, start));
    } else if c.InJoin? {
      UnitTakenRing(k, c.sem, k.table[c.child].semWait);
      SameRing(k1, k2, k.table[c.child].semWait);
      JoinEndPunctual(k2, c.child);
    }
  }

  // A sem_wait that returns changes nobody but the value.
  lemma UnitTakenRing(k: Kernel, s: int, t: int)
    requires Sized(k) && SemWait(k, s).1
    ensures var k1 := SemWait(k, s).0; k1.table == k.table && (RingNotEarly(k, t) ==> RingNotEarly(k1, t))
  {
    if !InvalidSem(k, s) {
      SemWaitIs(k, s);
      var k1 := SemWait(k, s).0;
      if !InvalidSem(k1, t) {
        forall pid
          ensures Early(k1, pid) <==> Early(k, pid)
        {
          SameEarly(k, k1, pid);
        }
        assert forall c: nat :: c < MAX_PROCESSES && InLoop(k1.sems[t], c) ==> InLoop(k.sems[t], c);
      }
    }
  }

  lemma SameRing(k: Kernel, r: Kernel, t: int)
    requires Sized(k) && Sized(r) && r == k.(conts := r.conts) && RingNotEarly(k, t)
    ensures RingNotEarly(r, t)
  {
    if !InvalidSem(r, t) {
      forall pid
        ensures Early(r, pid) <==> Early(k, pid)
      {
        SameEarly(k, r, pid);
      }
    }
  }

  // wait_process cannot come back before somebody posts: its semaphore is new.
  lemma JoinPunctual(k: Kernel, pid: nat, start: nat)
    requires SchedInv(k) && SleepInv(k) && Punctual(k) && start < PRIORITY_LEVELS
    ensures Punctual(WaitFor(k, pid, start))
  {
    var (k1, s, i) := JoinBegin(k, pid);
    JoinBeginKeeps(k, pid);
    JoinBeginCalm(k, pid);
    CalmRests(k, k1);
    CalmPunctual(k, k1);
    if s != -1 {
      NewSemaphore(k, pid);
      WaitStretchPunctual(k1, InJoin(s, i), start);
    }
  }

  lemma NewSemaphore(k: Kernel, pid: nat)
    requires Sized(k)
    ensures var (k1, s, i) := JoinBegin(k, pid); s != -1 ==> !SemWait(k1, s).1
  {
  }

  // ---------------------------------------------------------------- sleeping and the timer

  lemma SleepPunctual(k: Kernel, seconds: nat)
    requires SchedInv(k) && SleepInv(k) && Punctual(k) && k.current != 0
    requires k.table[k.current].state == Running || k.table[k.current].state == Terminated
    ensures Punctual(Sleep(k, seconds).0)
  {
    var (r, code) := Sleep(k, seconds);
    if code == 0 {
      var e := FindSleeper(k.sleepers, 0, 0);
      SlotIs(k, k.current);
      assert r.sleepers[e].pid == CurrentPid(k);
      forall j | 1 <= j < MAX_PROCESSES && r.table[j].state == Sleeping
        ensures r.table[j].previous == Ready && HasSleeper(r.sleepers, r.table[j].pid)
      {
        if j != k.current {
          var a :| 0 <= a < MAX_PROCESSES && k.sleepers[a].pid == k.table[j].pid;
          assert r.sleepers[a] == k.sleepers[a];
        }
      }
    }
  }

  /** A due entry of a sleeping process is cleared, and the process made ready. */
  lemma WakeSleeperPunctual(k: Kernel, e: nat)
    requires SchedInv(k) && SleepInv(k) && Punctual(k) && e < MAX_PROCESSES
    ensures var r := WakeSleeper(k, e); Punctual(r) && r.ticks == k.ticks
    ensures var r := WakeSleeper(k, e); forall i :: 1 <= i < MAX_PROCESSES && r.table[i].state == Sleeping ==>
      r.table[i] == k.table[i] && (r.sleepers[e].pid == r.table[i].pid ==> k.ticks < r.sleepers[e].time)
    ensures forall a :: 0 <= a < MAX_PROCESSES && a != e ==> WakeSleeper(k, e).sleepers[a] == k.sleepers[a]
  {
    var s := k.sleepers[e];
    var r := WakeSleeper(k, e);
    if s.pid != 0 && s.time <= k.ticks && IsSleeping(k, s.pid) {
      Cleared(k.sleepers, e);
      var i := Slot(k, s.pid);
      forall j | 1 <= j < MAX_PROCESSES && r.table[j].state == Sleeping
        ensures r.table[j] == k.table[j] && k.table[j].pid != s.pid && HasSleeper(r.sleepers, r.table[j].pid)
      {
        assert i >= 1;
        assert j != i && r.table[j] == k.table[j];
        SlotIs(k, j);
        assert HasSleeper(k.sleepers, k.table[j].pid);
      }
    } else {
      forall j | 1 <= j < MAX_PROCESSES && k.table[j].state == Sleeping && s.pid == k.table[j].pid
        ensures k.ticks < s.time
      {
        SlotIs(k, j);
      }
    }
  }

  // The first n entries are not due for anyone sleeping.
  ghost predicate NoneOverdueBelow(k: Kernel, n: nat)
    requires Sized(k) && n <= MAX_PROCESSES
  {
    forall i, a :: 1 <= i < MAX_PROCESSES && k.table[i].state == Sleeping && 0 <= a < n && k.sleepers[a].pid == k.table[i].pid ==>
      k.ticks < k.sleepers[a].time
  }

  lemma NextSleeperPunctual(k: Kernel, e: nat)
    requires SchedInv(k) && SleepInv(k) && Punctual(k) && e < MAX_PROCESSES && NoneOverdueBelow(k, e)
    ensures var r := WakeSleeper(k, e); Punctual(r) && NoneOverdueBelow(r, e + 1)
  {
    WakeSleeperPunctual(k, e);
  }

  lemma {:induction false} WakeSleepersPunctual(k: Kernel, n: nat, r: Kernel)
    requires SchedInv(k) && SleepInv(k) && Punctual(k) && n <= MAX_PROCESSES && r == WakeSleepers(k, n)
    ensures Punctual(r) && NoneOverdueBelow(r, n)
    decreases n
  {
    if n > 0 {
      var k1 := WakeSleepers(k, n - 1);
      WakeSleepersPunctual(k, n - 1, k1);
      WakeSleepersRests(k, n - 1, k1);
      WakeSleepersKeeps(k, n - 1);
      NextSleeperPunctual(k1, n - 1);
    }
  }

  /** After each tick nobody is still sleeping past the deadline. */
  lemma TickWakesAllDue(k: Kernel)
    requires SchedInv(k) && SleepInv(k) && Punctual(k)
    ensures Punctual(TimerTick(k)) && NoneOverdue(TimerTick(k))
  {
    var k1 := k.(ticks := k.ticks + 1);
    OtherFields(k, k1);
    TimerTickIs(k, |k.sleepers|);
    AllSleepersPunctual(k1, |k1.sleepers|);
  }

  lemma AllSleepersPunctual(k: Kernel, n: nat)
    requires SchedInv(k) && SleepInv(k) && Punctual(k) && n == |k.sleepers|
    ensures Punctual(WakeSleepers(k, n)) && NoneOverdue(WakeSleepers(k, n))
  {
    WakeSleepersPunctual(k, n, WakeSleepers(k, n));
  }

  /** Why: a due sleeper is made ready by the timer exactly when it came from ready; one that was unblocked
      early goes back to sleep as if it came from sleep, and loses its entry when it is due. */
  lemma TickReadiesExactlyWhen(k: Kernel, e: nat, i: nat)
    requires SchedInv(k) && SleepInv(k) && e < MAX_PROCESSES && 1 <= i < MAX_PROCESSES && k.table[i].state == Sleeping
    requires k.sleepers[e].pid == k.table[i].pid && k.sleepers[e].time <= k.ticks
    ensures WakeSleeper(k, e).table[i].state == Ready <==> k.table[i].previous == Ready
    ensures !HasSleeper(WakeSleeper(k, e).sleepers, k.table[i].pid)
  {
    SlotIs(k, i);
    Cleared(k.sleepers, e);
  }

  // ---------------------------------------------------------------- runs

  /** What a run must avoid for the timer to be in time: unblocking, by a call, by a post or by closing a
      semaphore, a process that was blocked in its sleep, before its tick. */
  predicate NotEarly(k: Kernel, e: Event)
    requires Sized(k)
  {
    match e
    case SysWake(pid) => pid < MAX_PROCESSES && pid != CurrentPid(k) ==> !Early(k, pid)
    case SysToggle(pid) => pid < MAX_PROCESSES && pid != CurrentPid(k) ==> !Early(k, pid)
    case SysKill(pid, _) => KillNotEarly(k, pid)
    case KeyKill(pid) => KillNotEarly(k, pid)
    case SysExit(_, _) => KillNotEarly(k, CurrentPid(k))
    case SysSemPost(s) => HeadNotEarly(k, s)
    case SysSemClose(s) => RingNotEarly(k, s)
    case Resume(_) => k.current in k.conts ==> ReturnNotEarly(k, k.conts[k.current])
    case _ => true
  }

  // wait_process closes its semaphore when it comes back.
  predicate ReturnNotEarly(k: Kernel, c: Cont)
    requires Sized(k)
  {
    c.InJoin? && c.child < MAX_PROCESSES && SemWait(k, c.sem).1 ==> RingNotEarly(k, k.table[c.child].semWait)
  }

  lemma WakeCallPunctual(k: Kernel, e: Event)
    requires RestInv(k) && Punctual(k) && Possible(k, e) && NotEarly(k, e) && (e.SysWake? || e.SysToggle?)
    ensures Punctual(Apply(k, e))
  {
    WakePunctualExactlyWhen(k, e.pid);
    BlockCalm(k, e.pid);
    CalmPunctual(k, Block(k, e.pid).0);
  }

  lemma TickCallPunctual(k: Kernel, start: nat)
    requires SchedInv(k) && SleepInv(k) && Punctual(k) && start < PRIORITY_LEVELS
    ensures var r := Scheduler(TimerTick(k), start); Punctual(r) && NoneOverdue(r)
  {
    TickWakesAllDue(k);
    TimerTickKeeps(k);
    SchedulerCalm(TimerTick(k), start);
    CalmPunctual(TimerTick(k), Scheduler(TimerTick(k), start));
  }

  lemma SleepCallPunctual(k: Kernel, e: Event)
    requires RestInv(k) && Punctual(k) && Possible(k, e) && e.SysSleep?
    ensures Punctual(Apply(k, e))
  {
    SleepPunctual(k, e.seconds);
    SleepKeeps(k, e.seconds);
    SchedulerCalm(Sleep(k, e.seconds).0, e.start);
    CalmPunctual(Sleep(k, e.seconds).0, Scheduler(Sleep(k, e.seconds).0, e.start));
  }

  lemma CreateCallPunctual(k: Kernel, e: Event)
    requires RestInv(k) && Punctual(k) && Possible(k, e) && Careful(k, e) && (e.MainCreate? || e.SysCreate?)
    ensures Punctual(Apply(k, e))
  {
    var foreground := e.MainCreate? || e.foreground;
    CreatePunctual(k, e.stack, foreground);
    if e.SysCreate? && foreground {
      var (k1, pid) := Create(k, e.stack, true);
      CreateKeeps(k, e.stack, true);
      CreateRests(k, e.stack, true);
      JoinPunctual(k1, AsPid(pid), e.start);
    }
  }

  lemma KillCallPunctual(k: Kernel, e: Event)
    requires RestInv(k) && Punctual(k) && Possible(k, e) && NotEarly(k, e) && (e.SysKill? || e.KeyKill?)
    ensures Punctual(Apply(k, e))
  {
    KillPunctual(k, e.pid);
    KillKeeps(k, e.pid);
    if e.SysKill? {
      SchedulerCalm(Kill(k, e.pid).0, e.start);
      CalmPunctual(Kill(k, e.pid).0, Apply(k, e));
    }
  }

  lemma ExitCallPunctual(k: Kernel, e: Event)
    requires RestInv(k) && Punctual(k) && Possible(k, e) && NotEarly(k, e) && e.SysExit?
    ensures Punctual(Apply(k, e))
  {
    var k1 := SetExit(k, e.status);
    SetExitOnly(k, e.status);
    KinOnlyKeeps(k, k1);
    KinCalm(k, k1);
    CalmRests(k, k1);
    CalmPunctual(k, k1);
    SameKillNotEarly(k, k1, CurrentPid(k));
    KillPunctual(k1, CurrentPid(k));
    KillKeeps(k1, CurrentPid(k));
    SchedulerCalm(Kill(k1, CurrentPid(k)).0, e.start);
    CalmPunctual(Kill(k1, CurrentPid(k)).0, Apply(k, e));
  }

  lemma SameKillNotEarly(k: Kernel, k1: Kernel, pid: nat)
    requires KinOnly(k, k1) && KillNotEarly(k, pid)
    ensures KillNotEarly(k1, pid)
  {
    forall j | 0 <= j < MAX_PROCESSES
      ensures k1.table[j] == k.table[j].(kin := k1.table[j].kin)
    {
      assert SlotKin(k, k1, j);
    }
    SameSlot(k, k1, pid);
    forall q
      ensures Early(k1, q) <==> Early(k, q)
    {
      SameEarly(k, k1, q);
    }
  }

  lemma OtherCallPunctual(k: Kernel, e: Event)
    requires RestInv(k) && Punctual(k) && Possible(k, e) && NotEarly(k, e)
    requires e.SysBlock? || e.SysPriority? || e.Yield? || e.SysSemOpen? || e.SysSemClose? || e.SysSemPost?
    ensures Punctual(Apply(k, e))
  {
    match e {
      case SysBlock(pid) => BlockCalm(k, pid); CalmPunctual(k, Block(k, pid).0);
      case SysPriority(pid, priority) => ChangePriorityCalm(k, pid, priority); CalmPunctual(k, Apply(k, e));
      case Yield(start) => SchedulerCalm(k, start); CalmPunctual(k, Apply(k, e));
      case SysSemOpen(value) => SameTableCalm(k, Apply(k, e)); CalmPunctual(k, Apply(k, e));
      case SysSemClose(s) => ClosePunctualExactlyWhen(k, s);
      case SysSemPost(s) => PostPunctualExactlyWhen(k, s);
    }
  }

  lemma WaitCallPunctual(k: Kernel, e: Event)
    requires RestInv(k) && Punctual(k) && Possible(k, e) && NotEarly(k, e) && (e.SysSemWait? || e.Resume? || e.SysJoin?)
    ensures Punctual(Apply(k, e))
  {
    match e {
      case SysSemWait(s, start) => WaitStretchPunctual(k, InWait(s), start);
      case Resume(start) => WaitStretchPunctual(k, k.conts[k.current], start);
      case SysJoin(pid, start) => JoinPunctual(k, pid, start);
    }
  }

  lemma StepPunctual(k: Kernel, e: Event)
    requires RestInv(k) && Punctual(k) && Possible(k, e) && Careful(k, e) && NotEarly(k, e)
    ensures Punctual(Apply(k, e))
  {
    if e.Tick? {
      TickCallPunctual(k, e.start);
    } else if e.SysWake? || e.SysToggle? {
      WakeCallPunctual(k, e);
    } else if e.SysSleep? {
      SleepCallPunctual(k, e);
    } else if e.MainCreate? || e.SysCreate? {
      CreateCallPunctual(k, e);
    } else if e.SysKill? || e.KeyKill? {
      KillCallPunctual(k, e);
    } else if e.SysExit? {
      ExitCallPunctual(k, e);
    } else if e.SysSemWait? || e.Resume? || e.SysJoin? {
      WaitCallPunctual(k, e);
    } else {
      OtherCallPunctual(k, e);
    }
  }

  /** A run in which nobody is unblocked early. */
  ghost predicate UnhurriedRun(k: Kernel, es: seq<Event>)
    requires Sized(k)
    decreases |es|
  {
    es == [] || (Possible(k, es[0]) && Careful(k, es[0]) && NotEarly(k, es[0]) && UnhurriedRun(Apply(k, es[0]), es[1..]))
  }

  lemma {:induction false} UnhurriedIsCareful(k: Kernel, es: seq<Event>)
    requires Sized(k) && UnhurriedRun(k, es)
    ensures CarefulRun(k, es)
    decreases |es|
  {
    if es != [] {
      UnhurriedIsCareful(Apply(k, es[0]), es[1..]);
    }
  }

  /** In every state of a run whoever sleeps has an entry, and will be made ready by it. */
  lemma {:induction false} RunPunctual(k: Kernel, es: seq<Event>)
    requires RestInv(k) && Punctual(k) && UnhurriedRun(k, es) && CarefulRun(k, es)
    ensures RestInv(Run(k, es)) && Punctual(Run(k, es))
    decreases |es|
  {
    if es != [] {
      StepRests(k, es[0]);
      StepPunctual(k, es[0]);
      RunPunctual(Apply(k, es[0]), es[1..]);
    }
  }

  /** So right after each tick of a run nobody is still sleeping past the deadline: everyone who sleeps has
      an entry, and its tick is still to come. */
  lemma NobodyOversleeps(k: Kernel, es: seq<Event>, start: nat, i: nat)
    requires RestInv(k) && Punctual(k) && UnhurriedRun(k, es) && CarefulRun(k, es)
    requires Possible(Run(k, es), Tick(start)) && 1 <= i < MAX_PROCESSES
    ensures InTime(Apply(Run(k, es), Tick(start)), i) && Punctual(Apply(Run(k, es), Tick(start)))
  {
    var r := Apply(Run(k, es), Tick(start));
    RunPunctual(k, es);
    TickCallPunctual(Run(k, es), start);
    PunctualInTime(r, i);
  }

  /** In particular in every unhurried run of the kernel from its start. */
  lemma KernelIsPunctual(es: seq<Event>, start: nat, i: nat)
    requires UnhurriedRun(Boot(), es) && 1 <= i < MAX_PROCESSES
    ensures CarefulRun(Boot(), es)
    ensures Possible(Run(Boot(), es), Tick(start)) ==> InTime(Apply(Run(Boot(), es), Tick(start)), i)
  {
    BootSleeps();
    UnhurriedIsCareful(Boot(), es);
    if Possible(Run(Boot(), es), Tick(start)) {
      NobodyOversleeps(Boot(), es, start, i);
    }
  }
}
