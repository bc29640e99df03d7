/** Nobody who sleeps is made ready before the recorded tick, whatever is asked of the kernel meanwhile. */
module SleepProofs {
  import opened KernelState
  import opened KernelRuns
  import opened SchedulerProofs

  /** Sleeping, or blocked while sleeping. */
  predicate Asleep(p: Pcb) { p.state == Sleeping || (p.state == Blocked && p.previous == Sleeping) }

  predicate Resting(p: Pcb) { Asleep(p) || p.state == Terminated }

  ghost predicate HasSleeper(q: seq<SleepEntry>, pid: nat) {
    exists e :: 0 <= e < |q| && q[e].pid == pid
  }

  ghost predicate DistinctSleepers(q: seq<SleepEntry>) {
    forall a, b :: 0 <= a < b < |q| && q[a].pid != 0 ==> q[a].pid != q[b].pid
  }

  /** A process has at most one sleep entry, and one that has it is asleep or dead. */
  ghost predicate SleepInv(k: Kernel) {
    && Sized(k) && DistinctSleepers(k.sleepers)
    && (forall e :: 0 <= e < MAX_PROCESSES ==> k.sleepers[e].pid < k.nextPid)
    && (forall i :: 1 <= i < MAX_PROCESSES && k.table[i].pid != 0 && HasSleeper(k.sleepers, k.table[i].pid) ==> Resting(k.table[i]))
  }

  /** A sleep entry goes only when its tick has come. */
  ghost predicate EntriesKept(k: Kernel, r: Kernel) {
    k.ticks <= r.ticks && forall s :: s in k.sleepers && s.pid != 0 ==> s in r.sleepers || s.time <= r.ticks
  }

  /** No process gets a sleep entry. */
  ghost predicate NoneRecorded(k: Kernel, r: Kernel) {
    forall pid :: pid != 0 && HasSleeper(r.sleepers, pid) ==> HasSleeper(k.sleepers, pid)
  }

  ghost predicate Kept(k: Kernel, r: Kernel) { SleepInv(r) && EntriesKept(k, r) }

  ghost predicate Rests(k: Kernel, r: Kernel) { Kept(k, r) && NoneRecorded(k, r) }

  /** The process that has the processor has no entry left from before. */
  ghost predicate CurrentAwake(k: Kernel)
    requires Sized(k)
  {
    k.system && k.current != 0 ==> CurrentPid(k) != 0 && !HasSleeper(k.sleepers, CurrentPid(k))
  }

  ghost predicate RestInv(k: Kernel) { SchedInv(k) && SleepInv(k) && CurrentAwake(k) }

  lemma RestsChains(a: Kernel, b: Kernel, c: Kernel)
    requires Rests(a, b) && Rests(b, c)
    ensures Rests(a, c)
  {
  }

  lemma RestsSelf(k: Kernel)
    requires SleepInv(k)
    ensures Rests(k, k)
  {
  }

  // ---------------------------------------------------------------- entries that leave the sleepers alone

  ghost predicate SlotCalm(k: Kernel, r: Kernel, i: nat)
    requires Sized(k) && Sized(r) && i < MAX_PROCESSES
  {
    && r.table[i].pid == k.table[i].pid
    && (i >= 1 && Resting(k.table[i]) ==> Resting(r.table[i]))
    && (r.table[i].state == Sleeping ==> k.table[i].state == Sleeping && r.table[i].previous == k.table[i].previous)
  }

  ghost predicate Calm(k: Kernel, r: Kernel)
    requires Sized(k) && Sized(r)
  {
    && r.sleepers == k.sleepers && r.ticks == k.ticks && r.nextPid == k.nextPid
    && forall i {:trigger SlotCalm(k, r, i)} :: 0 <= i < MAX_PROCESSES ==> SlotCalm(k, r, i)
  }

  lemma CalmChains(a: Kernel, b: Kernel, c: Kernel)
    requires Sized(a) && Sized(b) && Sized(c) && Calm(a, b) && Calm(b, c)
    ensures Calm(a, c)
  {
    forall i | 0 <= i < MAX_PROCESSES
      ensures SlotCalm(a, c, i)
    {
      assert SlotCalm(a, b, i) && SlotCalm(b, c, i);
    }
  }

  lemma CalmRests(k: Kernel, r: Kernel)
    requires SleepInv(k) && Sized(r) && Calm(k, r)
    ensures Rests(k, r)
  {
    forall i | 1 <= i < MAX_PROCESSES && r.table[i].pid != 0 && HasSleeper(r.sleepers, r.table[i].pid)
      ensures Resting(r.table[i])
    {
      assert SlotCalm(k, r, i);
    }
  }

  lemma MovedCalm(k: Kernel, i: nat, p: Pcb, enqueue: bool)
    requires Sized(k) && i < MAX_PROCESSES && p.priority < PRIORITY_LEVELS && p.kin == k.table[i].kin && p.pid == k.table[i].pid
    requires i >= 1 && Resting(k.table[i]) ==> Resting(p)
    requires p.state == Sleeping ==> k.table[i].state == Sleeping && p.previous == k.table[i].previous
    ensures Sized(Moved(k, i, p, enqueue)) && Calm(k, Moved(k, i, p, enqueue))
  {
    var r := Moved(k, i, p, enqueue);
    forall j | 0 <= j < MAX_PROCESSES
      ensures SlotCalm(k, r, j)
    {
      assert j != i ==> r.table[j] == k.table[j];
    }
  }

  lemma SameTableCalm(k: Kernel, r: Kernel)
    requires Sized(k) && Sized(r) && r.table == k.table && r.sleepers == k.sleepers && r.ticks == k.ticks && r.nextPid == k.nextPid
    ensures Calm(k, r)
  {
    forall i | 0 <= i < MAX_PROCESSES
      ensures SlotCalm(k, r, i)
    {
    }
  }

  lemma KinCalm(k: Kernel, r: Kernel)
    requires KinOnly(k, r)
    ensures Calm(k, r)
  {
    forall i | 0 <= i < MAX_PROCESSES
      ensures SlotCalm(k, r, i)
    {
      assert SlotKin(k, r, i);
    }
  }

  lemma BlockCalm(k: Kernel, pid: nat)
    requires Sized(k)
    ensures Calm(k, Block(k, pid).0)
  {
    var i := Slot(k, pid);
    SameTableCalm(k, k);
    if Block(k, pid).1 == 0 {
      MovedCalm(k, i, BlockSlot(k, i).table[i], false);
    }
  }

  lemma ChangePriorityCalm(k: Kernel, pid: nat, priority: nat)
    requires Sized(k)
    ensures Calm(k, ChangePriority(k, pid, priority).0)
  {
    var i := Slot(k, pid);
    SameTableCalm(k, k);
    if priority < PRIORITY_LEVELS && i < MAX_PROCESSES && k.table[i].priority != priority {
      var p := k.table[i].(priority := priority);
      MovedCalm(k, i, p, p.state == Ready);
    }
  }

  lemma SetNextCalm(k: Kernel)
    requires Sized(k)
    ensures Calm(k, SetNext(k))
  {
    if !k.firstSwitch && k.table[k.current].state == Running {
      var p := k.table[k.current].(state := Ready);
      assert SetNext(k) == Moved(k, k.current, p, p.pid != 0);
      MovedCalm(k, k.current, p, p.pid != 0);
    } else {
      SameTableCalm(k, SetNext(k));
    }
  }

  lemma GetNextCalm(k: Kernel, start: nat)
    requires SchedInv(k) && start < PRIORITY_LEVELS
    requires !k.firstSwitch && forall i :: 0 <= i < MAX_PROCESSES ==> k.table[i].state != Running
    ensures Calm(k, GetNext(k, start))
  {
    var r := GetNext(k, start);
    GetNextKeeps(k, start);
    var p := r.table[r.current];
    MovedCalm(k, r.current, p, false);
    SameTableCalm(Moved(k, r.current, p, false), r);
    CalmChains(k, Moved(k, r.current, p, false), r);
  }

  lemma {:induction false} FreeTerminatedCalm(k: Kernel)
    requires Sized(k)
    ensures Calm(k, FreeTerminated(k))
    decreases |k.dead|
  {
    if k.dead == [] {
      SameTableCalm(k, k);
    } else {
      var i := k.dead[0];
      var p := k.table[i].(state := Terminated, stack := false);
      MovedCalm(k, i, p, false);
      SameTableCalm(Moved(k, i, p, false), Drain(k));
      CalmChains(k, Moved(k, i, p, false), Drain(k));
      FreeTerminatedCalm(Drain(k));
      CalmChains(k, Drain(k), FreeTerminated(k));
    }
  }

  lemma SchedulerCalm(k: Kernel, start: nat)
    requires SchedInv(k) && start < PRIORITY_LEVELS
    ensures Calm(k, Scheduler(k, start))
  {
    var k1 := FreeTerminated(k);
    FreeTerminatedCalm(k);
    FreeTerminatedKeeps(k);
    if k1.system && k1.count > 1 {
      SetNextKeeps(k1);
      SetNextCalm(k1);
      GetNextCalm(SetNext(k1), start);
      CalmChains(k, k1, SetNext(k1));
      CalmChains(k, SetNext(k1), Scheduler(k, start));
    } else {
      SameTableCalm(k1, k1.(system := false));
      CalmChains(k, k1, Scheduler(k, start));
    }
  }

  lemma TerminateCalm(k: Kernel, i: nat)
    requires SchedInv(k) && 1 <= i < MAX_PROCESSES
    ensures Calm(k, Terminate(k, i))
  {
    var p := k.table[i].(state := Terminated);
    assert Fallen(k, i) == Moved(k, i, p, false);
    MovedCalm(k, i, p, false);
    TerminateIs(k, i);
    KinCalm(Fallen(k, i), Terminate(k, i));
    CalmChains(k, Fallen(k, i), Terminate(k, i));
  }

  lemma SetSemWaitCalm(k: Kernel, i: nat, s: int)
    requires Sized(k) && i < MAX_PROCESSES
    ensures Calm(k, SetPcb(k, i, k.table[i].(semWait := s)))
  {
    MovedCalm(k, i, k.table[i].(semWait := s), false);
  }

  lemma JoinBeginCalm(k: Kernel, pid: nat)
    requires Sized(k)
    ensures Calm(k, JoinBegin(k, pid).0)
  {
    var (k1, s) := CreateSem(k, 0);
    SameTableCalm(k, k);
    SameTableCalm(k, k1);
    var i := Slot(k, pid);
    if i < MAX_PROCESSES {
      SetSemWaitCalm(k1, i, s);
      CalmChains(k, k1, SetPcb(k1, i, k1.table[i].(semWait := s)));
    }
  }

  // ---------------------------------------------------------------- clearing an entry

  lemma Cleared(q: seq<SleepEntry>, e: nat)
    requires DistinctSleepers(q) && e < |q|
    ensures DistinctSleepers(q[e := SleepEntry(0, 0)])
    ensures forall pid :: pid != 0 ==> (HasSleeper(q[e := SleepEntry(0, 0)], pid) <==> HasSleeper(q, pid) && pid != q[e].pid)
    ensures forall s :: s in q && s != q[e] && s.pid != 0 ==> s in q[e := SleepEntry(0, 0)]
  {
    var r := q[e := SleepEntry(0, 0)];
    forall pid: nat | pid != 0
      ensures HasSleeper(r, pid) <==> HasSleeper(q, pid) && pid != q[e].pid
    {
      if HasSleeper(q, pid) && pid != q[e].pid {
        var a :| 0 <= a < |q| && q[a].pid == pid;
        assert r[a].pid == pid;
      }
      if HasSleeper(r, pid) {
        var a :| 0 <= a < |r| && r[a].pid == pid;
        assert q[a].pid == pid && a != e;
      }
    }
    forall s | s in q && s != q[e] && s.pid != 0
      ensures s in r
    {
      var a :| 0 <= a < |q| && q[a] == s;
      assert r[a] == s;
    }
  }

  lemma ExpireClears(k: Kernel, pid: nat)
    requires SleepInv(k)
    ensures var (r, expired) := Expire(k, pid);
      DistinctSleepers(r.sleepers) && (forall e :: 0 <= e < MAX_PROCESSES ==> r.sleepers[e].pid < k.nextPid || r.sleepers[e].pid == 0)
    ensures var (r, expired) := Expire(k, pid);
      EntriesKept(k, r) && (pid != 0 && expired ==> !HasSleeper(r.sleepers, pid))
    ensures forall q :: q != 0 && HasSleeper(Expire(k, pid).0.sleepers, q) ==> HasSleeper(k.sleepers, q)
  {
    var e := FindSleeper(k.sleepers, pid, 0);
    if e < MAX_PROCESSES {
      Cleared(k.sleepers, e);
    }
  }

  // ---------------------------------------------------------------- waking

  /** Waking a process that was blocked in its sleep makes it ready only if its tick has come. */
  lemma WakeSleepingRests(k: Kernel, i: nat, r: Kernel)
    requires SchedInv(k) && SleepInv(k) && i < MAX_PROCESSES && Slot(k, k.table[i].pid) == i
    requires k.table[i].state == Blocked && k.table[i].previous == Sleeping && r == WakeSlot(k, i)
    ensures Rests(k, r)
  {
    RestsSelf(k);
    ExpireClears(k, k.table[i].pid);
    forall j | 1 <= j < MAX_PROCESSES && r.table[j].pid != 0 && HasSleeper(r.sleepers, r.table[j].pid)
      ensures Resting(r.table[j])
    {
      assert HasSleeper(k.sleepers, k.table[j].pid);
    }
  }

  lemma WakeRests(k: Kernel, pid: nat)
    requires SchedInv(k) && SleepInv(k)
    ensures Rests(k, Wake(k, pid).0)
  {
    var i := Slot(k, pid);
    var r := Wake(k, pid).0;
    RestsSelf(k);
    if Wake(k, pid).1 == 0 {
      var p := k.table[i];
      if p.previous == Sleeping {
        WakeSleepingRests(k, i, r);
      } else {
        assert r == Moved(k, i, r.table[i], p.previous == Ready);
        MovedCalm(k, i, r.table[i], p.previous == Ready);
        CalmRests(k, r);
      }
    }
  }

  lemma UnsleepRests(k: Kernel, pid: nat)
    requires SchedInv(k) && SleepInv(k) && !HasSleeper(k.sleepers, pid)
    ensures Rests(k, UnsleepProcess(k, pid).0)
  {
    var r := UnsleepProcess(k, pid).0;
    RestsSelf(k);
    forall j | 1 <= j < MAX_PROCESSES && r.table[j].pid != 0 && HasSleeper(r.sleepers, r.table[j].pid)
      ensures Resting(r.table[j])
    {
      assert r.table[j].pid == k.table[j].pid;
    }
  }

  lemma WakeSleeperRests(k: Kernel, e: nat)
    requires SchedInv(k) && SleepInv(k) && e < MAX_PROCESSES
    ensures Rests(k, WakeSleeper(k, e))
  {
    var s := k.sleepers[e];
    RestsSelf(k);
    if s.pid != 0 && s.time <= k.ticks && IsSleeping(k, s.pid) {
      var k1 := k.(sleepers := k.sleepers[e := SleepEntry(0, 0)]);
      Cleared(k.sleepers, e);
      OtherFields(k, k1);
      assert Rests(k, k1);
      UnsleepRests(k1, s.pid);
      RestsChains(k, k1, WakeSleeper(k, e));
    }
  }

  lemma NextSleeperRests(k: Kernel, k1: Kernel, e: nat)
    requires SchedInv(k1) && Rests(k, k1) && e < MAX_PROCESSES
    ensures Rests(k, WakeSleeper(k1, e))
  {
    WakeSleeperRests(k1, e);
    RestsChains(k, k1, WakeSleeper(k1, e));
  }

  lemma {:induction false} WakeSleepersRests(k: Kernel, n: nat, r: Kernel)
    requires SchedInv(k) && SleepInv(k) && n <= MAX_PROCESSES && r == WakeSleepers(k, n)
    ensures Rests(k, r)
    decreases n
  {
    if n == 0 {
      RestsSelf(k);
    } else {
      var k1 := WakeSleepers(k, n - 1);
      WakeSleepersRests(k, n - 1, k1);
      WakeSleepersKeeps(k, n - 1);
      NextSleeperRests(k, k1, n - 1);
    }
  }

  lemma AllSleepersRest(k: Kernel, n: nat)
    requires SchedInv(k) && SleepInv(k) && n == |k.sleepers|
    ensures Rests(k, WakeSleepers(k, n))
  {
    WakeSleepersRests(k, n, WakeSleepers(k, n));
  }

  lemma TimerTickRests(k: Kernel)
    requires SchedInv(k) && SleepInv(k)
    ensures Rests(k, TimerTick(k))
  {
    var k1 := k.(ticks := k.ticks + 1);
    OtherFields(k, k1);
    assert Rests(k, k1);
    AllSleepersRest(k1, |k1.sleepers|);
    TimerTickIs(k, |k.sleepers|);
    RestsChains(k, k1, TimerTick(k));
  }

  // May go to sleep: running, or killed by the keyboard and not yet switched out.
  predicate MaySleep(k: Kernel)
    requires Sized(k)
  {
    k.system && k.current != 0 && (k.table[k.current].state == Running || k.table[k.current].state == Terminated)
  }

  /** Going to sleep records the tick to wake at. */
  lemma SleepRests(k: Kernel, seconds: nat)
    requires RestInv(k) && MaySleep(k)
    ensures Kept(k, Sleep(k, seconds).0)
    ensures var (r, code) := Sleep(k, seconds);
      code == 0 ==> SleepEntry(CurrentPid(k), W64(k.ticks + W64(seconds * TICKS_PER_SECOND))) in r.sleepers
    ensures var (r, code) := Sleep(k, seconds);
      code == 0 && k.table[k.current].state == Running ==> r.table[k.current] == k.table[k.current].(state := Sleeping, previous := Ready)
    ensures Sleep(k, seconds).1 != 0 ==> Sleep(k, seconds).0 == k
  {
    var (r, code) := Sleep(k, seconds);
    RestsSelf(k);
    if code == 0 {
      var pid := CurrentPid(k);
      var e := FindSleeper(k.sleepers, 0, 0);
      SlotIs(k, k.current);
      var s := SleepEntry(pid, W64(k.ticks + W64(seconds * TICKS_PER_SECOND)));
      assert r.sleepers == k.sleepers[e := s] && r.sleepers[e] == s;
      Recorded(k.sleepers, e, s);
      forall j | 1 <= j < MAX_PROCESSES && r.table[j].pid != 0 && HasSleeper(r.sleepers, r.table[j].pid)
        ensures Resting(r.table[j])
      {
        if j != k.current {
          SlotIs(k, j);
          assert k.table[j].pid != pid;
        }
      }
    }
  }

  lemma Recorded(q: seq<SleepEntry>, e: nat, s: SleepEntry)
    requires DistinctSleepers(q) && e < |q| && q[e].pid == 0 && !HasSleeper(q, s.pid)
    ensures DistinctSleepers(q[e := s])
    ensures forall pid :: HasSleeper(q[e := s], pid) ==> HasSleeper(q, pid) || pid == s.pid
    ensures forall t :: t in q && t.pid != 0 ==> t in q[e := s]
  {
    var r := q[e := s];
    forall t | t in q && t.pid != 0
      ensures t in r
    {
      var a :| 0 <= a < |q| && q[a] == t;
      assert r[a] == t;
    }
    forall pid | HasSleeper(r, pid)
      ensures HasSleeper(q, pid) || pid == s.pid
    {
      var a :| 0 <= a < |r| && r[a].pid == pid;
      assert a != e ==> q[a].pid == pid;
    }
  }

  // ---------------------------------------------------------------- semaphores and processes

  lemma SemPostRests(k: Kernel, s: int)
    requires SchedInv(k) && SleepInv(k)
    ensures Rests(k, SemPost(k, s))
  {
    RestsSelf(k);
    if !InvalidSem(k, s) {
      SemPostIs(k, s);
      var k1 := SetSem(k, s, Posted(k.sems[s]));
      var pid := k.sems[s].waiting[k.sems[s].cur];
      SetSemKeeps(k, s, Posted(k.sems[s]));
      SameTableCalm(k, k1);
      CalmRests(k, k1);
      WakeRests(k1, pid);
      RestsChains(k, k1, Wake(k1, pid).0);
    }
  }

  lemma SemWaitCalm(k: Kernel, s: int)
    requires Sized(k)
    ensures Calm(k, SemWait(k, s).0)
  {
    SameTableCalm(k, k);
    if !InvalidSem(k, s) {
      SemWaitIs(k, s);
      var k1 := SetSem(k, s, Queued(k.sems[s], CurrentPid(k)));
      SameTableCalm(k, k1);
      BlockCalm(k1, CurrentPid(k));
      CalmChains(k, k1, Block(k1, CurrentPid(k)).0);
      SameTableCalm(k, SetSem(k, s, k.sems[s].(value := if k.sems[s].value > 0 then k.sems[s].value - 1 else 0)));
    }
  }

  lemma WakeOneRests(k: Kernel, s: int)
    requires SchedInv(k) && SleepInv(k) && 0 <= s < MAX_SEMAPHORES
    ensures Rests(k, WakeOne(k, s))
  {
    var pid := k.sems[s].waiting[k.sems[s].cur];
    RestsSelf(k);
    WakeRests(k, pid);
    var k1 := if pid != NOT_A_PROCESS then Wake(k, pid).0 else k;
    SameTableCalm(k1, WakeOne(k, s));
    CalmRests(k1, WakeOne(k, s));
    RestsChains(k, k1, WakeOne(k, s));
  }

  lemma WakeAllRests(k: Kernel, s: int)
    requires SchedInv(k) && SleepInv(k) && 0 <= s < MAX_SEMAPHORES
    ensures Rests(k, WakeAll(k, s))
  {
    var inv := (k1: Kernel) => SchedInv(k1) && Rests(k, k1);
    RestsSelf(k);
    forall k1 | inv(k1)
      ensures Sized(k1) && inv(Turn(k1, s))
    {
      WakeOneKeeps(k1, s);
      WakeOneRests(k1, s);
      RestsChains(k, k1, WakeOne(k1, s));
    }
    WakeAllKeepsWhat(k, s, inv);
  }

  lemma DestroySemRests(k: Kernel, s: int)
    requires SchedInv(k) && SleepInv(k)
    ensures Rests(k, DestroySem(k, s))
  {
    RestsSelf(k);
    if !InvalidSem(k, s) {
      WakeAllRests(k, s);
      SameTableCalm(WakeAll(k, s), DestroySem(k, s));
      CalmRests(WakeAll(k, s), DestroySem(k, s));
      RestsChains(k, WakeAll(k, s), DestroySem(k, s));
    }
  }

  lemma JoinEndRests(k: Kernel, i: nat)
    requires SchedInv(k) && SleepInv(k) && i < MAX_PROCESSES
    ensures Rests(k, JoinEnd(k, i))
  {
    var k1 := DestroySem(k, k.table[i].semWait);
    DestroySemRests(k, k.table[i].semWait);
    SetSemWaitCalm(k1, i, -1);
    CalmRests(k1, JoinEnd(k, i));
    RestsChains(k, k1, JoinEnd(k, i));
  }

  lemma KillRests(k: Kernel, pid: nat)
    requires SchedInv(k) && SleepInv(k)
    ensures Rests(k, Kill(k, pid).0)
  {
    RestsSelf(k);
    if Kill(k, pid).1 == 0 {
      var i := Slot(k, pid);
      KillIs(k, pid);
      var k2 := Terminate(k, i);
      TerminateKeeps(k, i);
      TerminateCalm(k, i);
      CalmRests(k, k2);
      SemPostRests(k2, k.table[i].semWait);
      var k3 := if k.table[i].semWait != -1 then SemPost(k2, k.table[i].semWait) else k2;
      assert Rests(k, k3) by { RestsChains(k, k2, SemPost(k2, k.table[i].semWait)); }
      SameTableCalm(k3, Kill(k, pid).0);
      CalmRests(k3, Kill(k, pid).0);
      RestsChains(k, k3, Kill(k, pid).0);
    }
  }

  lemma CreateRests(k: Kernel, stack: bool, foreground: bool)
    requires SchedInv(k) && SleepInv(k) && k.nextPid < 0xffff
    ensures Rests(k, Create(k, stack, foreground).0)
  {
    var r := Create(k, stack, foreground).0;
    RestsSelf(k);
    if Claims(k) {
      var i := FindTerminated(k.table, 1);
      CreateIs(k, stack, foreground);
      forall j | 1 <= j < MAX_PROCESSES && r.table[j].pid != 0 && HasSleeper(r.sleepers, r.table[j].pid)
        ensures Resting(r.table[j])
      {
        assert j != i ==> SlotKin(k, r, j);
      }
    }
  }

  lemma SemWaitFromRests(k: Kernel, c: Cont, start: nat)
    requires SchedInv(k) && SleepInv(k) && start < PRIORITY_LEVELS && (c.InJoin? ==> c.child < MAX_PROCESSES)
    ensures Rests(k, SemWaitFrom(k, c, start))
  {
    var (k1, done) := SemWait(k, c.sem);
    SemWaitKeeps(k, c.sem);
    SemWaitCalm(k, c.sem);
    var k2 := if done then k1.(conts := k1.conts - {k1.current}) else k1.(conts := k1.conts[k1.current := c]);
    OtherFields(k1, k2);
    SameTableCalm(k1, k2);
    CalmChains(k, k1, k2);
    CalmRests(k, k2);
    if !done {
      SchedulerCalm(k2, start);
      CalmRests(k2, Scheduler(k2, start));
      RestsChains(k, k2, Scheduler(k2, start));
    } else if c.InJoin? {
      JoinEndRests(k2, c.child);
      RestsChains(k, k2, JoinEnd(k2, c.child));
    }
  }

  // ---------------------------------------------------------------- runs

  lemma ProcessCallRests(k: Kernel, e: Event)
    requires SchedInv(k) && SleepInv(k) && Possible(k, e) && (e.SysBlock? || e.SysWake? || e.SysToggle? || e.SysPriority?)
    ensures Rests(k, Apply(k, e))
  {
    RestsSelf(k);
    match e {
      case SysBlock(pid) => BlockCalm(k, pid); CalmRests(k, Block(k, pid).0);
      case SysWake(pid) => WakeRests(k, pid);
      case SysToggle(pid) => WakeRests(k, pid); BlockCalm(k, pid); CalmRests(k, Block(k, pid).0);
      case SysPriority(pid, priority) => ChangePriorityCalm(k, pid, priority); CalmRests(k, ChangePriority(k, pid, priority).0);
    }
  }

  lemma SwitchRests(k: Kernel, k1: Kernel, start: nat)
    requires SchedInv(k1) && Rests(k, k1) && start < PRIORITY_LEVELS
    ensures Rests(k, Scheduler(k1, start))
  {
    SchedulerCalm(k1, start);
    CalmRests(k1, Scheduler(k1, start));
    RestsChains(k, k1, Scheduler(k1, start));
  }

  lemma SwitchCallRests(k: Kernel, e: Event)
    requires RestInv(k) && Possible(k, e) && (e.Tick? || e.Yield? || e.SysSleep?)
    ensures Kept(k, Apply(k, e))
  {
    RestsSelf(k);
    match e {
      case Tick(start) => TimerTickRests(k); TimerTickKeeps(k); SwitchRests(k, TimerTick(k), start);
      case Yield(start) => SwitchRests(k, k, start);
      case SysSleep(seconds, start) =>
        var k1 := Sleep(k, seconds).0;
        SleepRests(k, seconds);
        SleepKeeps(k, seconds);
        SchedulerCalm(k1, start);
        CalmRests(k1, Scheduler(k1, start));
    }
  }

  lemma EndCallRests(k: Kernel, e: Event)
    requires SchedInv(k) && SleepInv(k) && Possible(k, e) && (e.SysKill? || e.SysExit?)
    ensures Rests(k, Apply(k, e))
  {
    var k1 := if e.SysExit? then SetExit(k, e.status) else k;
    var pid := if e.SysExit? then CurrentPid(k) else e.pid;
    if e.SysExit? {
      SetExitOnly(k, e.status);
      KinOnlyKeeps(k, k1);
      KinCalm(k, k1);
      CalmRests(k, k1);
    } else {
      RestsSelf(k);
    }
    KillRests(k1, pid);
    KillKeeps(k1, pid);
    RestsChains(k, k1, Kill(k1, pid).0);
    SwitchRests(k, Kill(k1, pid).0, e.start);
  }

  lemma SemCallRests(k: Kernel, e: Event)
    requires SchedInv(k) && SleepInv(k) && Possible(k, e) && (e.SysSemOpen? || e.SysSemClose? || e.SysSemPost? || e.KeyKill?)
    ensures Rests(k, Apply(k, e))
  {
    RestsSelf(k);
    match e {
      case SysSemOpen(value) => SameTableCalm(k, Apply(k, e)); CalmRests(k, Apply(k, e));
      case SysSemClose(s) => DestroySemRests(k, s);
      case SysSemPost(s) => SemPostRests(k, s);
      case KeyKill(pid) => KillRests(k, pid);
    }
  }

  lemma JoinRests(k: Kernel, pid: nat, start: nat)
    requires SchedInv(k) && SleepInv(k) && start < PRIORITY_LEVELS
    ensures Rests(k, WaitFor(k, pid, start))
  {
    var (k1, s, i) := JoinBegin(k, pid);
    JoinBeginKeeps(k, pid);
    JoinBeginCalm(k, pid);
    CalmRests(k, k1);
    if s != -1 {
      SemWaitFromRests(k1, InJoin(s, i), start);
      RestsChains(k, k1, SemWaitFrom(k1, InJoin(s, i), start));
    }
  }

  lemma JoinCallRests(k: Kernel, e: Event)
    requires SchedInv(k) && SleepInv(k) && Possible(k, e) && e.SysJoin?
    ensures Rests(k, Apply(k, e))
  {
    RestsSelf(k);
    JoinRests(k, e.pid, e.start);
  }

  lemma CreateCallRests(k: Kernel, e: Event)
    requires SchedInv(k) && SleepInv(k) && Possible(k, e) && Careful(k, e) && (e.MainCreate? || e.SysCreate?)
    ensures Rests(k, Apply(k, e))
  {
    var foreground := e.MainCreate? || e.foreground;
    CreateRests(k, e.stack, foreground);
    CreateKeeps(k, e.stack, foreground);
    if e.SysCreate? && foreground {
      var (k1, pid) := Create(k, e.stack, true);
      JoinRests(k1, AsPid(pid), e.start);
      RestsChains(k, k1, Apply(k, e));
    }
  }

  lemma WaitCallRests(k: Kernel, e: Event)
    requires SchedInv(k) && SleepInv(k) && Possible(k, e) && (e.SysSemWait? || e.Resume?)
    ensures Rests(k, Apply(k, e))
  {
    SemWaitFromRests(k, if e.SysSemWait? then InWait(e.sem) else k.conts[k.current], e.start);
  }

  // The entries that may switch, but for going to sleep.
  lemma MostRest(k: Kernel, e: Event)
    requires RestInv(k) && Possible(k, e) && Careful(k, e) && !(e.Tick? || e.Yield? || e.SysSleep?)
    ensures Rests(k, Apply(k, e))
  {
    if e.SysBlock? || e.SysWake? || e.SysToggle? || e.SysPriority? {
      ProcessCallRests(k, e);
    } else if e.SysKill? || e.SysExit? {
      EndCallRests(k, e);
    } else if e.MainCreate? || e.SysCreate? {
      CreateCallRests(k, e);
    } else if e.SysSemOpen? || e.SysSemClose? || e.SysSemPost? || e.KeyKill? {
      SemCallRests(k, e);
    } else if e.SysJoin? {
      JoinCallRests(k, e);
    } else {
      WaitCallRests(k, e);
    }
  }

  /** Every kernel entry keeps one sleep entry per process, and removes it only when it is due. */
  lemma StepRests(k: Kernel, e: Event)
    requires RestInv(k) && Possible(k, e) && Careful(k, e)
    ensures Kept(k, Apply(k, e)) && RestInv(Apply(k, e))
  {
    StepKeeps(k, e);
    if e.Tick? || e.Yield? || e.SysSleep? {
      SwitchCallRests(k, e);
    } else {
      MostRest(k, e);
    }
    StepLeavesAwake(k, e);
  }

  // ---------------------------------------------------------------- who has the processor

  /** Whoever a switch selects was ready, so it has no entry. */
  lemma SwitchAwake(k: Kernel, start: nat)
    requires SchedInv(k) && SleepInv(k) && start < PRIORITY_LEVELS
    ensures CurrentAwake(Scheduler(k, start))
  {
    var k1 := FreeTerminated(k);
    FreeTerminatedKeeps(k);
    FreeTerminatedCalm(k);
    CalmRests(k, k1);
    if k1.system && k1.count > 1 {
      SetNextKeeps(k1);
      SetNextCalm(k1);
      CalmRests(k1, SetNext(k1));
      GetNextKeeps(SetNext(k1), start);
      PickedAwake(SetNext(k1), start);
    }
  }

  lemma PickedAwake(k: Kernel, start: nat)
    requires SchedInv(k) && SleepInv(k) && start < PRIORITY_LEVELS
    requires k.table[GetNext(k, start).current].state == Ready || GetNext(k, start).current == 0
    ensures CurrentAwake(GetNext(k, start))
  {
    var r := GetNext(k, start);
    if r.current != 0 {
      assert !Resting(k.table[r.current]);
      assert r.table[r.current].pid == k.table[r.current].pid;
    }
  }

  lemma StaysAwake(k: Kernel, r: Kernel)
    requires SchedInv(k) && CurrentAwake(k) && Rests(k, r) && r.current == k.current && (r.system ==> k.system)
    requires CurrentPid(r) == CurrentPid(k)
    ensures CurrentAwake(r)
  {
  }

  // k has the same process on the processor as before.
  predicate SameCurrent(k: Kernel, r: Kernel)
    requires Sized(k) && Sized(r)
  {
    r.current == k.current && r.system == k.system && CurrentPid(r) == CurrentPid(k)
  }

  lemma WakeAllCurrent(k: Kernel, s: int)
    requires Sized(k) && 0 <= s < MAX_SEMAPHORES
    ensures SameCurrent(k, WakeAll(k, s))
  {
    var inv := (k1: Kernel) => Sized(k1) && SameCurrent(k, k1);
    WakeAllKeepsWhat(k, s, inv);
  }

  lemma DestroyCurrent(k: Kernel, s: int)
    requires Sized(k)
    ensures SameCurrent(k, DestroySem(k, s))
  {
    if !InvalidSem(k, s) {
      WakeAllCurrent(k, s);
    }
  }

  lemma PostCurrent(k: Kernel, s: int)
    requires Sized(k)
    ensures SameCurrent(k, SemPost(k, s))
  {
    if !InvalidSem(k, s) {
      SemPostIs(k, s);
    }
  }

  lemma TerminateCurrent(k: Kernel, i: nat)
    requires Sized(k) && i < MAX_PROCESSES
    ensures SameCurrent(k, Terminate(k, i))
  {
    TerminateIs(k, i);
    assert k.current != i ==> SlotKin(k, Terminate(k, i), k.current);
  }

  lemma KillCurrent(k: Kernel, pid: nat)
    requires Sized(k)
    ensures SameCurrent(k, Kill(k, pid).0)
  {
    if Kill(k, pid).1 == 0 {
      var i := Slot(k, pid);
      KillIs(k, pid);
      TerminateCurrent(k, i);
      PostCurrent(Terminate(k, i), k.table[i].semWait);
    }
  }

  lemma CreateAwake(k: Kernel, stack: bool, foreground: bool)
    requires RestInv(k) && k.nextPid < 0xffff
    ensures CurrentAwake(Create(k, stack, foreground).0)
  {
    var r := Create(k, stack, foreground).0;
    if Claims(k) {
      CreateIs(k, stack, foreground);
      CreateRests(k, stack, foreground);
      if FindTerminated(k.table, 1) != k.current {
        assert SlotKin(k, r, k.current);
      } else {
        assert r.sleepers == k.sleepers;
      }
    }
  }

  lemma SemWaitFromAwake(k: Kernel, c: Cont, start: nat)
    requires RestInv(k) && start < PRIORITY_LEVELS && (c.InJoin? ==> c.child < MAX_PROCESSES)
    ensures CurrentAwake(SemWaitFrom(k, c, start))
  {
    var (k1, done) := SemWait(k, c.sem);
    SemWaitKeeps(k, c.sem);
    SemWaitCalm(k, c.sem);
    var k2 := if done then k1.(conts := k1.conts - {k1.current}) else k1.(conts := k1.conts[k1.current := c]);
    OtherFields(k1, k2);
    SameTableCalm(k1, k2);
    CalmChains(k, k1, k2);
    CalmRests(k, k2);
    if !done {
      SwitchAwake(k2, start);
    } else {
      assert SlotCalm(k, k2, k.current);
      if c.InJoin? {
        JoinEndAwake(k2, c.child);
      }
    }
  }

  lemma JoinEndAwake(k: Kernel, i: nat)
    requires SchedInv(k) && SleepInv(k) && CurrentAwake(k) && i < MAX_PROCESSES
    ensures CurrentAwake(JoinEnd(k, i))
  {
    DestroyCurrent(k, k.table[i].semWait);
    JoinEndRests(k, i);
    StaysAwake(k, JoinEnd(k, i));
  }

  lemma JoinAwake(k: Kernel, pid: nat, start: nat)
    requires RestInv(k) && start < PRIORITY_LEVELS
    ensures CurrentAwake(WaitFor(k, pid, start))
  {
    var (k1, s, i) := JoinBegin(k, pid);
    JoinBeginKeeps(k, pid);
    JoinBeginCalm(k, pid);
    CalmRests(k, k1);
    assert SlotCalm(k, k1, k.current);
    if s != -1 {
      SemWaitFromAwake(k1, InJoin(s, i), start);
    }
  }

  lemma EndAwake(k: Kernel, e: Event)
    requires RestInv(k) && Possible(k, e) && (e.SysKill? || e.SysExit?)
    ensures CurrentAwake(Apply(k, e))
  {
    match e {
      case SysKill(pid, start) =>
        KillRests(k, pid);
        KillKeeps(k, pid);
        SwitchAwake(Kill(k, pid).0, start);
      case SysExit(status, start) =>
        var k1 := SetExit(k, status);
        SetExitOnly(k, status);
        KinOnlyKeeps(k, k1);
        KinCalm(k, k1);
        CalmRests(k, k1);
        KillRests(k1, CurrentPid(k));
        KillKeeps(k1, CurrentPid(k));
        SwitchAwake(Kill(k1, CurrentPid(k)).0, start);
    }
  }

  lemma SwitchCallAwake(k: Kernel, e: Event)
    requires RestInv(k) && Possible(k, e) && (e.Tick? || e.Yield? || e.SysSleep?)
    ensures CurrentAwake(Apply(k, e))
  {
    match e {
      case Tick(start) => TimerTickRests(k); TimerTickKeeps(k); SwitchAwake(TimerTick(k), start);
      case Yield(start) => SwitchAwake(k, start);
      case SysSleep(seconds, start) =>
        SleepRests(k, seconds);
        SleepKeeps(k, seconds);
        SwitchAwake(Sleep(k, seconds).0, start);
    }
  }

  lemma ProcessCallCurrent(k: Kernel, e: Event)
    requires Sized(k) && Possible(k, e) && (e.SysBlock? || e.SysWake? || e.SysToggle? || e.SysPriority?)
    ensures SameCurrent(k, Apply(k, e))
  {
  }

  lemma SemCallCurrent(k: Kernel, e: Event)
    requires Sized(k) && Possible(k, e) && (e.SysSemOpen? || e.SysSemClose? || e.SysSemPost? || e.KeyKill?)
    ensures SameCurrent(k, Apply(k, e))
  {
    match e {
      case SysSemOpen(value) =>
      case SysSemClose(s) => DestroyCurrent(k, s);
      case SysSemPost(s) => PostCurrent(k, s);
      case KeyKill(pid) => KillCurrent(k, pid);
    }
  }

  lemma CallAwake(k: Kernel, e: Event)
    requires RestInv(k) && Possible(k, e) && Careful(k, e)
    requires e.SysBlock? || e.SysWake? || e.SysToggle? || e.SysPriority? || e.SysSemOpen? || e.SysSemClose? || e.SysSemPost? || e.KeyKill?
    ensures CurrentAwake(Apply(k, e))
  {
    MostRest(k, e);
    if e.SysBlock? || e.SysWake? || e.SysToggle? || e.SysPriority? {
      ProcessCallCurrent(k, e);
    } else {
      SemCallCurrent(k, e);
    }
    StaysAwake(k, Apply(k, e));
  }

  lemma StepLeavesAwake(k: Kernel, e: Event)
    requires RestInv(k) && Possible(k, e) && Careful(k, e)
    ensures CurrentAwake(Apply(k, e))
  {
    if e.Tick? || e.Yield? || e.SysSleep? {
      SwitchCallAwake(k, e);
    } else if e.SysKill? || e.SysExit? {
      EndAwake(k, e);
    } else if e.MainCreate? || e.SysCreate? {
      CreateCallAwake(k, e);
    } else if e.SysJoin? {
      JoinAwake(k, e.pid, e.start);
    } else if e.SysSemWait? || e.Resume? {
      SemWaitFromAwake(k, if e.SysSemWait? then InWait(e.sem) else k.conts[k.current], e.start);
    } else {
      CallAwake(k, e);
    }
  }

  lemma CreateCallAwake(k: Kernel, e: Event)
    requires RestInv(k) && Possible(k, e) && Careful(k, e) && (e.MainCreate? || e.SysCreate?)
    ensures CurrentAwake(Apply(k, e))
  {
    var foreground := e.MainCreate? || e.foreground;
    CreateRests(k, e.stack, foreground);
    CreateKeeps(k, e.stack, foreground);
    CreateAwake(k, e.stack, foreground);
    if e.SysCreate? && foreground {
      var (k1, pid) := Create(k, e.stack, true);
      JoinAwake(k1, AsPid(pid), e.start);
    }
  }

  // ---------------------------------------------------------------- whole runs

  lemma {:induction false} RunRests(k: Kernel, es: seq<Event>)
    requires RestInv(k) && CarefulRun(k, es)
    ensures Kept(k, Run(k, es)) && RestInv(Run(k, es))
    decreases |es|
  {
    if es == [] {
      RestsSelf(k);
    } else {
      StepRests(k, es[0]);
      RunRests(Apply(k, es[0]), es[1..]);
    }
  }

  /** From a sleep call on, in every state of every run before the recorded tick, the process is still
      asleep, or dead: it is never ready nor running, even if it is blocked and unblocked meanwhile. */
  lemma NeverWokenEarly(k: Kernel, seconds: nat, start: nat, es: seq<Event>, i: nat)
    requires RestInv(k) && Possible(k, SysSleep(seconds, start)) && Sleep(k, seconds).1 == 0
    requires CarefulRun(Apply(k, SysSleep(seconds, start)), es)
    requires Run(Apply(k, SysSleep(seconds, start)), es).ticks < W64(k.ticks + W64(seconds * TICKS_PER_SECOND))
    requires 1 <= i < MAX_PROCESSES && Run(Apply(k, SysSleep(seconds, start)), es).table[i].pid == CurrentPid(k)
    ensures Resting(Run(Apply(k, SysSleep(seconds, start)), es).table[i])
  {
    var k1 := Sleep(k, seconds).0;
    var k2 := Apply(k, SysSleep(seconds, start));
    var r := Run(k2, es);
    SleepRests(k, seconds);
    StepRests(k, SysSleep(seconds, start));
    SleepKeeps(k, seconds);
    SchedulerCalm(k1, start);
    RunRests(k2, es);
    EntryStays(k2, r, SleepEntry(CurrentPid(k), W64(k.ticks + W64(seconds * TICKS_PER_SECOND))));
  }

  lemma EntryStays(k: Kernel, r: Kernel, s: SleepEntry)
    requires Kept(k, r) && s in k.sleepers && s.pid != 0 && r.ticks < s.time
    ensures HasSleeper(r.sleepers, s.pid)
  {
    var a :| 0 <= a < |r.sleepers| && r.sleepers[a] == s;
  }

  lemma BootSleeps()
    ensures RestInv(Boot())
  {
  }

  /** So in every state of every careful run of the kernel from its start. */
  lemma KernelRests(es: seq<Event>)
    requires CarefulRun(Boot(), es)
    ensures RestInv(Run(Boot(), es))
  {
    BootSleeps();
    RunRests(Boot(), es);
  }
}
