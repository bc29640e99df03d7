/** The scheduler loses no ready process and runs one at a time, whatever the kernel is asked to do. */
module SchedulerProofs {
  import opened KernelState
  import opened KernelRuns
  import Loops

  // ---------------------------------------------------------------- one slot changes

  // Slot i becomes p, and joins the queue of its priority if asked to.
  function Moved(k: Kernel, i: nat, p: Pcb, enqueue: bool): Kernel
    requires Sized(k) && i < MAX_PROCESSES && p.priority < PRIORITY_LEVELS
  {
    var k1 := SetPcb(k, i, p);
    if enqueue then Enqueue(k1, i) else k1
  }

  lemma MovedKeeps(k: Kernel, i: nat, p: Pcb, enqueue: bool)
    requires SchedInv(k) && i < MAX_PROCESSES && p.priority < PRIORITY_LEVELS && p.kin == k.table[i].kin && p.pid == k.table[i].pid
    requires p.state == Running ==> k.table[i].state == Running
    requires p.state == Ready ==> enqueue || (k.table[i].state == Ready && p.priority == k.table[i].priority)
    requires p.state == Terminated ==> i != 0
    requires k.table[i].state == Terminated ==> p.state == Terminated
    requires p.state == Blocked || p.state == Sleeping ==> p.previous == Ready || p.previous == Blocked || p.previous == Sleeping
    ensures SchedInv(Moved(k, i, p, enqueue))
  {
    var r := Moved(k, i, p, enqueue);
    MovedEntries(k, i, p, enqueue, r);
  }

  lemma MovedEntries(k: Kernel, i: nat, p: Pcb, enqueue: bool, r: Kernel)
    requires Sized(k) && NoneLost(k) && Sized(r) && i < MAX_PROCESSES && p.priority < PRIORITY_LEVELS
    requires p.state == Ready ==> enqueue || (k.table[i].state == Ready && p.priority == k.table[i].priority)
    requires r.table == k.table[i := p] && r.ready == if enqueue then k.ready[p.priority := k.ready[p.priority] + [i]] else k.ready
    ensures NoneLost(r)
  {
    forall j | 1 <= j < MAX_PROCESSES && r.table[j].state == Ready
      ensures HasEntry(r, j)
    {
      if j != i || !enqueue {
        assert HasEntry(k, j);
      }
    }
  }

  lemma BlockKeeps(k: Kernel, pid: nat)
    requires SchedInv(k)
    ensures SchedInv(Block(k, pid).0)
  {
    var i := Slot(k, pid);
    if Block(k, pid).1 == 0 {
      var p := BlockSlot(k, i).table[i];
      assert BlockSlot(k, i) == Moved(k, i, p, false);
      MovedKeeps(k, i, p, false);
    }
  }

  // The fields that scheduling does not look at.
  lemma OtherFields(k: Kernel, r: Kernel)
    requires SchedInv(k) && Sized(r) && r.table == k.table && r.ready == k.ready && r.dead == k.dead
    requires r.current == k.current && r.nextPid == k.nextPid && (r.firstSwitch ==> k.firstSwitch)
    ensures SchedInv(r)
  {
    forall i | 1 <= i < MAX_PROCESSES && r.table[i].state == Ready
      ensures HasEntry(r, i)
    {
      assert HasEntry(k, i);
    }
  }

  lemma MakeReadyKeeps(k: Kernel, i: nat)
    requires SchedInv(k) && i < MAX_PROCESSES && k.table[i].state != Terminated
    ensures SchedInv(MakeReady(k, i))
  {
    var p := k.table[i].(state := Ready);
    assert MakeReady(k, i) == Moved(k, i, p, true);
    MovedKeeps(k, i, p, true);
  }

  lemma WakeSlotKeeps(k: Kernel, i: nat)
    requires SchedInv(k) && i < MAX_PROCESSES && k.table[i].state == Blocked
    ensures SchedInv(WakeSlot(k, i))
  {
    var p := k.table[i];
    if p.previous == Sleeping {
      var (k1, expired) := Expire(k, p.pid);
      OtherFields(k, k1);
      if expired {
        MakeReadyKeeps(k1, i);
      } else {
        assert WakeSlot(k, i) == Moved(k1, i, p.(state := Sleeping), false);
        MovedKeeps(k1, i, p.(state := Sleeping), false);
      }
    } else if p.previous == Ready {
      MakeReadyKeeps(k, i);
    } else {
      assert WakeSlot(k, i) == Moved(k, i, p.(state := p.previous), false);
      MovedKeeps(k, i, p.(state := p.previous), false);
    }
  }

  lemma WakeKeeps(k: Kernel, pid: nat)
    requires SchedInv(k)
    ensures SchedInv(Wake(k, pid).0)
  {
    var i := Slot(k, pid);
    if Wake(k, pid).1 == 0 {
      WakeSlotKeeps(k, i);
    }
  }

  lemma ChangePriorityKeeps(k: Kernel, pid: nat, priority: nat)
    requires SchedInv(k)
    ensures SchedInv(ChangePriority(k, pid, priority).0)
  {
    var i := Slot(k, pid);
    if priority < PRIORITY_LEVELS && i < MAX_PROCESSES && k.table[i].priority != priority {
      var p := k.table[i].(priority := priority);
      assert ChangePriority(k, pid, priority).0 == Moved(k, i, p, p.state == Ready);
      MovedKeeps(k, i, p, p.state == Ready);
    }
  }

  lemma SleepKeeps(k: Kernel, seconds: nat)
    requires SchedInv(k)
    ensures SchedInv(Sleep(k, seconds).0)
  {
    var (r, code) := Sleep(k, seconds);
    if code == 0 {
      var pid := CurrentPid(k);
      var e := FindSleeper(k.sleepers, 0, 0);
      var k1 := k.(sleepers := k.sleepers[e := SleepEntry(pid, W64(k.ticks + W64(seconds * TICKS_PER_SECOND)))]);
      OtherFields(k, k1);
      var i := Slot(k1, pid);
      if SleepProcess(k1, pid).1 == 0 {
        var p := r.table[i];
        assert r == Moved(k1, i, p, false);
        MovedKeeps(k1, i, p, false);
      }
    }
  }

  lemma UnsleepKeeps(k: Kernel, pid: nat)
    requires SchedInv(k)
    ensures SchedInv(UnsleepProcess(k, pid).0)
  {
    var i := Slot(k, pid);
    if UnsleepProcess(k, pid).1 == 0 {
      var p := k.table[i];
      if p.previous == Ready {
        MakeReadyKeeps(k, i);
      } else {
        var p1 := p.(state := p.previous);
        assert UnsleepProcess(k, pid).0 == Moved(k, i, p1, false);
        MovedKeeps(k, i, p1, false);
      }
    }
  }

  lemma WakeSleeperKeeps(k: Kernel, e: nat)
    requires SchedInv(k) && e < MAX_PROCESSES
    ensures SchedInv(WakeSleeper(k, e))
  {
    var s := k.sleepers[e];
    if s.pid != 0 && s.time <= k.ticks && IsSleeping(k, s.pid) {
      var k1 := k.(sleepers := k.sleepers[e := SleepEntry(0, 0)]);
      OtherFields(k, k1);
      UnsleepKeeps(k1, s.pid);
    }
  }

  lemma NextSleeperKeeps(k: Kernel, n: nat, r: Kernel)
    requires Sized(k) && 0 < n <= MAX_PROCESSES && r == WakeSleepers(k, n - 1) && SchedInv(r)
    ensures SchedInv(WakeSleepers(k, n))
  {
    WakeSleeperKeeps(r, n - 1);
  }

  lemma {:induction false} WakeSleepersKeeps(k: Kernel, n: nat)
    requires SchedInv(k) && n <= MAX_PROCESSES
    ensures SchedInv(WakeSleepers(k, n))
    decreases n
  {
    if n > 0 {
      WakeSleepersKeeps(k, n - 1);
      NextSleeperKeeps(k, n, WakeSleepers(k, n - 1));
    }
  }

  // ---------------------------------------------------------------- switching

  lemma SetNextKeeps(k: Kernel)
    requires SchedInv(k)
    ensures SchedInv(SetNext(k)) && SetNext(k).current == k.current && SetNext(k).dead == k.dead
    ensures forall i :: 0 <= i < MAX_PROCESSES ==> SetNext(k).table[i].state != Running
    ensures !SetNext(k).firstSwitch
  {
    if k.firstSwitch {
      OtherFields(k, SetNext(k));
    } else if k.table[k.current].state == Running {
      var p := k.table[k.current].(state := Ready);
      var k1 := SetPcb(k, k.current, p);
      if p.pid != 0 {
        assert SetNext(k) == Moved(k, k.current, p, true);
        MovedKeeps(k, k.current, p, true);
      } else {
        IdleBecomesReady(k);
      }
    }
  }

  lemma IdleBecomesReady(k: Kernel)
    requires SchedInv(k) && k.table[k.current].state == Running && CurrentPid(k) == 0
    ensures SchedInv(SetPcb(k, k.current, k.table[k.current].(state := Ready)))
  {
    assert k.current == 0;
    var r := SetPcb(k, 0, k.table[0].(state := Ready));
    forall j | 1 <= j < MAX_PROCESSES && r.table[j].state == Ready
      ensures HasEntry(r, j)
    {
      assert HasEntry(k, j);
    }
  }

  /** What dequeuing up to the first runnable entry of a queue does to the entries of ready processes. */
  lemma {:induction false} DequeueFinds(k: Kernel, q: nat)
    requires Sized(k) && q < PRIORITY_LEVELS
    ensures var (r, i) := DequeueRunnable(k, q);
      && (i < MAX_PROCESSES ==> Runnable(k, q, i) && i in k.ready[q])
      && (i == MAX_PROCESSES ==> r.ready[q] == [] && forall j :: 0 <= j < MAX_PROCESSES && j in k.ready[q] ==> !Runnable(k, q, j))
      && (forall j :: 0 <= j < MAX_PROCESSES && j != i && j in k.ready[q] && Runnable(k, q, j) ==> j in r.ready[q])
    decreases |k.ready[q]|
  {
    if k.ready[q] != [] {
      var i := k.ready[q][0];
      var k1 := k.(ready := k.ready[q := k.ready[q][1..]]);
      if !Runnable(k, q, i) {
        DequeueFinds(k1, q);
        assert DequeueRunnable(k, q) == DequeueRunnable(k1, q);
        forall j | 0 <= j < MAX_PROCESSES && j in k.ready[q] && Runnable(k, q, j)
          ensures j in k1.ready[q] && Runnable(k1, q, j)
        {
        }
      }
    }
  }

  // Every ready process other than i still has its entry.
  ghost predicate NoneLostBut(k: Kernel, i: nat)
    requires Sized(k)
  {
    forall j {:trigger HasEntry(k, j)} :: 1 <= j < MAX_PROCESSES && j != i && k.table[j].state == Ready ==> HasEntry(k, j)
  }

  // Queue q holds no runnable process.
  ghost predicate Exhausted(k: Kernel, q: nat)
    requires Sized(k)
  {
    forall j :: 1 <= j < MAX_PROCESSES ==> !(k.table[j].state == Ready && k.table[j].priority == q)
  }

  lemma DequeueKeeps(k: Kernel, q: nat)
    requires Sized(k) && q < PRIORITY_LEVELS && NoneLost(k)
    ensures var (r, i) := DequeueRunnable(k, q);
      && NoneLostBut(r, i) && (i == MAX_PROCESSES ==> NoneLost(r) && Exhausted(r, q))
      && (i < MAX_PROCESSES ==> k.table[i].state == Ready)
  {
    var (r, i) := DequeueRunnable(k, q);
    DequeueFinds(k, q);
    forall j | 1 <= j < MAX_PROCESSES && j != i && r.table[j].state == Ready
      ensures HasEntry(r, j)
    {
      assert HasEntry(k, j);
    }
    if i == MAX_PROCESSES {
      forall j | 1 <= j < MAX_PROCESSES
        ensures !(r.table[j].state == Ready && r.table[j].priority == q)
      {
        assert k.table[j].state == Ready ==> HasEntry(k, j);
      }
    }
  }

  // The queue that is tried when n of the three are left to try.
  predicate ToTry(q: nat, n: nat, x: nat)
    requires q < PRIORITY_LEVELS
  {
    (n >= 1 && x == q) || (n >= 2 && x == (q + 1) % PRIORITY_LEVELS) || n >= 3
  }

  /** get_next_process finds a ready process whenever one other than idle exists. */
  lemma {:induction false} PickFinds(k: Kernel, q: nat, n: nat)
    requires Sized(k) && q < PRIORITY_LEVELS && NoneLost(k)
    requires forall x :: 0 <= x < PRIORITY_LEVELS ==> ToTry(q, n, x) || Exhausted(k, x)
    ensures var (r, i) := Pick(k, q, n);
      && NoneLostBut(r, i)
      && (i < MAX_PROCESSES ==> k.table[i].state == Ready)
      && (i == MAX_PROCESSES ==> NoneLost(r) && forall j :: 1 <= j < MAX_PROCESSES ==> k.table[j].state != Ready)
    decreases n
  {
    if n == 0 {
      AllExhausted(k, 0, 1, 2);
    } else {
      var (k1, i) := DequeueRunnable(k, q);
      DequeueKeeps(k, q);
      if i == MAX_PROCESSES {
        forall x | 0 <= x < PRIORITY_LEVELS
          ensures ToTry((q + 1) % PRIORITY_LEVELS, n - 1, x) || Exhausted(k1, x)
        {
          assert ToTry(q, n, x) || Exhausted(k, x);
        }
        PickFinds(k1, (q + 1) % PRIORITY_LEVELS, n - 1);
      }
    }
  }

  lemma AllExhausted(k: Kernel, q: nat, q1: nat, q2: nat)
    requires Sized(k) && {q, q1, q2} == {0, 1, 2} && Exhausted(k, q) && Exhausted(k, q1) && Exhausted(k, q2)
    ensures forall j :: 1 <= j < MAX_PROCESSES ==> k.table[j].state != Ready
  {
    forall j | 1 <= j < MAX_PROCESSES
      ensures k.table[j].state != Ready
    {
      assert k.table[j].priority in {q, q1, q2};
    }
  }

  /** get_next_process makes the process it picks the only running one. */
  lemma GetNextKeeps(k: Kernel, start: nat)
    requires SchedInv(k) && start < PRIORITY_LEVELS
    requires !k.firstSwitch && forall i :: 0 <= i < MAX_PROCESSES ==> k.table[i].state != Running
    ensures var r := GetNext(k, start);
      && SchedInv(r) && r.table[r.current].state == Running && r.dead == k.dead
      && (k.table[r.current].state == Ready || r.current == 0)
  {
    var (k1, i) := Pick(k, start, |k.ready|);
    var r := GetNext(k, start);
    PickFinds(k, start, |k.ready|);
    var next := if i < MAX_PROCESSES then i else 0;
    forall j | 1 <= j < MAX_PROCESSES && r.table[j].state == Ready
      ensures HasEntry(r, j)
    {
      assert HasEntry(k1, j);
    }
  }

  // One iteration of the draining loop.
  function Drain(k: Kernel): Kernel
    requires Sized(k) && k.dead != []
  {
    var i := k.dead[0];
    SetPcb(k, i, k.table[i].(state := Terminated, stack := false)).(count := k.count - 1, dead := k.dead[1..])
  }

  lemma DrainKeeps(k: Kernel)
    requires SchedInv(k) && k.dead != []
    ensures SchedInv(Drain(k))
  {
    var i := k.dead[0];
    assert i in k.dead;
    var k1 := Drain(k);
    forall j | 1 <= j < MAX_PROCESSES && k1.table[j].state == Ready
      ensures HasEntry(k1, j)
    {
      assert HasEntry(k, j);
    }
    assert forall x :: x in k1.dead ==> x in k.dead;
  }

  lemma {:induction false} FreeTerminatedKeeps(k: Kernel)
    requires SchedInv(k)
    ensures SchedInv(FreeTerminated(k))
    decreases |k.dead|
  {
    if k.dead != [] {
      DrainKeeps(k);
      FreeTerminatedKeeps(Drain(k));
    }
  }

  lemma SchedulerKeeps(k: Kernel, start: nat)
    requires SchedInv(k) && start < PRIORITY_LEVELS
    ensures SchedInv(Scheduler(k, start))
  {
    var k1 := FreeTerminated(k);
    FreeTerminatedKeeps(k);
    if k1.system && k1.count > 1 {
      SetNextKeeps(k1);
      GetNextKeeps(SetNext(k1), start);
    } else {
      OtherFields(k1, k1.(system := false));
    }
  }

  // ---------------------------------------------------------------- the other entries

  // r differs from k only in fathers, children, foreground and exit statuses.
  predicate SlotKin(k: Kernel, r: Kernel, j: nat)
    requires Sized(k) && Sized(r) && j < MAX_PROCESSES
  {
    r.table[j] == k.table[j].(kin := r.table[j].kin)
  }

  ghost predicate KinOnly(k: Kernel, r: Kernel) {
    && Sized(k) && Sized(r) && r == k.(table := r.table, foreground := r.foreground)
    && forall j {:trigger SlotKin(k, r, j)} :: 0 <= j < MAX_PROCESSES ==> SlotKin(k, r, j)
  }

  lemma KinOnlyChains(a: Kernel, b: Kernel, c: Kernel)
    requires KinOnly(a, b) && KinOnly(b, c)
    ensures KinOnly(a, c)
  {
    forall j | 0 <= j < MAX_PROCESSES
      ensures SlotKin(a, c, j)
    {
      assert SlotKin(a, b, j) && SlotKin(b, c, j);
    }
  }

  lemma KinOnlyKeeps(k: Kernel, r: Kernel)
    requires SchedInv(k) && KinOnly(k, r)
    ensures SchedInv(r)
  {
    forall j | 0 <= j < MAX_PROCESSES
      ensures r.table[j].pid == k.table[j].pid && r.table[j].state == k.table[j].state && r.table[j].previous == k.table[j].previous
      ensures r.table[j].priority == k.table[j].priority
    {
      assert SlotKin(k, r, j);
    }
    forall j | 1 <= j < MAX_PROCESSES && r.table[j].state == Ready
      ensures HasEntry(r, j)
    {
      assert HasEntry(k, j);
    }
  }

  lemma GiveBackOnly(k: Kernel, i: nat)
    requires Sized(k) && i < MAX_PROCESSES
    ensures KinOnly(k, GiveBack(k, i))
  {
  }

  lemma AdoptOneOnly(k: Kernel, child: nat)
    requires Sized(k) && child < MAX_PROCESSES
    ensures KinOnly(k, AdoptOne(k, child))
  {
  }

  lemma {:induction false} AdoptOnly(k: Kernel, kids: seq<nat>)
    requires Sized(k) && forall j :: 0 <= j < |kids| ==> kids[j] < MAX_PROCESSES
    ensures KinOnly(k, Adopt(k, kids))
    decreases |kids|
  {
    if kids != [] {
      AdoptOneOnly(k, kids[0]);
      AdoptOnly(AdoptOne(k, kids[0]), kids[1..]);
      KinOnlyChains(k, AdoptOne(k, kids[0]), Adopt(k, kids));
    }
  }

  lemma SetExitOnly(k: Kernel, status: int)
    requires Sized(k)
    ensures KinOnly(k, SetExit(k, status))
  {
  }

  // ---------------------------------------------------------------- creation

  /** create_process gets as far as claiming a slot. */
  predicate Claims(k: Kernel)
    requires Sized(k)
  {
    k.count < MAX_PROCESSES && FindTerminated(k.table, 1) < MAX_PROCESSES
  }

  /** It then fails: there is no memory for the stack, or the father has as many children as it can. One
      who was killed and creates into its own slot has no children any more. */
  predicate ClaimFails(k: Kernel, stack: bool)
    requires Sized(k)
  {
    Claims(k) && (!stack || (FindTerminated(k.table, 1) != k.current && |k.table[k.current].kin.kids| >= MAX_CHILDREN))
  }

  // r is k with slot i claimed for a new process, but for kinship.
  ghost predicate ClaimedIn(k: Kernel, r: Kernel, i: nat, stack: bool)
    requires Sized(k) && Sized(r) && i < MAX_PROCESSES
  {
    && r.table[i] == Pcb(k.nextPid, Ready, Terminated, 0, stack, r.table[i].kin, -1)
    && forall j {:trigger SlotKin(k, r, j)} :: 0 <= j < MAX_PROCESSES && j != i ==> SlotKin(k, r, j)
  }

  lemma ClaimIs(k: Kernel, i: nat, stack: bool, foreground: bool)
    requires Sized(k) && i < MAX_PROCESSES
    ensures var k0 := HandOver(k, foreground); var r := Claim(k0, i, stack, foreground && k.table[k.current].kin.foreground);
      && r == k.(table := r.table, nextPid := (k.nextPid + 1) % 0x1_0000, foreground := r.foreground, conts := k.conts - {i})
      && ClaimedIn(k, r, i, stack)
      && |r.table[k.current].kin.kids| == if i == k.current then 0 else |k.table[k.current].kin.kids|
  {
    var k0 := HandOver(k, foreground);
    var r := Claim(k0, i, stack, foreground && k.table[k.current].kin.foreground);
    forall j | 0 <= j < MAX_PROCESSES && j != i
      ensures SlotKin(k, r, j)
    {
    }
  }

  lemma AdmitIs(k: Kernel, k1: Kernel, i: nat, stack: bool)
    requires Sized(k) && Sized(k1) && i < MAX_PROCESSES && ClaimedIn(k, k1, i, stack) && k1.ready == k.ready && k1.count == k.count
    ensures var r := Admit(k1, i);
      && r == k1.(table := r.table, ready := k.ready[0 := k.ready[0] + [i]], count := k.count + 1)
      && ClaimedIn(k, r, i, stack)
  {
    var r := Admit(k1, i);
    forall j | 0 <= j < MAX_PROCESSES && j != i
      ensures SlotKin(k, r, j)
    {
      assert SlotKin(k, k1, j);
    }
  }

  // What a creation that claims a slot leaves, but for kinship.
  lemma CreateIs(k: Kernel, stack: bool, foreground: bool)
    requires Sized(k) && Claims(k)
    ensures var i := FindTerminated(k.table, 1); 1 <= i < MAX_PROCESSES && k.table[i].state == Terminated
    ensures var i := FindTerminated(k.table, 1); var (r, pid) := Create(k, stack, foreground);
      && r == k.(table := r.table, ready := r.ready, nextPid := (k.nextPid + 1) % 0x1_0000, count := r.count, foreground := r.foreground,
                conts := k.conts - {i})
      && pid == (if ClaimFails(k, stack) then -1 else k.nextPid)
      && r.ready == (if ClaimFails(k, stack) then k.ready else k.ready[0 := k.ready[0] + [i]])
      && r.count == (if ClaimFails(k, stack) then k.count else k.count + 1)
      && ClaimedIn(k, r, i, stack)
  {
    var i := FindTerminated(k.table, 1);
    ClaimIs(k, i, stack, foreground);
    ClaimedIs(k, stack, Claim(HandOver(k, foreground), i, stack, foreground && k.table[k.current].kin.foreground), Create(k, stack, foreground));
  }

  // The same from the state after the claim.
  lemma ClaimedIs(k: Kernel, stack: bool, k1: Kernel, r: (Kernel, int))
    requires Sized(k) && Claims(k) && Sized(k1)
    requires var i := FindTerminated(k.table, 1);
      && k1 == k.(table := k1.table, nextPid := (k.nextPid + 1) % 0x1_0000, foreground := k1.foreground, conts := k.conts - {i})
      && ClaimedIn(k, k1, i, stack)
      && |k1.table[k.current].kin.kids| == (if i == k.current then 0 else |k.table[k.current].kin.kids|)
      && r == if !stack || |k1.table[k1.current].kin.kids| >= MAX_CHILDREN then (k1, -1) else (Admit(k1, i), k.nextPid as int)
    ensures Sized(r.0)
    ensures var i := FindTerminated(k.table, 1); var (r, pid) := r;
      && r == k.(table := r.table, ready := r.ready, nextPid := (k.nextPid + 1) % 0x1_0000, count := r.count, foreground := r.foreground,
                conts := k.conts - {i})
      && pid == (if ClaimFails(k, stack) then -1 else k.nextPid)
      && r.ready == (if ClaimFails(k, stack) then k.ready else k.ready[0 := k.ready[0] + [i]])
      && r.count == (if ClaimFails(k, stack) then k.count else k.count + 1)
      && ClaimedIn(k, r, i, stack)
  {
    AdmitIs(k, k1, FindTerminated(k.table, 1), stack);
  }

  /** The slot stays ready without an entry: a claim that failed, of a slot that had no stale entry either. */
  predicate LosesSlot(k: Kernel, stack: bool)
    requires Sized(k)
  {
    ClaimFails(k, stack) && FindTerminated(k.table, 1) !in k.ready[0]
  }

  lemma CreateKeeps(k: Kernel, stack: bool, foreground: bool)
    requires SchedInv(k) && k.nextPid < 0xffff && !LosesSlot(k, stack)
    ensures SchedInv(Create(k, stack, foreground).0)
  {
    if Claims(k) {
      var i := FindTerminated(k.table, 1);
      var r := Create(k, stack, foreground).0;
      CreateIs(k, stack, foreground);
      CreatedPids(k, stack, foreground);
      forall j | 1 <= j < MAX_PROCESSES && r.table[j].state == Ready
        ensures HasEntry(r, j)
      {
        if j != i {
          assert SlotKin(k, r, j);
          assert HasEntry(k, j);
        } else if !ClaimFails(k, stack) {
          assert r.ready[0][|k.ready[0]|] == i;
        }
      }
    }
  }

  lemma CreatedPids(k: Kernel, stack: bool, foreground: bool)
    requires SchedInv(k) && k.nextPid < 0xffff && Claims(k)
    ensures var r := Create(k, stack, foreground).0; PidsOk(r) && OneRunning(r) && PreviousOk(r) && FirstSwitchOk(r)
  {
    CreateIs(k, stack, foreground);
    ClaimedPids(k, stack, FindTerminated(k.table, 1), Create(k, stack, foreground).0);
  }

  lemma ClaimedPids(k: Kernel, stack: bool, i: nat, r: Kernel)
    requires SchedInv(k) && k.nextPid < 0xffff && Sized(r) && 1 <= i < MAX_PROCESSES && ClaimedIn(k, r, i, stack)
    requires r.nextPid == k.nextPid + 1 && r.dead == k.dead && r.current == k.current && r.firstSwitch == k.firstSwitch
    ensures PidsOk(r) && OneRunning(r) && PreviousOk(r) && FirstSwitchOk(r)
  {
    forall j | 0 <= j < MAX_PROCESSES && j != i
      ensures r.table[j].pid == k.table[j].pid && r.table[j].state == k.table[j].state && r.table[j].previous == k.table[j].previous
    {
      assert SlotKin(k, r, j);
    }
  }

  /** A creation loses a ready process exactly when it fails after it has claimed its slot, and no stale
      entry of that slot happens to be in the first queue. */
  lemma CreateLosesExactlyWhen(k: Kernel, stack: bool, foreground: bool)
    requires SchedInv(k) && k.nextPid < 0xffff
    ensures NoneLost(Create(k, stack, foreground).0) <==> !LosesSlot(k, stack)
    ensures SchedInv(Create(k, stack, foreground).0) <==> !LosesSlot(k, stack)
  {
    if LosesSlot(k, stack) {
      var i := FindTerminated(k.table, 1);
      var r := Create(k, stack, foreground).0;
      CreateIs(k, stack, foreground);
      assert r.table[i].state == Ready && !HasEntry(r, i);
    } else {
      CreateKeeps(k, stack, foreground);
    }
  }

  // ---------------------------------------------------------------- termination

  // The victim, before its kin are told.
  function Fallen(k: Kernel, i: nat): Kernel
    requires Sized(k) && i < MAX_PROCESSES
  {
    SetPcb(k, i, k.table[i].(state := Terminated))
  }

  lemma TerminateIs(k: Kernel, i: nat)
    requires Sized(k) && i < MAX_PROCESSES
    ensures Sized(Fallen(k, i)) && KinOnly(Fallen(k, i), Terminate(k, i))
    ensures forall j {:trigger SlotKin(k, Terminate(k, i), j)} :: 0 <= j < MAX_PROCESSES && j != i ==> SlotKin(k, Terminate(k, i), j)
    ensures Terminate(k, i).table[i] == k.table[i].(state := Terminated, kin := Terminate(k, i).table[i].kin)
  {
    var k1 := Fallen(k, i);
    GiveBackOnly(k1, i);
    AdoptOnly(GiveBack(k1, i), k.table[i].kin.kids);
    KinOnlyChains(k1, GiveBack(k1, i), Terminate(k, i));
    assert SlotKin(k1, Terminate(k, i), i);
    forall j | 0 <= j < MAX_PROCESSES && j != i
      ensures SlotKin(k, Terminate(k, i), j)
    {
      assert SlotKin(k1, Terminate(k, i), j);
    }
  }

  lemma TerminateKeeps(k: Kernel, i: nat)
    requires SchedInv(k) && 1 <= i < MAX_PROCESSES
    ensures SchedInv(Terminate(k, i))
  {
    var p := k.table[i].(state := Terminated);
    assert Fallen(k, i) == Moved(k, i, p, false);
    MovedKeeps(k, i, p, false);
    TerminateIs(k, i);
    KinOnlyKeeps(Fallen(k, i), Terminate(k, i));
  }

  lemma SetSemKeeps(k: Kernel, s: int, x: Semaphore)
    requires SchedInv(k) && 0 <= s < MAX_SEMAPHORES && SemSized(x)
    ensures SchedInv(SetSem(k, s, x))
  {
    OtherFields(k, SetSem(k, s, x));
  }

  lemma SemPostIs(k: Kernel, s: int)
    requires Sized(k) && !InvalidSem(k, s)
    ensures var pid := k.sems[s].waiting[k.sems[s].cur]; var k1 := SetSem(k, s, Posted(k.sems[s]));
      Sized(k1) && SemPost(k, s) == if pid == NOT_A_PROCESS then k1 else Wake(k1, pid).0
  {
  }

  lemma SemPostKeeps(k: Kernel, s: int)
    requires SchedInv(k)
    ensures SchedInv(SemPost(k, s))
  {
    if !InvalidSem(k, s) {
      SemPostIs(k, s);
      SetSemKeeps(k, s, Posted(k.sems[s]));
      WakeKeeps(SetSem(k, s, Posted(k.sems[s])), k.sems[s].waiting[k.sems[s].cur]);
    }
  }

  lemma KillIs(k: Kernel, pid: nat)
    requires Sized(k) && Kill(k, pid).1 == 0
    ensures Slot(k, pid) < MAX_PROCESSES
    ensures var i := Slot(k, pid);
      var k3 := if k.table[i].semWait != -1 then SemPost(Terminate(k, i), k.table[i].semWait) else Terminate(k, i);
      Kill(k, pid).0 == k3.(dead := k3.dead + [i])
  {
  }

  lemma KillKeeps(k: Kernel, pid: nat)
    requires SchedInv(k)
    ensures SchedInv(Kill(k, pid).0)
  {
    if Kill(k, pid).1 == 0 {
      var i := Slot(k, pid);
      KillIs(k, pid);
      TerminateKeeps(k, i);
      SemPostKeeps(Terminate(k, i), k.table[i].semWait);
      BuryKeeps(if k.table[i].semWait != -1 then SemPost(Terminate(k, i), k.table[i].semWait) else Terminate(k, i), i);
    }
  }

  lemma BuryKeeps(k: Kernel, i: nat)
    requires SchedInv(k) && 1 <= i < MAX_PROCESSES
    ensures SchedInv(k.(dead := k.dead + [i]))
  {
    var r := k.(dead := k.dead + [i]);
    forall j | 1 <= j < MAX_PROCESSES && r.table[j].state == Ready
      ensures HasEntry(r, j)
    {
      assert HasEntry(k, j);
    }
  }

  // The semaphore with one more waiter.
  function Queued(x: Semaphore, pid: nat): Semaphore
    requires SemSized(x)
  {
    x.(waiting := x.waiting[x.last := pid], last := (x.last + 1) % MAX_PROCESSES)
  }

  lemma SemWaitIs(k: Kernel, s: int)
    requires Sized(k) && !InvalidSem(k, s)
    ensures var x := k.sems[s]; var k1 := SetSem(k, s, Queued(x, CurrentPid(k)));
      Sized(k1) && SemWait(k, s) == if x.value > 0 then (SetSem(k, s, x.(value := x.value - 1)), true) else (Block(k1, CurrentPid(k)).0, false)
  {
  }

  lemma SemWaitKeeps(k: Kernel, s: int)
    requires SchedInv(k)
    ensures SchedInv(SemWait(k, s).0)
  {
    if !InvalidSem(k, s) {
      var x := k.sems[s];
      SemWaitIs(k, s);
      SetSemKeeps(k, s, Queued(x, CurrentPid(k)));
      BlockKeeps(SetSem(k, s, Queued(x, CurrentPid(k))), CurrentPid(k));
      if x.value > 0 {
        SetSemKeeps(k, s, x.(value := x.value - 1));
      }
    }
  }

  lemma WakeOneKeeps(k: Kernel, s: int)
    requires SchedInv(k) && 0 <= s < MAX_SEMAPHORES
    ensures SchedInv(WakeOne(k, s))
  {
    var x := k.sems[s];
    var pid := x.waiting[x.cur];
    WakeKeeps(k, pid);
    SetSemKeeps(if pid != NOT_A_PROCESS then Wake(k, pid).0 else k, s, x.(cur := (x.cur + 1) % MAX_PROCESSES));
  }

  // How many turns the loop of destroy_sem has left.
  function TurnsLeft(x: Semaphore): nat
    requires SemSized(x)
  {
    if x.cur <= x.last then x.last - x.cur else x.last + MAX_PROCESSES - x.cur
  }

  lemma TurnTaken(k: Kernel, s: int)
    requires Sized(k) && 0 <= s < MAX_SEMAPHORES && TurnsLeft(k.sems[s]) > 0
    ensures TurnsLeft(WakeOne(k, s).sems[s]) == TurnsLeft(k.sems[s]) - 1
  {
  }

  // One turn of the loop of destroy_sem, on any state.
  function Turn(k: Kernel, s: int): Kernel
    requires 0 <= s < MAX_SEMAPHORES
  {
    if Sized(k) then WakeOne(k, s) else k
  }

  function Left(k: Kernel, s: int): nat
    requires 0 <= s < MAX_SEMAPHORES
  {
    if Sized(k) then TurnsLeft(k.sems[s]) else 0
  }

  lemma {:induction false} WakeAllTurns(k: Kernel, s: int, n: nat, turn: Kernel -> Kernel)
    requires Sized(k) && 0 <= s < MAX_SEMAPHORES && n == TurnsLeft(k.sems[s])
    requires forall k1 :: turn(k1) == Turn(k1, s)
    ensures WakeAll(k, s) == Loops.Iterate(k, n, turn)
    decreases n
  {
    if n > 0 {
      var k1 := WakeOne(k, s);
      TurnTaken(k, s);
      WakeAllTurns(k1, s, n - 1, turn);
      assert turn(k) == k1;
      assert WakeAll(k, s) == WakeAll(k1, s);
    }
  }

  /** What every turn of the loop of destroy_sem keeps, the loop keeps. */
  lemma WakeAllKeepsWhat(k: Kernel, s: int, inv: Kernel -> bool)
    requires 0 <= s < MAX_SEMAPHORES && inv(k)
    requires forall k1 :: inv(k1) ==> Sized(k1) && inv(Turn(k1, s))
    ensures Sized(k) && inv(WakeAll(k, s))
  {
    var turn := (k: Kernel) => Turn(k, s);
    var left := (k: Kernel) => Left(k, s);
    forall k1
      ensures Loops.TurnKeeps(k1, turn, left, inv)
    {
      if inv(k1) && Left(k1, s) > 0 {
        TurnTaken(k1, s);
      }
    }
    WakeAllTurns(k, s, TurnsLeft(k.sems[s]), turn);
    Loops.Keeps(k, TurnsLeft(k.sems[s]), turn, left, inv);
  }

  lemma WakeAllKeeps(k: Kernel, s: int)
    requires SchedInv(k) && 0 <= s < MAX_SEMAPHORES
    ensures SchedInv(WakeAll(k, s))
  {
    var inv := (k: Kernel) => SchedInv(k);
    forall k1 | inv(k1)
      ensures Sized(k1) && inv(Turn(k1, s))
    {
      WakeOneKeeps(k1, s);
    }
    WakeAllKeepsWhat(k, s, inv);
  }

  lemma DestroySemKeeps(k: Kernel, s: int)
    requires SchedInv(k)
    ensures SchedInv(DestroySem(k, s))
  {
    if !InvalidSem(k, s) {
      WakeAllKeeps(k, s);
      OtherFields(WakeAll(k, s), DestroySem(k, s));
    }
  }

  lemma SetSemWaitKeeps(k: Kernel, i: nat, s: int)
    requires SchedInv(k) && i < MAX_PROCESSES
    ensures SchedInv(SetPcb(k, i, k.table[i].(semWait := s)))
  {
    var p := k.table[i].(semWait := s);
    assert SetPcb(k, i, p) == Moved(k, i, p, false);
    MovedKeeps(k, i, p, false);
  }

  lemma JoinBeginKeeps(k: Kernel, pid: nat)
    requires SchedInv(k)
    ensures SchedInv(JoinBegin(k, pid).0)
  {
    var (k1, s) := CreateSem(k, 0);
    OtherFields(k, k1);
    var i := Slot(k, pid);
    if i < MAX_PROCESSES {
      SetSemWaitKeeps(k1, i, s);
    }
  }

  lemma JoinEndKeeps(k: Kernel, i: nat)
    requires SchedInv(k) && i < MAX_PROCESSES
    ensures SchedInv(JoinEnd(k, i))
  {
    DestroySemKeeps(k, k.table[i].semWait);
    SetSemWaitKeeps(DestroySem(k, k.table[i].semWait), i, -1);
  }

  // ---------------------------------------------------------------- runs

  /** What a run must avoid for no ready process to be lost: a creation that fails after it has claimed
      its slot, and more than 65534 creations. */
  predicate Careful(k: Kernel, e: Event)
    requires Sized(k)
  {
    e.MainCreate? || e.SysCreate? ==> k.nextPid < 0xffff && !LosesSlot(k, e.stack)
  }

  lemma SemWaitFromKeeps(k: Kernel, c: Cont, start: nat)
    requires SchedInv(k) && start < PRIORITY_LEVELS && (c.InJoin? ==> c.child < MAX_PROCESSES)
    ensures SchedInv(SemWaitFrom(k, c, start))
  {
    var (k1, done) := SemWait(k, c.sem);
    SemWaitKeeps(k, c.sem);
    if !done {
      var k2 := k1.(conts := k1.conts[k1.current := c]);
      OtherFields(k1, k2);
      SchedulerKeeps(k2, start);
    } else {
      var k2 := k1.(conts := k1.conts - {k1.current});
      OtherFields(k1, k2);
      if c.InJoin? {
        JoinEndKeeps(k2, c.child);
      }
    }
  }

  lemma ToggleKeeps(k: Kernel, pid: nat)
    requires SchedInv(k)
    ensures SchedInv(Toggle(k, pid).0)
  {
    WakeKeeps(k, pid);
    BlockKeeps(k, pid);
  }

  lemma AllSleepersKeep(k: Kernel, n: nat)
    requires SchedInv(k) && n == |k.sleepers|
    ensures SchedInv(WakeSleepers(k, n))
  {
    WakeSleepersKeeps(k, n);
  }

  lemma TimerTickIs(k: Kernel, n: nat)
    requires Sized(k) && n == |k.sleepers|
    ensures TimerTick(k) == WakeSleepers(k.(ticks := k.ticks + 1), n)
  {
  }

  lemma TimerTickKeeps(k: Kernel)
    requires SchedInv(k)
    ensures SchedInv(TimerTick(k))
  {
    var k1 := k.(ticks := k.ticks + 1);
    OtherFields(k, k1);
    AllSleepersKeep(k1, |k1.sleepers|);
    TimerTickIs(k, |k.sleepers|);
  }

  lemma JoinKeeps(k: Kernel, pid: nat, start: nat)
    requires SchedInv(k) && start < PRIORITY_LEVELS
    ensures SchedInv(WaitFor(k, pid, start))
  {
    var (k1, s, i) := JoinBegin(k, pid);
    JoinBeginKeeps(k, pid);
    if s != -1 {
      SemWaitFromKeeps(k1, InJoin(s, i), start);
    }
  }

  lemma EndKeeps(k: Kernel, e: Event)
    requires SchedInv(k) && Possible(k, e) && (e.SysKill? || e.SysExit?)
    ensures SchedInv(Apply(k, e))
  {
    match e {
      case SysKill(pid, start) =>
        KillKeeps(k, pid);
        SchedulerKeeps(Kill(k, pid).0, start);
      case SysExit(status, start) =>
        SetExitOnly(k, status);
        KinOnlyKeeps(k, SetExit(k, status));
        KillKeeps(SetExit(k, status), CurrentPid(k));
        SchedulerKeeps(Kill(SetExit(k, status), CurrentPid(k)).0, start);
    }
  }

  lemma SwitchKeeps(k: Kernel, e: Event)
    requires SchedInv(k) && Possible(k, e) && (e.Tick? || e.Yield? || e.SysSleep? || e.SysSemWait? || e.SysJoin? || e.Resume?)
    ensures SchedInv(Apply(k, e))
  {
    match e {
      case Tick(start) =>
        TimerTickKeeps(k);
        SchedulerKeeps(TimerTick(k), start);
      case Yield(start) => SchedulerKeeps(k, start);
      case SysSleep(seconds, start) =>
        SleepKeeps(k, seconds);
        SchedulerKeeps(Sleep(k, seconds).0, start);
      case SysSemWait(s, start) => SemWaitFromKeeps(k, InWait(s), start);
      case SysJoin(pid, start) => JoinKeeps(k, pid, start);
      case Resume(start) => SemWaitFromKeeps(k, k.conts[k.current], start);
    }
  }

  lemma ProcessCallKeeps(k: Kernel, e: Event)
    requires SchedInv(k) && Possible(k, e) && (e.SysBlock? || e.SysWake? || e.SysToggle? || e.SysPriority?)
    ensures SchedInv(Apply(k, e))
  {
    match e {
      case SysBlock(pid) => BlockKeeps(k, pid);
      case SysWake(pid) => WakeKeeps(k, pid);
      case SysToggle(pid) => ToggleKeeps(k, pid);
      case SysPriority(pid, priority) => ChangePriorityKeeps(k, pid, priority);
    }
  }

  lemma SemCallKeeps(k: Kernel, e: Event)
    requires SchedInv(k) && Possible(k, e) && (e.SysSemOpen? || e.SysSemClose? || e.SysSemPost?)
    ensures SchedInv(Apply(k, e))
  {
    match e {
      case SysSemOpen(value) => OtherFields(k, CreateSem(k, value).0);
      case SysSemClose(s) => DestroySemKeeps(k, s);
      case SysSemPost(s) => SemPostKeeps(k, s);
    }
  }

  lemma CreateCallKeeps(k: Kernel, e: Event)
    requires SchedInv(k) && Possible(k, e) && Careful(k, e) && (e.MainCreate? || e.SysCreate?)
    ensures SchedInv(Apply(k, e))
  {
    if e.MainCreate? {
      CreateKeeps(k, e.stack, true);
    } else {
      CreateKeeps(k, e.stack, e.foreground);
      var (k1, pid) := Create(k, e.stack, e.foreground);
      JoinKeeps(k1, AsPid(pid), e.start);
    }
  }

  lemma KeyKillKeeps(k: Kernel, e: Event)
    requires SchedInv(k) && Possible(k, e) && e.KeyKill?
    ensures SchedInv(Apply(k, e))
  {
    KillKeeps(k, e.pid);
  }

  /** Every kernel entry keeps the scheduler's invariant. */
  lemma StepKeeps(k: Kernel, e: Event)
    requires SchedInv(k) && Possible(k, e) && Careful(k, e)
    ensures SchedInv(Apply(k, e))
  {
    if e.SysBlock? || e.SysWake? || e.SysToggle? || e.SysPriority? {
      ProcessCallKeeps(k, e);
    } else if e.SysSemOpen? || e.SysSemClose? || e.SysSemPost? {
      SemCallKeeps(k, e);
    } else if e.MainCreate? || e.SysCreate? {
      CreateCallKeeps(k, e);
    } else if e.KeyKill? {
      KeyKillKeeps(k, e);
    } else if e.SysKill? || e.SysExit? {
      EndKeeps(k, e);
    } else {
      SwitchKeeps(k, e);
    }
  }

  ghost predicate CarefulRun(k: Kernel, es: seq<Event>)
    requires Sized(k)
    decreases |es|
  {
    es == [] || (Possible(k, es[0]) && Careful(k, es[0]) && CarefulRun(Apply(k, es[0]), es[1..]))
  }

  ghost function Run(k: Kernel, es: seq<Event>): (r: Kernel)
    requires Sized(k) && CarefulRun(k, es)
    ensures Sized(r)
    decreases |es|
  {
    if es == [] then k else Run(Apply(k, es[0]), es[1..])
  }

  /** In every state a run reaches, each ready process other than idle has an entry in the queue of its
      present priority, and only the current process is running. */
  lemma {:induction false} RunKeeps(k: Kernel, es: seq<Event>)
    requires SchedInv(k) && CarefulRun(k, es)
    ensures SchedInv(Run(k, es))
    decreases |es|
  {
    if es != [] {
      StepKeeps(k, es[0]);
      RunKeeps(Apply(k, es[0]), es[1..]);
    }
  }
}
