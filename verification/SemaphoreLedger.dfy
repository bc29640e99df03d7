/** What runs do to one semaphore: every post and every wait accounted for, in order. */
module SemaphoreLedger {
  import opened KernelState
  import opened KernelRuns
  import opened SchedulerProofs
  import opened SemaphoreRings
  import opened SemaphoreState
  import opened SemaphoreSteps
  import opened SemaphoreProofs
  import opened SemaphoreProgress
  import opened SemaphoreRuns

  // What one kernel entry does to semaphore s.
  datatype Act = Nothing | Post | Take | Wait(pid: nat)

  function WaitAct(k: Kernel, t: int, s: nat): Act
    requires Sized(k) && s < MAX_SEMAPHORES
  {
    if t != s then Nothing else if k.sems[s].value > 0 then Take else Wait(CurrentPid(k))
  }

  function KillAct(k: Kernel, pid: nat, s: nat): Act
    requires Sized(k)
  {
    if Kill(k, pid).1 == 0 && k.table[Slot(k, pid)].semWait == s then Post else Nothing
  }

  function ActOf(k: Kernel, e: Event, s: nat): Act
    requires Sized(k) && Possible(k, e) && s < MAX_SEMAPHORES
  {
    match e
    case SysSemPost(t) => if t == s then Post else Nothing
    case SysKill(pid, _) => KillAct(k, pid, s)
    case SysExit(_, _) => KillAct(k, CurrentPid(k), s)
    case KeyKill(pid) => if pid > 1 then KillAct(k, pid, s) else Nothing
    case SysSemWait(t, _) => WaitAct(k, t, s)
    case Resume(_) => WaitAct(k, k.conts[k.current].sem, s)
    case _ => Nothing
  }

  function AfterAct(x: Semaphore, a: Act): Semaphore
    requires SemSized(x) && (a.Take? ==> x.value > 0)
  {
    match a
    case Nothing => x
    case Post => Posted(x)
    case Take => x.(value := x.value - 1)
    case Wait(pid) => Queued(x, pid)
  }

  // ---------------------------------------------------------------- each entry acts at most once

  lemma PostActs(k: Kernel, t: int, s: nat)
    requires SchedInv(k) && s < MAX_SEMAPHORES && k.sems[s].used
    ensures SemPost(k, t).sems[s] == if t == s then Posted(k.sems[s]) else k.sems[s]
  {
    if !InvalidSem(k, t) {
      SemPostIs(k, t);
    }
  }

  lemma KillActs(k: Kernel, pid: nat, s: nat)
    requires SchedInv(k) && s < MAX_SEMAPHORES && k.sems[s].used
    ensures Kill(k, pid).0.sems[s] == AfterAct(k.sems[s], KillAct(k, pid, s))
  {
    if Kill(k, pid).1 == 0 {
      var i := Slot(k, pid);
      KillIs(k, pid);
      TerminateIs(k, i);
      TerminateKeeps(k, i);
      PostActs(Terminate(k, i), k.table[i].semWait, s);
    }
  }

  lemma DestroyActs(k: Kernel, t: int, s: nat)
    requires SchedInv(k) && SemInv(k) && s < MAX_SEMAPHORES && DestroySem(k, t).sems[s].used
    ensures DestroySem(k, t).sems[s] == k.sems[s]
  {
    if !InvalidSem(k, t) {
      DestroyUndisturbed(k, t);
    }
  }

  lemma WaitActs(k: Kernel, c: Cont, start: nat, s: nat)
    requires WaitInv(k) && start < PRIORITY_LEVELS && k.current != 0 && k.table[k.current].state == Running
    requires (c.InJoin? ==> c.child < MAX_PROCESSES) && (k.current in k.conts ==> k.conts[k.current] == c)
    requires s < MAX_SEMAPHORES && k.sems[s].used && SemWaitFrom(k, c, start).sems[s].used
    ensures SemWaitFrom(k, c, start).sems[s] == AfterAct(k.sems[s], WaitAct(k, c.sem, s))
  {
    SemWaitActs(k, c.sem, s);
    if SemWait(k, c.sem).1 {
      ReturnActs(k, c, start, s);
    } else {
      WaitStretch(k, c, start);
    }
  }

  lemma SemWaitActs(k: Kernel, t: int, s: nat)
    requires Sized(k) && s < MAX_SEMAPHORES && k.sems[s].used
    ensures SemWait(k, t).0.sems[s] == AfterAct(k.sems[s], WaitAct(k, t, s))
  {
    if !InvalidSem(k, t) {
      SemWaitIs(k, t);
    }
  }

  lemma ReturnActs(k: Kernel, c: Cont, start: nat, s: nat)
    requires WaitInv(k) && k.table[k.current].state == Running && SemWait(k, c.sem).1
    requires (c.InJoin? ==> c.child < MAX_PROCESSES) && (k.current in k.conts ==> k.conts[k.current] == c)
    requires start < PRIORITY_LEVELS && s < MAX_SEMAPHORES && SemWaitFrom(k, c, start).sems[s].used
    ensures SemWaitFrom(k, c, start).sems[s] == SemWait(k, c.sem).0.sems[s]
  {
    var k1 := SemWait(k, c.sem).0;
    if c.InJoin? {
      var k2 := k1.(conts := k1.conts - {k1.current});
      LeftKeeps(k, c);
      SemWaitKeeps(k, c.sem);
      OtherFields(k1, k2);
      DestroyActs(k2, k2.table[c.child].semWait, s);
    }
  }

  lemma JoinActs(k: Kernel, pid: nat, start: nat, s: nat)
    requires WaitInv(k) && start < PRIORITY_LEVELS && k.current != 0 && k.table[k.current].state == Running && k.current !in k.conts
    requires s < MAX_SEMAPHORES && k.sems[s].used
    requires WaitFor(k, pid, start).sems[s].used
    ensures WaitFor(k, pid, start).sems[s] == k.sems[s]
  {
    var (k1, t, i) := JoinBegin(k, pid);
    JoinBeginWaits(k, pid);
    if t != -1 {
      WaitActs(k1, InJoin(t, i), start, s);
    }
  }

  lemma SemCallActs(k: Kernel, e: Event, s: nat)
    requires WaitInv(k) && Possible(k, e) && (e.SysSemOpen? || e.SysSemClose? || e.SysSemPost?)
    requires s < MAX_SEMAPHORES && k.sems[s].used && Apply(k, e).sems[s].used
    ensures Apply(k, e).sems[s] == AfterAct(k.sems[s], ActOf(k, e, s))
  {
    match e {
      case SysSemOpen(value) =>
      case SysSemClose(t) => DestroyActs(k, t, s);
      case SysSemPost(t) => PostActs(k, t, s);
    }
  }

  lemma KillCallActs(k: Kernel, e: Event, s: nat)
    requires WaitInv(k) && Possible(k, e) && Respects(k, e) && (e.SysKill? || e.KeyKill? || e.SysExit?)
    requires s < MAX_SEMAPHORES && k.sems[s].used
    ensures Apply(k, e).sems[s] == AfterAct(k.sems[s], ActOf(k, e, s))
  {
    var k1 := KillState(k, e);
    var pid := Victim(k, e);
    KillStateWaits(k, e);
    KillCallWaits(k, e);
    KillActs(k1, pid, s);
    SameKill(k, k1, pid, s);
  }

  lemma SameKill(k: Kernel, k1: Kernel, pid: nat, s: nat)
    requires KinOnly(k, k1)
    ensures KillAct(k1, pid, s) == KillAct(k, pid, s)
  {
    forall j | 0 <= j < MAX_PROCESSES
      ensures k1.table[j].pid == k.table[j].pid && k1.table[j].semWait == k.table[j].semWait
    {
      assert SlotKin(k, k1, j);
    }
    SamePidsSameSlot(k.table, k1.table, pid, 0);
  }

  lemma CreateCallActs(k: Kernel, e: Event, s: nat)
    requires WaitInv(k) && Possible(k, e) && Careful(k, e) && Respects(k, e) && (e.MainCreate? || e.SysCreate?)
    requires s < MAX_SEMAPHORES && k.sems[s].used && Apply(k, e).sems[s].used
    ensures Apply(k, e).sems[s] == AfterAct(k.sems[s], ActOf(k, e, s))
  {
    var foreground := e.MainCreate? || e.foreground;
    CreateWaits(k, e.stack, foreground);
    if e.SysCreate? && foreground {
      var (k1, pid) := Create(k, e.stack, true);
      CreateKeeps(k, e.stack, true);
      CreatorStays(k, e.stack, true);
      JoinActs(k1, AsPid(pid), e.start, s);
    }
  }

  lemma SysSemWaitActs(k: Kernel, e: Event, s: nat)
    requires WaitInv(k) && Possible(k, e) && Respects(k, e) && e.SysSemWait? && s < MAX_SEMAPHORES && k.sems[s].used && Apply(k, e).sems[s].used
    ensures Apply(k, e).sems[s] == AfterAct(k.sems[s], ActOf(k, e, s))
  {
    WaitActs(k, InWait(e.sem), e.start, s);
  }

  lemma ResumeActs(k: Kernel, e: Event, s: nat)
    requires WaitInv(k) && Possible(k, e) && e.Resume? && s < MAX_SEMAPHORES && k.sems[s].used && Apply(k, e).sems[s].used
    ensures Apply(k, e).sems[s] == AfterAct(k.sems[s], ActOf(k, e, s))
  {
    WaitActs(k, k.conts[k.current], e.start, s);
  }

  lemma SysJoinActs(k: Kernel, e: Event, s: nat)
    requires WaitInv(k) && Possible(k, e) && Respects(k, e) && e.SysJoin? && s < MAX_SEMAPHORES && k.sems[s].used && Apply(k, e).sems[s].used
    ensures Apply(k, e).sems[s] == AfterAct(k.sems[s], ActOf(k, e, s))
  {
    if !(e.pid >= MAX_PROCESSES || e.pid == CurrentPid(k)) {
      JoinActs(k, e.pid, e.start, s);
    }
  }

  /** A kernel entry that leaves s in use changes it by at most one post, one completed wait or one arrival. */
  lemma StepActs(k: Kernel, e: Event, s: nat)
    requires WaitInv(k) && Possible(k, e) && Careful(k, e) && Respects(k, e)
    requires s < MAX_SEMAPHORES && k.sems[s].used && Apply(k, e).sems[s].used
    ensures Apply(k, e).sems[s] == AfterAct(k.sems[s], ActOf(k, e, s))
  {
    if e.SysBlock? || e.SysWake? || e.SysToggle? || e.SysPriority? {
      ProcessCallWaits(k, e);
    } else if e.Tick? || e.Yield? || e.SysSleep? {
      SwitchCallWaits(k, e);
    } else if e.MainCreate? || e.SysCreate? {
      CreateCallActs(k, e, s);
    } else if e.SysKill? || e.KeyKill? || e.SysExit? {
      KillCallActs(k, e, s);
    } else if e.SysSemOpen? || e.SysSemClose? || e.SysSemPost? {
      SemCallActs(k, e, s);
    } else if e.SysSemWait? {
      SysSemWaitActs(k, e, s);
    } else if e.SysJoin? {
      SysJoinActs(k, e, s);
    } else {
      ResumeActs(k, e, s);
    }
  }

  // ---------------------------------------------------------------- the ledger of a run

  // s is in use all along the run.
  ghost predicate StaysOpen(k: Kernel, es: seq<Event>, s: nat)
    requires Sized(k) && RespectfulRun(k, es) && s < MAX_SEMAPHORES
    decreases |es|
  {
    k.sems[s].used && (es == [] || StaysOpen(Apply(k, es[0]), es[1..], s))
  }

  ghost function Posts(k: Kernel, es: seq<Event>, s: nat): nat
    requires Sized(k) && RespectfulRun(k, es) && s < MAX_SEMAPHORES
    decreases |es|
  {
    if es == [] then 0 else (if ActOf(k, es[0], s).Post? then 1 else 0) + Posts(Apply(k, es[0]), es[1..], s)
  }

  ghost function CompletedWaits(k: Kernel, es: seq<Event>, s: nat): nat
    requires Sized(k) && RespectfulRun(k, es) && s < MAX_SEMAPHORES
    decreases |es|
  {
    if es == [] then 0 else (if ActOf(k, es[0], s).Take? then 1 else 0) + CompletedWaits(Apply(k, es[0]), es[1..], s)
  }

  /** Those who queued up on s, in order. */
  ghost function Arrivals(k: Kernel, es: seq<Event>, s: nat): seq<nat>
    requires Sized(k) && RespectfulRun(k, es) && s < MAX_SEMAPHORES
    decreases |es|
  {
    if es == [] then [] else (match ActOf(k, es[0], s) case Wait(pid) => [pid] case _ => []) + Arrivals(Apply(k, es[0]), es[1..], s)
  }

  /** Those whom posts to s woke, in order. */
  ghost function Wakes(k: Kernel, es: seq<Event>, s: nat): seq<nat>
    requires Sized(k) && RespectfulRun(k, es) && s < MAX_SEMAPHORES
    decreases |es|
  {
    if es == [] then [] else
    (if ActOf(k, es[0], s).Post? && Queue(k.sems[s]) != [] then [Queue(k.sems[s])[0]] else []) + Wakes(Apply(k, es[0]), es[1..], s)
  }

  // A wait that has to queue up finds room.
  lemma ArrivalFits(k: Kernel, e: Event, s: nat)
    requires WaitInv(k) && Possible(k, e) && Respects(k, e) && s < MAX_SEMAPHORES && ActOf(k, e, s).Wait?
    ensures Waiters(k.sems[s]) < MAX_PROCESSES - 1 && ActOf(k, e, s).pid != NOT_A_PROCESS
  {
    RunningIsNotQueued(k, s);
    RingHasRoom(k, s);
  }

  lemma ActQueue(x: Semaphore, a: Act)
    requires SemSized(x) && RingOk(x) && (a.Take? ==> x.value > 0)
    requires a.Wait? ==> Waiters(x) < MAX_PROCESSES - 1 && a.pid != NOT_A_PROCESS
    ensures SemSized(AfterAct(x, a))
    ensures var y := AfterAct(x, a);
      Queue(x) + (match a case Wait(pid) => [pid] case _ => []) == (if a.Post? && Queue(x) != [] then [Queue(x)[0]] else []) + Queue(y)
    ensures AfterAct(x, a).value == x.value + (if a.Post? then 1 else 0) - (if a.Take? then 1 else 0)
  {
    match a {
      case Nothing =>
      case Post => PostTakesHead(x);
      case Take => assert Queue(AfterAct(x, a)) == Queue(x);
      case Wait(pid) => WaitAppends(x, pid);
    }
  }

  lemma JoinSeqs(q: seq<nat>, a: seq<nat>, w: seq<nat>, q1: seq<nat>, as1: seq<nat>, ws: seq<nat>, q2: seq<nat>)
    requires q + a == w + q1 && q1 + as1 == ws + q2
    ensures q + (a + as1) == (w + ws) + q2
  {
    assert q + (a + as1) == (q + a) + as1;
    assert (w + q1) + as1 == w + (q1 + as1);
    assert w + (ws + q2) == (w + ws) + q2;
  }

  /** Along a run that keeps s open, its value is what it was plus the posts minus the completed waits, and
      those it woke followed by those still queued are those queued at first followed by the arrivals. */
  lemma {:induction false} RunConserves(k: Kernel, es: seq<Event>, s: nat)
    requires WaitInv(k) && RespectfulRun(k, es) && CarefulRun(k, es) && s < MAX_SEMAPHORES && StaysOpen(k, es, s)
    ensures Run(k, es).sems[s].value == k.sems[s].value + Posts(k, es, s) - CompletedWaits(k, es, s)
    ensures Queue(k.sems[s]) + Arrivals(k, es, s) == Wakes(k, es, s) + Queue(Run(k, es).sems[s])
    decreases |es|
  {
    var x := k.sems[s];
    if es != [] {
      var e := es[0];
      var k1 := Apply(k, e);
      var a := ActOf(k, e, s);
      StepKeepsWaits(k, e);
      assert StaysOpen(k1, es[1..], s);
      StepActs(k, e, s);
      assert RingOk(x);
      if a.Wait? {
        ArrivalFits(k, e, s);
      }
      ActQueue(x, a);
      RunConserves(k1, es[1..], s);
      JoinSeqs(Queue(x), match a case Wait(pid) => [pid] case _ => [], if a.Post? && Queue(x) != [] then [Queue(x)[0]] else [],
               Queue(k1.sems[s]), Arrivals(k1, es[1..], s), Wakes(k1, es[1..], s), Queue(Run(k, es).sems[s]));
    } else {
      assert Queue(x) + [] == [] + Queue(x);
    }
  }

  // ---------------------------------------------------------------- killed waiters

  /** A post to a semaphore with a queue leaves the head ready exactly when it was blocked, and not before
      a sleeping deadline of its own; a waiter killed in the meantime swallows the wake-up, though the value
      goes up and the queue moves on all the same. */
  lemma PostWakesExactlyWhen(k: Kernel, s: nat)
    requires SchedInv(k) && s < MAX_SEMAPHORES && k.sems[s].used && RingOk(k.sems[s]) && Queue(k.sems[s]) != []
    requires Slot(k, Queue(k.sems[s])[0]) < MAX_PROCESSES
    ensures var pid := Queue(k.sems[s])[0]; var p := k.table[Slot(k, pid)];
      SemPost(k, s).table[Slot(k, pid)].state == Ready <==>
      p.state == Ready || (p.state == Blocked && (p.previous == Ready || (p.previous == Sleeping && Expire(k, pid).1)))
    ensures SemPost(k, s).sems[s].value == k.sems[s].value + 1 && Queue(SemPost(k, s).sems[s]) == Queue(k.sems[s])[1..]
  {
    PostTakesHead(k.sems[s]);
    SemPostIs(k, s);
  }
}
