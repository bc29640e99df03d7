/** How the kernel starts up, as runs from its first state to a few processes, for the concrete runs of
    KernelWitnesses. */
module KernelStart {
  import opened KernelState
  import opened KernelRuns
  import opened SchedulerProofs

  // ---------------------------------------------------------------- kernels with a few processes

  // The first slots hold processes in the given states, all of the first priority and nobody waiting for
  // them, and the other slots none.
  ghost predicate Holds(k: Kernel, ps: seq<PState>)
    requires Sized(k)
  {
    && 1 <= |ps| <= 8 && ps[0] == Ready && k.nextPid == |ps|
    && (forall i :: 0 <= i < |ps| ==> HoldsAt(k, i, ps[i]))
    && (forall i :: |ps| <= i < MAX_PROCESSES ==> k.table[i].pid == 0 && k.table[i].state == Terminated)
  }

  predicate HoldsAt(k: Kernel, i: nat, s: PState)
    requires Sized(k) && i < MAX_PROCESSES
  {
    var p := k.table[i];
    p.pid == i && p.state == s && p.priority == 0 && p.semWait == -1
  }

  /** Nobody awaits cleanup, and the first queue holds these slots. */
  ghost predicate Looks(k: Kernel, ps: seq<PState>, ready: seq<nat>, current: nat) {
    && Sized(k) && Holds(k, ps) && k.ready == [ready, [], []] && k.current == current < |ps|
    && k.dead == [] && k.system && !k.firstSwitch
  }

  /** Nobody sleeps or waits, no semaphore is open, and nobody has many children. */
  ghost predicate Quiet(k: Kernel)
    requires Sized(k)
  {
    && k.conts == map[] && k.sleepers == Boot().sleepers && k.sems == Boot().sems
    && forall i :: 0 <= i < MAX_PROCESSES ==> |k.table[i].kin.kids| <= k.nextPid
  }

  lemma SlotHeld(k: Kernel, ps: seq<PState>, i: nat)
    requires Sized(k) && Holds(k, ps) && i < |ps|
    ensures Slot(k, i) == i
  {
    assert HoldsAt(k, i, ps[i]);
    var j := Slot(k, i);
    assert j <= i;
    assert HoldsAt(k, j, ps[j]);
  }

  lemma {:induction false} NobodyToWake(k: Kernel, n: nat)
    requires Sized(k) && n <= MAX_PROCESSES && k.sleepers == Boot().sleepers
    ensures WakeSleepers(k, n) == k
    decreases n
  {
    if n > 0 {
      NobodyToWake(k, n - 1);
    }
  }

  // The first entry of the first queue is picked.
  lemma PicksHead(k: Kernel, x: nat, rest: seq<nat>)
    requires Sized(k) && k.ready[0] == [x] + rest && x < MAX_PROCESSES && k.table[x].state == Ready && k.table[x].priority == 0
    ensures GetNext(k, 0) == SetPcb(k, x, k.table[x].(state := Running)).(ready := k.ready[0 := rest], current := x)
  {
    assert k.ready[0][0] == x && k.ready[0][1..] == rest;
    assert Runnable(k, 0, x);
  }

  /** A run from the start leads to k. */
  ghost predicate Leads(es: seq<Event>, k: Kernel) {
    Sized(k) && forall fs :: CarefulRun(k, fs) ==> CarefulRun(Boot(), es + fs) && Run(Boot(), es + fs) == Run(k, fs)
  }

  lemma LeadsThere(es: seq<Event>, k: Kernel)
    requires Leads(es, k)
    ensures CarefulRun(Boot(), es) && Run(Boot(), es) == k
  {
    assert CarefulRun(k, []) && es + [] == es;
  }

  lemma RunHead(k: Kernel, e: Event, es: seq<Event>, all: seq<Event>, k1: Kernel)
    requires Sized(k) && Possible(k, e) && Careful(k, e) && k1 == Apply(k, e) && all == [e] + es && CarefulRun(k1, es)
    ensures CarefulRun(k, all) && Run(k, all) == Run(k1, es)
  {
    assert all[0] == e && all[1..] == es;
  }

  lemma LeadsOn(es: seq<Event>, k: Kernel, e: Event, k1: Kernel)
    requires Leads(es, k) && Possible(k, e) && Careful(k, e) && k1 == Apply(k, e)
    ensures Leads(es + [e], k1)
  {
    forall fs | CarefulRun(k1, fs)
      ensures CarefulRun(Boot(), es + [e] + fs) && Run(Boot(), es + [e] + fs) == Run(k1, fs)
    {
      RunHead(k, e, fs, [e] + fs, k1);
      assert es + [e] + fs == es + ([e] + fs);
    }
  }

  lemma BootLeads()
    ensures Leads([], Boot())
  {
    assert forall fs: seq<Event> :: [] + fs == fs;
  }

  lemma HeldAt(k: Kernel, ps: seq<PState>, i: nat)
    requires Sized(k) && Holds(k, ps) && i < |ps|
    ensures HoldsAt(k, i, ps[i])
  {
  }

  lemma SameHolds(k: Kernel, r: Kernel, ps: seq<PState>)
    requires Sized(k) && Sized(r) && Holds(k, ps) && r.table == k.table && r.nextPid == k.nextPid
    ensures Holds(r, ps)
  {
    forall i | 0 <= i < |ps|
      ensures HoldsAt(r, i, ps[i])
    {
      HeldAt(k, ps, i);
    }
  }

  // ---------------------------------------------------------------- steps

  // Slots keep what the states do not say.
  lemma Changed(k: Kernel, r: Kernel, ps: seq<PState>, qs: seq<PState>)
    requires Sized(k) && Sized(r) && Holds(k, ps) && r.nextPid == k.nextPid && |qs| == |ps| && qs[0] == Ready
    requires forall i :: 0 <= i < |ps| ==> r.table[i] == k.table[i].(state := qs[i])
    requires forall i :: |ps| <= i < MAX_PROCESSES ==> r.table[i] == k.table[i]
    ensures Holds(r, qs)
  {
    forall i | 0 <= i < |qs|
      ensures HoldsAt(r, i, qs[i])
    {
      assert HoldsAt(k, i, ps[i]);
    }
  }

  lemma SetNextIs(k: Kernel, c: nat)
    requires Sized(k) && c == k.current && c != 0 && k.table[c].state == Running && k.table[c].pid != 0 && k.table[c].priority == 0 && !k.firstSwitch
    ensures SetNext(k) == SetPcb(k, c, k.table[c].(state := Ready)).(ready := k.ready[0 := k.ready[0] + [c]])
  {
  }

  // The current process joins the first queue, and its head is picked.
  lemma SwitchIs(k: Kernel, c: nat, x: nat, rest: seq<nat>)
    requires Sized(k) && c == k.current && k.table[c].state == Running && k.table[c].pid != 0 && k.table[c].priority == 0 && !k.firstSwitch
    requires k.ready[0] == [x] + rest && x < MAX_PROCESSES && x != c && k.table[x].state == Ready && k.table[x].priority == 0 && c != 0
    requires k.dead == [] && k.system && k.count > 1
    ensures Scheduler(k, 0) == k.(table := k.table[c := k.table[c].(state := Ready)][x := k.table[x].(state := Running)],
                                  ready := k.ready[0 := rest + [c]], current := x)
  {
    SetNextIs(k, c);
    var k1 := SetPcb(k, c, k.table[c].(state := Ready)).(ready := k.ready[0 := k.ready[0] + [c]]);
    assert [x] + rest + [c] == [x] + (rest + [c]);
    PicksHead(k1, x, rest + [c]);
    assert k1.ready[0 := rest + [c]] == k.ready[0 := rest + [c]];
    assert FreeTerminated(k) == k;
    assert SetNext(k) == k1;
    assert Scheduler(k, 0) == GetNext(k1, 0);
  }

  /** A switch from one process to the next in the queue. */
  lemma SwitchLooks(k: Kernel, ps: seq<PState>, c: nat, x: nat, rest: seq<nat>, qs: seq<PState>)
    requires Looks(k, ps, [x] + rest, c) && 1 <= c && x < |ps| && c != x && k.count > 1
    requires ps[c] == Running && ps[x] == Ready && qs == ps[c := Ready][x := Running] && x != 0
    ensures Looks(Scheduler(k, 0), qs, rest + [c], x)
    ensures Scheduler(k, 0) == k.(table := Scheduler(k, 0).table, ready := [rest + [c], [], []], current := x)
  {
    assert HoldsAt(k, c, ps[c]) && HoldsAt(k, x, ps[x]);
    SwitchIs(k, c, x, rest);
    var r := Scheduler(k, 0);
    forall i | 0 <= i < |ps|
      ensures r.table[i] == k.table[i].(state := qs[i])
    {
      assert HoldsAt(k, i, ps[i]);
    }
    Changed(k, r, ps, qs);
  }

  lemma ClaimedHolds(k: Kernel, r: Kernel, ps: seq<PState>, qs: seq<PState>)
    requires Sized(k) && Sized(r) && Holds(k, ps) && |ps| < 8 && ClaimedIn(k, r, |ps|, true) && r.nextPid == |ps| + 1
    requires qs == ps + [Ready]
    ensures Holds(r, qs)
  {
    forall i | 0 <= i < |qs|
      ensures HoldsAt(r, i, qs[i])
    {
      if i < |ps| {
        assert HoldsAt(k, i, ps[i]);
        assert SlotKin(k, r, i);
      }
    }
    forall i | |qs| <= i < MAX_PROCESSES
      ensures r.table[i].pid == 0 && r.table[i].state == Terminated
    {
      assert SlotKin(k, r, i);
    }
  }

  lemma HandOverKids(k: Kernel, foreground: bool, i: nat)
    requires Sized(k) && i < MAX_PROCESSES
    ensures HandOver(k, foreground).table[i].kin.kids == k.table[i].kin.kids
  {
  }

  // Whom a creation gives children to.
  lemma CreateKids(k: Kernel, n: nat, foreground: bool, i: nat)
    requires Sized(k) && Claims(k) && !ClaimFails(k, true) && n == FindTerminated(k.table, 1) && n != k.current && i < MAX_PROCESSES
    ensures var r := Create(k, true, foreground).0;
      && r.table[n].kin.kids == [] && |r.table[i].kin.kids| <= |k.table[i].kin.kids| + 1
  {
    HandOverKids(k, foreground, i);
    HandOverKids(k, foreground, k.current);
    var k1 := Claim(HandOver(k, foreground), n, true, foreground && k.table[k.current].kin.foreground);
    assert |k1.table[i].kin.kids| <= |k.table[i].kin.kids|;
    AdmitKids(k1, n, i);
    assert Create(k, true, foreground).0 == Admit(k1, n);
  }

  lemma AdmitKids(k: Kernel, n: nat, i: nat)
    requires Sized(k) && n < MAX_PROCESSES && n != k.current && i < MAX_PROCESSES
    ensures var r := Admit(k, n); r.table[n].kin.kids == k.table[n].kin.kids && |r.table[i].kin.kids| <= |k.table[i].kin.kids| + 1
  {
  }

  lemma NextSlot(k: Kernel, ps: seq<PState>)
    requires Sized(k) && Holds(k, ps) && forall i :: 1 <= i < |ps| ==> ps[i] != Terminated
    ensures FindTerminated(k.table, 1) == |ps|
  {
    var n := FindTerminated(k.table, 1);
    assert k.table[|ps|].state == Terminated;
    assert 1 <= n < |ps| ==> HoldsAt(k, n, ps[n]);
  }

  /** A creation that succeeds. */
  lemma CreateHolds(k: Kernel, ps: seq<PState>, foreground: bool)
    requires Sized(k) && Holds(k, ps) && |ps| < 8 && k.count < 8 && k.current < |ps| && Quiet(k)
    requires forall i :: 1 <= i < |ps| ==> ps[i] != Terminated
    ensures var r := Create(k, true, foreground).0;
      && r == k.(table := r.table, ready := k.ready[0 := k.ready[0] + [|ps|]], nextPid := |ps| + 1, count := k.count + 1,
                 foreground := r.foreground)
      && Holds(r, ps + [Ready]) && Quiet(r)
    ensures !LosesSlot(k, true) && Create(k, true, foreground).1 == |ps|
  {
    var n := |ps|;
    NextSlot(k, ps);
    assert k.conts - {n} == map[];
    var r := Create(k, true, foreground).0;
    CreateIs(k, true, foreground);
    CreateQuiet(k, n, foreground, r);
    ClaimedHolds(k, r, ps, ps + [Ready]);
  }

  lemma CreateQuiet(k: Kernel, n: nat, foreground: bool, r: Kernel)
    requires Sized(k) && Quiet(k) && Claims(k) && !ClaimFails(k, true) && n == FindTerminated(k.table, 1) && n != k.current
    requires Sized(r) && r == Create(k, true, foreground).0 && r.nextPid == k.nextPid + 1 && r.conts == map[]
    requires r.sleepers == k.sleepers && r.sems == k.sems
    ensures Quiet(r)
  {
    forall i | 0 <= i < MAX_PROCESSES
      ensures |r.table[i].kin.kids| <= |k.table[i].kin.kids| + 1
    {
      CreateKids(k, n, foreground, i);
    }
  }

  /** Another child of the process that runs. */
  lemma ChildLooks(k: Kernel, ps: seq<PState>, ready: seq<nat>)
    requires Looks(k, ps, ready, k.current) && Quiet(k) && |ps| < 8 && k.count < 8 && ps[k.current] == Running
    requires forall i :: 1 <= i < |ps| ==> ps[i] != Terminated
    ensures var e := SysCreate(true, false, 0);
      && Possible(k, e) && Careful(k, e) && Looks(Apply(k, e), ps + [Ready], ready + [|ps|], k.current)
      && Quiet(Apply(k, e)) && Apply(k, e).count == k.count + 1 && Apply(k, e).ticks == k.ticks
  {
    assert HoldsAt(k, k.current, ps[k.current]);
    CreateHolds(k, ps, false);
  }

  // ---------------------------------------------------------------- starting up

  // Nothing has run: the states, and who is in the first queue.
  ghost predicate Fresh(k: Kernel, ps: seq<PState>, ready: seq<nat>) {
    && Sized(k) && Holds(k, ps) && k.ready == [ready, [], []] && k.current == 0
    && k.dead == [] && k.system && k.firstSwitch && Quiet(k)
  }

  lemma BootIsFresh()
    ensures Fresh(Boot(), [Ready], []) && Boot().count == 1
  {
    assert HoldsAt(Boot(), 0, Ready);
  }

  lemma ShellIsCreated(k: Kernel)
    requires Fresh(k, [Ready], []) && k.count == 1
    ensures var e := MainCreate(true);
      Possible(k, e) && Careful(k, e) && Fresh(Apply(k, e), [Ready, Ready], [1]) && Apply(k, e).count == 2
      && Apply(k, e).ticks == k.ticks
  {
    CreateHolds(k, [Ready], true);
    assert [Ready] + [Ready] == [Ready, Ready] && [] + [1] == [1];
  }

  lemma FirstSwitchIs(k: Kernel)
    requires Fresh(k, [Ready, Ready], [1]) && k.count == 2
    ensures Scheduler(k, 0) ==
      k.(table := k.table[1 := k.table[1].(state := Running)], ready := [[], [], []], current := 1, firstSwitch := false)
  {
    var k1 := k.(firstSwitch := false);
    HeldAt(k, [Ready, Ready], 1);
    assert [1] == [1] + [];
    PicksHead(k1, 1, []);
    assert k1.ready[0 := []] == [[], [], []];
    assert FreeTerminated(k) == k && SetNext(k) == k1;
  }

  lemma ShellGetsProcessor(k: Kernel)
    requires Fresh(k, [Ready, Ready], [1]) && k.count == 2
    ensures Looks(Scheduler(k, 0), [Ready, Running], [], 1) && Scheduler(k, 0).count == 2 && Quiet(Scheduler(k, 0))
    ensures Scheduler(k, 0).ticks == k.ticks
  {
    FirstSwitchIs(k);
    var r := Scheduler(k, 0);
    HeldAt(k, [Ready, Ready], 0);
    HeldAt(k, [Ready, Ready], 1);
    Changed(k, r, [Ready, Ready], [Ready, Running]);
    assert forall i :: 0 <= i < MAX_PROCESSES ==> r.table[i].kin == k.table[i].kin;
  }

  lemma QuietTick(k: Kernel, n: nat)
    requires Sized(k) && n == |k.sleepers| && k.sleepers == Boot().sleepers
    ensures TimerTick(k) == k.(ticks := k.ticks + 1)
  {
    NobodyToWake(k.(ticks := k.ticks + 1), n);
    TimerTickIs(k, n);
  }

  /** The shell is created and gets the processor at the first tick. */
  lemma ShellStarts() returns (k: Kernel)
    ensures Leads([MainCreate(true), Tick(0)], k) && Looks(k, [Ready, Running], [], 1) && k.count == 2 && Quiet(k) && k.ticks == 1
  {
    BootLeads();
    BootIsFresh();
    ShellIsCreated(Boot());
    var k1 := Apply(Boot(), MainCreate(true));
    LeadsOn([], Boot(), MainCreate(true), k1);
    k := FirstTick([] + [MainCreate(true)], k1);
    assert [] + [MainCreate(true)] + [Tick(0)] == [MainCreate(true), Tick(0)];
  }

  lemma FirstTick(es: seq<Event>, k: Kernel) returns (r: Kernel)
    requires Leads(es, k) && Fresh(k, [Ready, Ready], [1]) && k.count == 2
    ensures Leads(es + [Tick(0)], r) && Looks(r, [Ready, Running], [], 1) && r.count == 2 && Quiet(r) && r.ticks == k.ticks + 1
  {
    QuietTick(k, |k.sleepers|);
    var k1 := k.(ticks := k.ticks + 1);
    SameHolds(k, k1, [Ready, Ready]);
    ShellGetsProcessor(k1);
    r := Scheduler(k1, 0);
    LeadsOn(es, k, Tick(0), r);
  }

  function OneChild(): seq<Event> { [MainCreate(true), Tick(0)] + [SysCreate(true, false, 0)] }

  function TwoChildren(): seq<Event> { OneChild() + [SysCreate(true, false, 0)] }

  lemma ChildStarts(es: seq<Event>, k: Kernel, ps: seq<PState>, ready: seq<nat>) returns (r: Kernel)
    requires Leads(es, k) && Looks(k, ps, ready, 1) && Quiet(k) && |ps| < 8 && k.count < 8 && ps[1] == Running
    requires forall i :: 1 <= i < |ps| ==> ps[i] != Terminated
    ensures Leads(es + [SysCreate(true, false, 0)], r) && Looks(r, ps + [Ready], ready + [|ps|], 1) && Quiet(r)
    ensures r.count == k.count + 1 && r.ticks == k.ticks
  {
    ChildLooks(k, ps, ready);
    r := Apply(k, SysCreate(true, false, 0));
    LeadsOn(es, k, SysCreate(true, false, 0), r);
  }

  lemma OneChildStarts() returns (k: Kernel)
    ensures Leads(OneChild(), k) && Looks(k, [Ready, Running, Ready], [2], 1) && Quiet(k) && k.count == 3 && k.ticks == 1
  {
    var k1 := ShellStarts();
    k := ChildStarts([MainCreate(true), Tick(0)], k1, [Ready, Running], []);
    assert [Ready, Running] + [Ready] == [Ready, Running, Ready] && [] + [2] == [2];
  }

  lemma TwoChildrenStart() returns (k: Kernel)
    ensures Leads(TwoChildren(), k) && Looks(k, [Ready, Running, Ready, Ready], [2, 3], 1) && Quiet(k) && k.count == 4 && k.ticks == 1
  {
    var k1 := OneChildStarts();
    k := ChildStarts(OneChild(), k1, [Ready, Running, Ready], [2]);
    assert [Ready, Running, Ready] + [Ready] == [Ready, Running, Ready, Ready] && [2] + [3] == [2, 3];
  }
}
