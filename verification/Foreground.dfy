/** Fathers, children and the foreground: who gets what when a process is created or ends, and that one live
    process has the foreground. */
module Foreground {
  import opened KernelState
  import opened KernelRuns
  import opened SchedulerProofs
  import opened Households

  // ---------------------------------------------------------------- adoption

  // How many of n children idle can take when it has so many.
  function Room(has: nat, n: nat): (m: nat)
    ensures m <= n
  {
    if has >= MAX_CHILDREN then 0 else if n <= MAX_CHILDREN - has then n else MAX_CHILDREN - has
  }

  // Kin x of slot i once these children have been given to idle.
  function Adopting(x: Kin, i: nat, kids: seq<nat>): Kin {
    x.(father := if i in kids then 0 else x.father, kids := if i == 0 then x.kids + kids else x.kids)
  }

  ghost predicate Adopted(k: Kernel, r: Kernel, kids: seq<nat>) {
    && Sized(k) && Sized(r) && r.foreground == k.foreground
    && forall i :: 0 <= i < MAX_PROCESSES ==> r.table[i].kin == Adopting(k.table[i].kin, i, kids)
  }

  /** The children that fit become idle's, in order, and idle their father; nobody else's kin changes. */
  lemma {:induction false} AdoptGives(k: Kernel, kids: seq<nat>, r: Kernel)
    requires Sized(k) && (forall j :: 0 <= j < |kids| ==> kids[j] < MAX_PROCESSES) && r == Adopt(k, kids)
    ensures Adopted(k, r, kids[..Room(|k.table[0].kin.kids|, |kids|)])
    decreases |kids|
  {
    var m := Room(|k.table[0].kin.kids|, |kids|);
    if kids == [] {
      AdoptedNone(k);
      assert kids[..m] == [];
    } else {
      var k1 := AdoptOne(k, kids[0]);
      AdoptGives(k1, kids[1..], r);
      AdoptsFirst(k, kids, k1, r);
    }
  }

  lemma AdoptedNone(k: Kernel)
    requires Sized(k)
    ensures Adopted(k, k, [])
  {
    assert k.table[0].kin.kids + [] == k.table[0].kin.kids;
  }

  lemma AdoptsFirst(k: Kernel, kids: seq<nat>, k1: Kernel, r: Kernel)
    requires Sized(k) && kids != [] && kids[0] < MAX_PROCESSES && k1 == AdoptOne(k, kids[0])
    requires Adopted(k1, r, kids[1..][..Room(|k1.table[0].kin.kids|, |kids| - 1)])
    ensures Adopted(k, r, kids[..Room(|k.table[0].kin.kids|, |kids|)])
  {
    var m := Room(|k.table[0].kin.kids|, |kids|);
    if |k.table[0].kin.kids| >= MAX_CHILDREN {
      assert kids[..m] == [] && kids[1..][..Room(|k1.table[0].kin.kids|, |kids| - 1)] == [];
    } else {
      assert kids[..m] == [kids[0]] + kids[1..][..m - 1];
      AdoptedOne(k, kids[0]);
      AdoptedOn(k, k1, r, [kids[0]], kids[1..][..m - 1]);
    }
  }

  lemma AdoptedOne(k: Kernel, child: nat)
    requires Sized(k) && child < MAX_PROCESSES && |k.table[0].kin.kids| < MAX_CHILDREN
    ensures Adopted(k, AdoptOne(k, child), [child])
  {
  }

  lemma AdoptedOn(k: Kernel, k1: Kernel, r: Kernel, a: seq<nat>, b: seq<nat>)
    requires Adopted(k, k1, a) && Adopted(k1, r, b)
    ensures Adopted(k, r, a + b)
  {
    assert (k.table[0].kin.kids + a) + b == k.table[0].kin.kids + (a + b);
  }

  // ---------------------------------------------------------------- the end of a process

  // Kin x of slot i after the end of a process with kin v whose children idle takes so many of.
  function Bereaved(x: Kin, i: nat, v: Kin, taken: seq<nat>): Kin {
    Adopting(x.(foreground := x.foreground || (v.foreground && i == v.father)), i, taken)
  }

  lemma GiveBackIs(k: Kernel, i: nat, n: nat)
    requires Sized(k) && i < MAX_PROCESSES && n < MAX_PROCESSES
    ensures var v := k.table[i].kin; var r := GiveBack(k, i); var x := k.table[n].kin;
      && r.table[n].kin == x.(foreground := x.foreground || (v.foreground && n == v.father))
      && r.foreground == if v.foreground then k.table[v.father].pid else k.foreground
  {
  }

  lemma TerminateGives(k: Kernel, i: nat)
    requires Sized(k) && i < MAX_PROCESSES
    ensures var r := Terminate(k, i); var v := k.table[i].kin;
      && r.table[i].state == Terminated
      && r.foreground == (if v.foreground then k.table[v.father].pid else k.foreground)
      && forall n :: 0 <= n < MAX_PROCESSES ==>
          r.table[n].kin == Bereaved(k.table[n].kin, n, v, v.kids[..Room(|k.table[0].kin.kids|, |v.kids|)])
  {
    var v := k.table[i].kin;
    var k2 := GiveBack(Fallen(k, i), i);
    FallenGives(k, i);
    TerminateIs(k, i);
    SameRoom(k, v, k2);
    AdoptGives(k2, v.kids, Terminate(k, i));
    AfterAdoption(k, v, k2, Terminate(k, i), v.kids[..Room(|k.table[0].kin.kids|, |v.kids|)]);
  }

  lemma SameRoom(k: Kernel, v: Kin, k2: Kernel)
    requires Sized(k) && Sized(k2) && k2.table[0].kin == Bereaved(k.table[0].kin, 0, v, [])
    ensures k2.table[0].kin.kids == k.table[0].kin.kids
  {
  }

  lemma FallenGives(k: Kernel, i: nat)
    requires Sized(k) && i < MAX_PROCESSES
    ensures var v := k.table[i].kin; var r := GiveBack(Fallen(k, i), i);
      && r.foreground == (if v.foreground then k.table[v.father].pid else k.foreground)
      && forall n :: 0 <= n < MAX_PROCESSES ==> r.table[n].kin == Bereaved(k.table[n].kin, n, v, [])
  {
    forall n | 0 <= n < MAX_PROCESSES
      ensures GiveBack(Fallen(k, i), i).table[n].kin == Bereaved(k.table[n].kin, n, k.table[i].kin, [])
    {
      GiveBackIs(Fallen(k, i), i, n);
      assert k.table[n].kin.kids + [] == k.table[n].kin.kids;
    }
  }

  lemma AfterAdoption(k: Kernel, v: Kin, k2: Kernel, r: Kernel, taken: seq<nat>)
    requires Sized(k) && Sized(k2) && Adopted(k2, r, taken)
    requires forall n :: 0 <= n < MAX_PROCESSES ==> k2.table[n].kin == Bereaved(k.table[n].kin, n, v, [])
    ensures forall n :: 0 <= n < MAX_PROCESSES ==> r.table[n].kin == Bereaved(k.table[n].kin, n, v, taken)
  {
    forall n | 0 <= n < MAX_PROCESSES
      ensures r.table[n].kin == Bereaved(k.table[n].kin, n, v, taken)
    {
      assert k.table[n].kin.kids + [] == k.table[n].kin.kids;
    }
  }

  /** The end of a process that had the foreground gives it to its father; its children, as far as idle has room for
      them, become idle's; nobody else's kin changes. */
  lemma KillGivesBack(k: Kernel, pid: nat)
    requires SchedInv(k) && Kill(k, pid).1 == 0
    ensures Slot(k, pid) < MAX_PROCESSES
    ensures var i := Slot(k, pid); var r := Kill(k, pid).0; var v := k.table[i].kin;
      && r.table[i].state == Terminated
      && r.foreground == (if v.foreground then k.table[v.father].pid else k.foreground)
      && forall n :: 0 <= n < MAX_PROCESSES ==>
          r.table[n].kin == Bereaved(k.table[n].kin, n, v, v.kids[..Room(|k.table[0].kin.kids|, |v.kids|)])
  {
    var i := Slot(k, pid);
    TerminateGives(k, i);
    KillIs(k, pid);
    TerminateKeeps(k, i);
    assert PostsFor(Terminate(k, i), k.table[i].semWait, Kill(k, pid).0);
    KillPosts(k, i, Terminate(k, i), Kill(k, pid).0);
  }

  // The victim is queued for cleanup and whoever waits for it is woken.
  ghost predicate PostsFor(t: Kernel, s: int, r: Kernel)
    requires Sized(t)
  {
    r == (if s != -1 then SemPost(t, s) else t).(dead := r.dead)
  }

  lemma KillPosts(k: Kernel, i: nat, t: Kernel, r: Kernel)
    requires SchedInv(t) && i < MAX_PROCESSES && t.table[i].state == Terminated
    requires exists s :: PostsFor(t, s, r)
    ensures r.table[i].state == Terminated && r.foreground == t.foreground
    ensures forall n :: 0 <= n < MAX_PROCESSES ==> r.table[n].kin == t.table[n].kin && r.table[n].pid == t.table[n].pid
    ensures forall n :: 0 <= n < MAX_PROCESSES ==> (r.table[n].state == Terminated <==> t.table[n].state == Terminated)
  {
    var s :| PostsFor(t, s, r);
    SemPostSame(t, s);
    forall n | 0 <= n < MAX_PROCESSES
      ensures SemPost(t, s).table[n].kin == t.table[n].kin && SemPost(t, s).table[n].pid == t.table[n].pid
      ensures SemPost(t, s).table[n].state == Terminated <==> t.table[n].state == Terminated
    {
      assert SlotSame(t, SemPost(t, s), n);
    }
  }

  // ---------------------------------------------------------------- creation

  /** A creation passes the foreground on exactly when it is asked to and the creator has it. */
  predicate Hands(k: Kernel, foreground: bool)
    requires Sized(k)
  {
    foreground && k.table[k.current].kin.foreground
  }

  /** The new process has the current one for its father and no children, and the foreground if that was handed on;
      the creator loses it then, and gains a child unless the creation fails; nobody else's kin changes. */
  lemma CreateHandsOver(k: Kernel, stack: bool, foreground: bool)
    requires Sized(k) && Claims(k)
    ensures var i := FindTerminated(k.table, 1); var c := k.current; var r := Create(k, stack, foreground).0;
      var kids := if ClaimFails(k, stack) then [] else [i];
      && r.foreground == (if Hands(k, foreground) then k.nextPid else k.foreground)
      && r.table[i].kin == Kin(c, if c == i then kids else [], Hands(k, foreground), -1)
      && (c == i || r.table[c].kin ==
            k.table[c].kin.(foreground := k.table[c].kin.foreground && !Hands(k, foreground), kids := k.table[c].kin.kids + kids))
      && forall n :: 0 <= n < MAX_PROCESSES && n != i && n != c ==> r.table[n].kin == k.table[n].kin
  {
    var i := FindTerminated(k.table, 1);
    var c := k.current;
    var k1 := Claim(HandOver(k, foreground), i, stack, Hands(k, foreground));
    ClaimHandsOver(k, i, stack, foreground);
    AdmitGives(k1, i);
    assert k.table[c].kin.kids + [] == k.table[c].kin.kids && [] + [i] == [i];
    assert Create(k, stack, foreground).0 == if ClaimFails(k, stack) then k1 else Admit(k1, i);
  }

  lemma AdmitGives(k: Kernel, i: nat)
    requires Sized(k) && i < MAX_PROCESSES
    ensures var r := Admit(k, i); var x := k.table[k.current].kin;
      && r.foreground == k.foreground && r.table[k.current].kin == x.(kids := x.kids + [i])
      && forall n :: 0 <= n < MAX_PROCESSES && n != k.current ==> r.table[n].kin == k.table[n].kin
  {
  }

  lemma ClaimHandsOver(k: Kernel, i: nat, stack: bool, foreground: bool)
    requires Sized(k) && i < MAX_PROCESSES
    ensures var c := k.current; var r := Claim(HandOver(k, foreground), i, stack, Hands(k, foreground));
      && r.current == c && r.foreground == (if Hands(k, foreground) then k.nextPid else k.foreground)
      && r.table[i].kin == Kin(c, [], Hands(k, foreground), -1)
      && (c != i ==> r.table[c].kin == k.table[c].kin.(foreground := k.table[c].kin.foreground && !Hands(k, foreground)))
      && forall n :: 0 <= n < MAX_PROCESSES && n != i && n != c ==> r.table[n].kin == k.table[n].kin
  {
  }

  // ---------------------------------------------------------------- one process in the foreground

  predicate Marked(k: Kernel, i: nat)
    requires Sized(k) && i < MAX_PROCESSES
  {
    k.table[i].kin.foreground && k.table[i].state != Terminated
  }

  ghost predicate Holds(k: Kernel, f: nat)
    requires Sized(k)
  {
    && f < MAX_PROCESSES && Marked(k, f) && k.foreground == k.table[f].pid
    && forall i {:trigger Marked(k, i)} :: 0 <= i < MAX_PROCESSES && Marked(k, i) ==> i == f
  }

  /** One live process is marked as in the foreground, and its pid is the foreground's. */
  ghost predicate OneHolds(k: Kernel)
    requires Sized(k)
  {
    exists f :: Holds(k, f)
  }

  /** The foreground goes back properly: the victim did not have it, or its father lives; a victim that was dead
      already and once had it must be a child of whoever has it now. */
  predicate GoesBack(k: Kernel, pid: nat)
    requires Sized(k)
  {
    var i := Slot(k, pid);
    pid != 0 && i < MAX_PROCESSES && k.table[i].kin.foreground ==>
      var f := k.table[i].kin.father;
      if k.table[i].state == Terminated then k.table[f].pid == k.foreground else f != i && k.table[f].state != Terminated
  }

  lemma KeptHolder(k: Kernel, r: Kernel, f: nat)
    requires Sized(k) && Sized(r) && Holds(k, f) && r.foreground == k.foreground && r.table[f].pid == k.table[f].pid
    requires forall i {:trigger Marked(r, i)} :: 0 <= i < MAX_PROCESSES ==> (Marked(r, i) <==> Marked(k, i))
    ensures Holds(r, f)
  {
    forall i | 0 <= i < MAX_PROCESSES && Marked(r, i)
      ensures i == f
    {
      assert Marked(k, i);
    }
    assert Marked(r, f);
  }

  lemma HolderIs(k: Kernel, f: nat, i: nat)
    requires Sized(k) && Holds(k, f) && i < MAX_PROCESSES && Marked(k, i)
    ensures i == f
  {
  }

  // Who is marked after a kill.
  lemma MarkedAfterKill(k: Kernel, pid: nat, n: nat)
    requires SchedInv(k) && Kill(k, pid).1 == 0 && n < MAX_PROCESSES
    ensures var i := Slot(k, pid); var r := Kill(k, pid).0; var v := k.table[i].kin;
      && i < MAX_PROCESSES && r.table[n].pid == k.table[n].pid
      && (Marked(r, n) <==> n != i && k.table[n].state != Terminated && (k.table[n].kin.foreground || (v.foreground && n == v.father)))
  {
    var i := Slot(k, pid);
    KillGivesBack(k, pid);
    KillIs(k, pid);
    TerminateIs(k, i);
    TerminateKeeps(k, i);
    assert PostsFor(Terminate(k, i), k.table[i].semWait, Kill(k, pid).0);
    KillPosts(k, i, Terminate(k, i), Kill(k, pid).0);
    if n != i {
      assert SlotKin(k, Terminate(k, i), n);
    }
  }

  // Who is marked once slot i has ended.
  ghost predicate MarksAfter(k: Kernel, i: nat, r: Kernel)
    requires Sized(k) && Sized(r) && i < MAX_PROCESSES
  {
    forall n {:trigger Marked(r, n)} :: 0 <= n < MAX_PROCESSES ==>
      && r.table[n].pid == k.table[n].pid
      && (Marked(r, n) <==>
        n != i && k.table[n].state != Terminated && (k.table[n].kin.foreground || (k.table[i].kin.foreground && n == k.table[i].kin.father)))
  }

  /** A kill leaves one live process with the foreground exactly when it goes back properly. */
  lemma KillKeepsForegroundExactlyWhen(k: Kernel, pid: nat)
    requires SchedInv(k) && OneHolds(k)
    ensures OneHolds(Kill(k, pid).0) <==> GoesBack(k, pid)
  {
    var h :| Holds(k, h);
    if Kill(k, pid).1 == 0 {
      KillIs(k, pid);
      var i := Slot(k, pid);
      var v := k.table[i].kin;
      KillGivesBack(k, pid);
      forall n: nat | n < MAX_PROCESSES
        ensures Kill(k, pid).0.table[n].pid == k.table[n].pid
        ensures Marked(Kill(k, pid).0, n) <==>
          n != i && k.table[n].state != Terminated && (k.table[n].kin.foreground || (v.foreground && n == v.father))
      {
        MarkedAfterKill(k, pid, n);
      }
      assert MarksAfter(k, i, Kill(k, pid).0);
      AfterKill(k, h, i, Kill(k, pid).0);
    } else {
      assert Kill(k, pid).0 == k;
    }
  }

  lemma AfterKill(k: Kernel, h: nat, i: nat, r: Kernel)
    requires Sized(k) && PidsOk(k) && Sized(r) && Holds(k, h) && 1 <= i < MAX_PROCESSES && Slot(k, k.table[i].pid) == i && k.table[i].pid != 0
    requires var v := k.table[i].kin; r.foreground == if v.foreground then k.table[v.father].pid else k.foreground
    requires MarksAfter(k, i, r)
    ensures OneHolds(r) <==> GoesBack(k, k.table[i].pid)
  {
    var v := k.table[i].kin;
    assert Marked(k, h);
    if !v.foreground {
      NotVictims(k, h, i, r);
    } else if k.table[i].state == Terminated {
      DeadVictims(k, h, i, r);
    } else {
      HolderIs(k, h, i);
      HoldersVictims(k, i, r);
    }
  }

  lemma NotVictims(k: Kernel, h: nat, i: nat, r: Kernel)
    requires Sized(k) && Sized(r) && Holds(k, h) && i < MAX_PROCESSES && !k.table[i].kin.foreground && r.foreground == k.foreground
    requires MarksAfter(k, i, r)
    ensures OneHolds(r)
  {
    assert Marked(k, h) && Marked(r, h);
    KeptHolder(k, r, h);
  }

  lemma DeadVictims(k: Kernel, h: nat, i: nat, r: Kernel)
    requires Sized(k) && PidsOk(k) && Sized(r) && Holds(k, h) && i < MAX_PROCESSES && k.table[i].kin.foreground && k.table[i].state == Terminated
    requires r.foreground == k.table[k.table[i].kin.father].pid
    requires MarksAfter(k, i, r)
    ensures OneHolds(r) <==> k.table[k.table[i].kin.father].pid == k.foreground
  {
    var f := k.table[i].kin.father;
    assert Marked(k, h) && Marked(r, h);
    if k.table[f].pid == k.foreground {
      forall n | 0 <= n < MAX_PROCESSES && Marked(r, n)
        ensures n == h
      {
        if k.table[n].kin.foreground {
          HolderIs(k, h, n);
        }
      }
      assert Holds(r, h);
    }
  }

  lemma HoldersVictims(k: Kernel, i: nat, r: Kernel)
    requires Sized(k) && Sized(r) && Holds(k, i) && r.foreground == k.table[k.table[i].kin.father].pid
    requires MarksAfter(k, i, r)
    ensures var f := k.table[i].kin.father; OneHolds(r) <==> f != i && k.table[f].state != Terminated
  {
    var f := k.table[i].kin.father;
    forall n | 0 <= n < MAX_PROCESSES && Marked(r, n)
      ensures n == f
    {
      if k.table[n].kin.foreground {
        HolderIs(k, i, n);
      }
    }
    if f != i && k.table[f].state != Terminated {
      assert Marked(r, f);
      assert Holds(r, f);
    }
  }

  /** A creation leaves one live process with the foreground exactly when it is not handed on by one that was killed
      and goes on. */
  lemma CreateKeepsForegroundExactlyWhen(k: Kernel, stack: bool, foreground: bool)
    requires SchedInv(k) && OneHolds(k)
    ensures OneHolds(Create(k, stack, foreground).0) <==>
      !(Claims(k) && Hands(k, foreground) && k.table[k.current].state == Terminated)
  {
    if Claims(k) {
      var h :| Holds(k, h);
      var i := FindTerminated(k.table, 1);
      var r := Create(k, stack, foreground).0;
      CreateIs(k, stack, foreground);
      CreateHandsOver(k, stack, foreground);
      CreationMarks(k, i, stack, foreground, r);
      AfterCreation(k, h, i, foreground, r);
    } else {
      assert Create(k, stack, foreground).0 == k;
    }
  }

  // Who is marked once slot i has been claimed.
  ghost predicate MarksCreated(k: Kernel, i: nat, foreground: bool, r: Kernel)
    requires Sized(k) && Sized(r) && i < MAX_PROCESSES
  {
    && (Marked(r, i) <==> Hands(k, foreground))
    && forall n {:trigger Marked(r, n)} :: 0 <= n < MAX_PROCESSES && n != i ==>
        r.table[n].pid == k.table[n].pid && (Marked(r, n) <==> Marked(k, n) && !(Hands(k, foreground) && n == k.current))
  }

  lemma CreationMarks(k: Kernel, i: nat, stack: bool, foreground: bool, r: Kernel)
    requires Sized(k) && Sized(r) && 1 <= i < MAX_PROCESSES && ClaimedIn(k, r, i, stack)
    requires r.table[i].kin.foreground == Hands(k, foreground)
    requires k.current != i ==> r.table[k.current].kin.foreground == (k.table[k.current].kin.foreground && !Hands(k, foreground))
    requires forall n :: 0 <= n < MAX_PROCESSES && n != i && n != k.current ==> r.table[n].kin == k.table[n].kin
    ensures MarksCreated(k, i, foreground, r)
  {
    forall n: nat | n < MAX_PROCESSES && n != i
      ensures r.table[n].pid == k.table[n].pid && (Marked(r, n) <==> Marked(k, n) && !(Hands(k, foreground) && n == k.current))
    {
      assert SlotKin(k, r, n);
    }
  }

  lemma AfterCreation(k: Kernel, h: nat, i: nat, foreground: bool, r: Kernel)
    requires Sized(k) && Sized(r) && Holds(k, h) && i < MAX_PROCESSES && k.table[i].state == Terminated && MarksCreated(k, i, foreground, r)
    requires r.foreground == (if Hands(k, foreground) then k.nextPid else k.foreground) && r.table[i].pid == k.nextPid
    ensures OneHolds(r) <==> !(Hands(k, foreground) && k.table[k.current].state == Terminated)
  {
    assert Marked(k, h) && h != i;
    if !Hands(k, foreground) {
      assert Marked(r, h);
      forall n | 0 <= n < MAX_PROCESSES && Marked(r, n)
        ensures n == h
      {
        assert n != i && Marked(k, n);
      }
      assert Holds(r, h);
    } else if k.table[k.current].state == Terminated {
      assert Marked(r, h) && Marked(r, i);
    } else {
      HolderIs(k, h, k.current);
      forall n | 0 <= n < MAX_PROCESSES && Marked(r, n)
        ensures n == i
      {
      }
      assert Holds(r, i);
    }
  }

  // ---------------------------------------------------------------- runs

  /** What a run must avoid for one live process to have the foreground: a foreground that cannot go back, or is
      handed on by the dead, and a claim of a slot that still awaits cleanup. */
  predicate Minds(k: Kernel, e: Event)
    requires Sized(k)
  {
    match e
    case SysKill(pid, _) => GoesBack(k, pid)
    case KeyKill(pid) => pid > 1 ==> GoesBack(k, pid)
    case SysExit(_, _) => GoesBack(k, CurrentPid(k))
    case MainCreate(_) => Claims(k) ==> HandsOn(k, true)
    case SysCreate(_, foreground, _) => Claims(k) ==> HandsOn(k, foreground)
    case _ => true
  }

  predicate HandsOn(k: Kernel, foreground: bool)
    requires Sized(k)
  {
    FindTerminated(k.table, 1) !in k.dead && !(Hands(k, foreground) && k.table[k.current].state == Terminated)
  }

  ghost predicate ForegroundInv(k: Kernel) { SchedInv(k) && DeadEnded(k) && OneHolds(k) }

  lemma KinKeepsHolder(k: Kernel, r: Kernel)
    requires KinSame(k, r) && OneHolds(k)
    ensures OneHolds(r)
  {
    var f :| Holds(k, f);
    forall i | 0 <= i < MAX_PROCESSES
      ensures Marked(r, i) <==> Marked(k, i)
    {
      assert SlotKinSame(k, r, i);
    }
    assert SlotKinSame(k, r, f);
    KeptHolder(k, r, f);
  }

  lemma KillLeavesDead(k: Kernel, pid: nat)
    requires SchedInv(k) && DeadEnded(k)
    ensures DeadEnded(Kill(k, pid).0)
  {
    if Kill(k, pid).1 == 0 {
      var i := Slot(k, pid);
      var t := Terminate(k, i);
      var r := Kill(k, pid).0;
      KillIs(k, pid);
      TerminateIs(k, i);
      TerminateKeeps(k, i);
      SemPostSame(t, k.table[i].semWait);
      assert PostsFor(t, k.table[i].semWait, r);
      KillPosts(k, i, t, r);
      forall x | x in r.dead
        ensures x < MAX_PROCESSES && r.table[x].state == Terminated
      {
        if x != i {
          assert x in t.dead && x in k.dead;
          assert SlotKin(k, t, x);
        }
      }
    }
  }

  lemma CreateLeavesDead(k: Kernel, stack: bool, foreground: bool)
    requires SchedInv(k) && DeadEnded(k) && (Claims(k) ==> FindTerminated(k.table, 1) !in k.dead)
    ensures DeadEnded(Create(k, stack, foreground).0)
  {
    if Claims(k) {
      var r := Create(k, stack, foreground).0;
      CreateIs(k, stack, foreground);
      forall x | x in r.dead
        ensures x < MAX_PROCESSES && r.table[x].state == Terminated
      {
        assert SlotKin(k, r, x);
      }
    }
  }

  // A switch after the end of somebody.
  lemma SwitchKeepsForeground(k: Kernel, start: nat)
    requires ForegroundInv(k) && start < PRIORITY_LEVELS
    ensures DeadEnded(Scheduler(k, start)) && OneHolds(Scheduler(k, start))
  {
    SchedulerSame(k, start);
    AllIsKin(k, Scheduler(k, start));
    KinKeepsHolder(k, Scheduler(k, start));
  }

  lemma KillCallForeground(k: Kernel, e: Event)
    requires ForegroundInv(k) && Possible(k, e) && Minds(k, e) && (e.SysKill? || e.KeyKill?)
    ensures DeadEnded(Apply(k, e)) && OneHolds(Apply(k, e))
  {
    KillKeepsForegroundExactlyWhen(k, e.pid);
    KillLeavesDead(k, e.pid);
    KillKeeps(k, e.pid);
    if e.SysKill? {
      SwitchKeepsForeground(Kill(k, e.pid).0, e.start);
    }
  }

  // The exit status does not matter to the foreground.
  lemma ExitingForeground(k: Kernel, status: int)
    requires ForegroundInv(k)
    ensures var r := SetExit(k, status); ForegroundInv(r) && CurrentPid(r) == CurrentPid(k)
    ensures GoesBack(SetExit(k, status), CurrentPid(k)) <==> GoesBack(k, CurrentPid(k))
  {
    var r := SetExit(k, status);
    SetExitOnly(k, status);
    KinOnlyKeeps(k, r);
    SameForeground(k, r);
    SameSlots(k, r, CurrentPid(k));
  }

  lemma SameForeground(k: Kernel, r: Kernel)
    requires Sized(k) && Sized(r) && OneHolds(k) && r.foreground == k.foreground
    requires forall i :: 0 <= i < MAX_PROCESSES ==> r.table[i].pid == k.table[i].pid && r.table[i].state == k.table[i].state
    requires forall i :: 0 <= i < MAX_PROCESSES ==> r.table[i].kin.foreground == k.table[i].kin.foreground
    ensures OneHolds(r)
  {
    var f :| Holds(k, f);
    forall i | 0 <= i < MAX_PROCESSES
      ensures Marked(r, i) <==> Marked(k, i)
    {
    }
    KeptHolder(k, r, f);
  }

  lemma ExitCallForeground(k: Kernel, e: Event)
    requires ForegroundInv(k) && Possible(k, e) && Minds(k, e) && e.SysExit?
    ensures DeadEnded(Apply(k, e)) && OneHolds(Apply(k, e))
  {
    var k1 := SetExit(k, e.status);
    var pid := CurrentPid(k);
    ExitingForeground(k, e.status);
    KillKeepsForegroundExactlyWhen(k1, pid);
    KillLeavesDead(k1, pid);
    KillKeeps(k1, pid);
    SwitchKeepsForeground(Kill(k1, pid).0, e.start);
  }

  lemma CreateCallForeground(k: Kernel, e: Event)
    requires ForegroundInv(k) && Possible(k, e) && Careful(k, e) && Minds(k, e) && (e.MainCreate? || e.SysCreate?)
    ensures DeadEnded(Apply(k, e)) && OneHolds(Apply(k, e))
  {
    var foreground := e.MainCreate? || e.foreground;
    CreateKeepsForegroundExactlyWhen(k, e.stack, foreground);
    CreateLeavesDead(k, e.stack, foreground);
    if e.SysCreate? && foreground {
      var (k1, pid) := Create(k, e.stack, true);
      CreateKeeps(k, e.stack, true);
      WaitForKin(k1, AsPid(pid), e.start);
      KinKeepsHolder(k1, WaitFor(k1, AsPid(pid), e.start));
      KinLeavesDead(k1, WaitFor(k1, AsPid(pid), e.start));
    }
  }

  lemma StepKeepsForeground(k: Kernel, e: Event)
    requires ForegroundInv(k) && Possible(k, e) && Careful(k, e) && Minds(k, e)
    ensures ForegroundInv(Apply(k, e))
  {
    StepKeeps(k, e);
    if e.SysKill? || e.KeyKill? {
      KillCallForeground(k, e);
    } else if e.SysExit? {
      ExitCallForeground(k, e);
    } else if e.MainCreate? || e.SysCreate? {
      CreateCallForeground(k, e);
    } else {
      StepKin(k, e);
      KinKeepsHolder(k, Apply(k, e));
      KinLeavesDead(k, Apply(k, e));
    }
  }

  ghost predicate MindfulRun(k: Kernel, es: seq<Event>)
    requires Sized(k)
    decreases |es|
  {
    es == [] || (Possible(k, es[0]) && Careful(k, es[0]) && Minds(k, es[0]) && MindfulRun(Apply(k, es[0]), es[1..]))
  }

  lemma {:induction false} RunKeepsForeground(k: Kernel, es: seq<Event>)
    requires ForegroundInv(k) && MindfulRun(k, es)
    ensures CarefulRun(k, es) && ForegroundInv(Run(k, es))
    decreases |es|
  {
    if es != [] {
      StepKeepsForeground(k, es[0]);
      RunKeepsForeground(Apply(k, es[0]), es[1..]);
    }
  }

  /** In every state of every such run of the kernel from its start, one live process is marked as in the foreground,
      and its pid is the one that the kernel takes for the foreground's. */
  lemma KernelHasForeground(es: seq<Event>)
    requires MindfulRun(Boot(), es)
    ensures CarefulRun(Boot(), es) && OneHolds(Run(Boot(), es))
  {
    assert Marked(Boot(), 0);
    assert Holds(Boot(), 0);
    RunKeepsForeground(Boot(), es);
  }
}
