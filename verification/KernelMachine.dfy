/** The kernel's concurrency core as it is written: tables updated in place, rings, searching loops. Each
    method is proved to do what the function of the same purpose in KernelState says, as long as no queue
    has wrapped around its eight-bit size. */
module KernelMachine {
  import S = KernelState
  import P = SchedulerProofs
  import PcbQueue

  // Queue q gave up its head i, or was empty and stayed so.
  lemma Popped(r: seq<seq<nat>>, s: seq<seq<nat>>, q: nat, i: nat)
    requires |r| == |s| && q < |r| && (forall x :: 0 <= x < |r| && x != q ==> r[x] == s[x])
    requires if r[q] == [] then s[q] == [] else r[q] == [i] + s[q]
    ensures r[q] == [] ==> s == r
    ensures r[q] != [] ==> i == r[q][0] && s == r[q := r[q][1..]]
  {
    assert r[q] != [] ==> s[q] == r[q][1..];
  }

  // The state before slot i was dequeued from the terminated processes, if any was.
  function Undequeued(k: S.Kernel, i: nat): S.Kernel {
    if i < S.MAX_PROCESSES then k.(dead := [i] + k.dead) else k
  }

  lemma FreesNext(k: S.Kernel, k1: S.Kernel, i: nat)
    requires S.Sized(k) && S.Sized(k1) && i < S.MAX_PROCESSES
    requires k1 == S.SetPcb(k, i, k.table[i].(state := S.Terminated, stack := false)).(count := k.count - 1)
    ensures S.FreeTerminated(Undequeued(k, i)) == S.FreeTerminated(k1)
  {
    assert ([i] + k.dead)[1..] == k.dead;
  }

  class Machine {
    const table: array<S.Pcb>
    const ready0: PcbQueue.Queue
    const ready1: PcbQueue.Queue
    const ready2: PcbQueue.Queue
    const dead: PcbQueue.Queue
    const sleepQueue: array<S.SleepEntry>
    const sems: array<S.Semaphore>
    var current: nat
    var nextPid: nat
    var count: int
    var firstSwitch: bool
    var system: bool
    var ticks: nat
    var foreground: nat
    ghost var conts: map<nat, S.Cont>  // where each process was switched out

    ghost function Queues(): set<object> {
      {ready0, ready0.queue, ready1, ready1.queue, ready2, ready2.queue}
    }

    ghost function Parts(): set<object> {
      {this, table, sleepQueue, sems, dead, dead.queue} + Queues()
    }

    // The parts do not overlap, and each is of its size.
    ghost predicate Separate() {
      && ready0 != ready1 && ready0 != ready2 && ready1 != ready2 && dead != ready0 && dead != ready1 && dead != ready2
      && ready0.queue != ready1.queue && ready0.queue != ready2.queue && ready1.queue != ready2.queue
      && dead.queue != ready0.queue && dead.queue != ready1.queue && dead.queue != ready2.queue
      && table.Length == S.MAX_PROCESSES && sleepQueue.Length == S.MAX_PROCESSES && sems.Length == S.MAX_SEMAPHORES
    }

    ghost predicate Valid()
      reads Parts()
    {
      && Separate() && ready0.Valid() && ready1.Valid() && ready2.Valid() && dead.Valid()
      && current < S.MAX_PROCESSES
      && (forall i :: 0 <= i < S.MAX_PROCESSES ==> table[i].priority < S.PRIORITY_LEVELS && S.KinSized(table[i].kin))
      && (forall s :: 0 <= s < S.MAX_SEMAPHORES ==> S.SemSized(sems[s]))
    }

    /** The state as a value. */
    ghost function Abs(): (k: S.Kernel)
      requires Valid()
      reads Parts()
      ensures S.Sized(k)
    {
      S.Kernel(table[..], [ready0.Contents(), ready1.Contents(), ready2.Contents()], dead.Contents(), current, nextPid, count,
               firstSwitch, system, sleepQueue[..], ticks, sems[..], foreground, conts)
    }

    /** Some queue has wrapped around. */
    ghost predicate Lost()
      reads ready0, ready1, ready2, dead
    {
      ready0.lost || ready1.lost || ready2.lost || dead.lost
    }

    // The static tables, and what init_processes and init_sem_manager put in them.
    static method NewTables() returns (table: array<S.Pcb>, sleepQueue: array<S.SleepEntry>, sems: array<S.Semaphore>)
      ensures fresh(table) && fresh(sleepQueue) && fresh(sems)
      ensures table.Length == S.MAX_PROCESSES && sleepQueue.Length == S.MAX_PROCESSES && sems.Length == S.MAX_SEMAPHORES
      ensures table[..] == S.Boot().table && sleepQueue[..] == S.Boot().sleepers && sems[..] == S.Boot().sems
    {
      table := new S.Pcb[S.MAX_PROCESSES](i => S.BootPcb(i));
      sleepQueue := new S.SleepEntry[S.MAX_PROCESSES](_ => S.SleepEntry(0, 0));
      sems := new S.Semaphore[S.MAX_SEMAPHORES](_ => S.EmptySem());
    }

    static method NewQueues() returns (a: PcbQueue.Queue, b: PcbQueue.Queue, c: PcbQueue.Queue, d: PcbQueue.Queue)
      ensures fresh({a, b, c, d}) && fresh({a.queue, b.queue, c.queue, d.queue})
      ensures a != b && a != c && a != d && b != c && b != d && c != d
      ensures a.queue != b.queue && a.queue != c.queue && a.queue != d.queue
      ensures b.queue != c.queue && b.queue != d.queue && c.queue != d.queue
      ensures a.Valid() && b.Valid() && c.Valid() && d.Valid() && !a.lost && !b.lost && !c.lost && !d.lost
      ensures a.Contents() == [] && b.Contents() == [] && c.Contents() == [] && d.Contents() == []
    {
      a := new PcbQueue.Queue();
      b := new PcbQueue.Queue();
      c := new PcbQueue.Queue();
      d := new PcbQueue.Queue();
    }

    constructor ()
      ensures Valid() && !Lost() && fresh(Parts())
      ensures Abs() == S.Boot()
    {
      var a, b, c, d := NewQueues();
      var t, q, x := NewTables();
      ready0, ready1, ready2, dead := a, b, c, d;
      table, sleepQueue, sems := t, q, x;
      current, nextPid, count, firstSwitch, system, ticks, foreground := 0, 1, 1, true, true, 0, 0;
      conts := map[];
      new;
      ghost var k := S.Boot();
      assert forall i :: 0 <= i < S.MAX_PROCESSES ==> table[i] == k.table[i];
      assert forall s :: 0 <= s < S.MAX_SEMAPHORES ==> sems[s] == k.sems[s];
    }

    // ---------------------------------------------------------------- single updates

    method SetPcb(i: nat, p: S.Pcb)
      requires Valid() && i < S.MAX_PROCESSES && p.priority < S.PRIORITY_LEVELS && S.KinSized(p.kin)
      modifies table
      ensures Valid() && Abs() == S.SetPcb(old(Abs()), i, p)
    {
      table[i] := p;
      assert table[..] == old(table[..])[i := p];
    }

    method SetSleeper(e: nat, s: S.SleepEntry)
      requires Valid() && e < S.MAX_PROCESSES
      modifies sleepQueue
      ensures Valid() && Abs() == old(Abs()).(sleepers := old(Abs()).sleepers[e := s])
    {
      sleepQueue[e] := s;
      assert sleepQueue[..] == old(sleepQueue[..])[e := s];
    }

    method SetSem(s: nat, x: S.Semaphore)
      requires Valid() && s < S.MAX_SEMAPHORES && S.SemSized(x)
      modifies sems
      ensures Valid() && Abs() == S.SetSem(old(Abs()), s, x)
    {
      sems[s] := x;
      assert sems[..] == old(sems[..])[s := x];
    }

    // enqueue_process(process_queues[q], the process in slot i)
    method EnqueueAt(q: nat, i: nat)
      requires Valid() && q < S.PRIORITY_LEVELS && i < S.MAX_PROCESSES
      modifies Queues()
      ensures Valid() && (old(Lost()) ==> Lost())
      ensures !Lost() ==> Abs() == old(Abs()).(ready := old(Abs()).ready[q := old(Abs()).ready[q] + [i]])
    {
      var r;
      if q == 0 {
        r := ready0.Enqueue(i);
      } else if q == 1 {
        r := ready1.Enqueue(i);
      } else {
        r := ready2.Enqueue(i);
      }
    }

    method DequeueAt(q: nat) returns (i: nat)
      requires Valid() && q < S.PRIORITY_LEVELS
      modifies Queues()
      ensures Valid() && Lost() == old(Lost()) && i <= S.MAX_PROCESSES
      ensures i == S.MAX_PROCESSES <==> old(Abs()).ready[q] == []
      ensures i == S.MAX_PROCESSES ==> Abs() == old(Abs())
      ensures i < S.MAX_PROCESSES ==> i == old(Abs()).ready[q][0]
      ensures i < S.MAX_PROCESSES ==> Abs() == old(Abs()).(ready := old(Abs()).ready[q := old(Abs()).ready[q][1..]])
    {
      if q == 0 {
        i := ready0.Dequeue();
        Popped(old(Abs()).ready, Abs().ready, 0, i);
      } else if q == 1 {
        i := ready1.Dequeue();
        Popped(old(Abs()).ready, Abs().ready, 1, i);
      } else {
        i := ready2.Dequeue();
        Popped(old(Abs()).ready, Abs().ready, 2, i);
      }
    }

    // ---------------------------------------------------------------- searches

    // The loop over the process table that every call by pid starts with.
    method FindProcess(pid: nat) returns (i: nat)
      requires Valid()
      ensures i == S.Slot(Abs(), pid)
    {
      i := 0;
      while i < S.MAX_PROCESSES && table[i].pid != pid
        invariant i <= S.MAX_PROCESSES
        invariant S.FindFrom(table[..], pid, 0) == S.FindFrom(table[..], pid, i)
      {
        i := i + 1;
      }
    }

    method FindTerminated() returns (i: nat)
      requires Valid()
      ensures i == S.FindTerminated(Abs().table, 1)
    {
      i := 1;
      while i < S.MAX_PROCESSES && table[i].state != S.Terminated
        invariant 1 <= i <= S.MAX_PROCESSES
        invariant S.FindTerminated(table[..], 1) == S.FindTerminated(table[..], i)
      {
        i := i + 1;
      }
    }

    method FindSleeper(pid: nat) returns (e: nat)
      requires Valid()
      ensures e == S.FindSleeper(Abs().sleepers, pid, 0)
    {
      e := 0;
      while e < S.MAX_PROCESSES && sleepQueue[e].pid != pid
        invariant e <= S.MAX_PROCESSES
        invariant S.FindSleeper(sleepQueue[..], pid, 0) == S.FindSleeper(sleepQueue[..], pid, e)
      {
        e := e + 1;
      }
    }

    method FindFreeSem() returns (s: nat)
      requires Valid()
      ensures s == S.FindFreeSem(Abs().sems, 0)
    {
      s := 0;
      while s < S.MAX_SEMAPHORES && sems[s].used
        invariant s <= S.MAX_SEMAPHORES
        invariant S.FindFreeSem(sems[..], 0) == S.FindFreeSem(sems[..], s)
      {
        s := s + 1;
      }
    }

    // ---------------------------------------------------------------- blocking and waking

    method BlockProcess(pid: nat) returns (r: int)
      requires Valid()
      modifies table
      ensures Valid() && (Abs(), r) == S.Block(old(Abs()), pid)
    {
      var i := FindProcess(pid);
      if i == S.MAX_PROCESSES || table[i].state == S.Terminated || table[i].state == S.Blocked {
        return -1;
      }
      var p := table[i];
      SetPcb(i, p.(previous := if p.state != S.Running then p.state else S.Ready, state := S.Blocked));
      r := 0;
    }

    method IsSleepingTimeExpired(pid: nat) returns (b: bool)
      requires Valid()
      modifies sleepQueue
      ensures Valid() && (Abs(), b) == S.Expire(old(Abs()), pid)
    {
      var e := FindSleeper(pid);
      if e == S.MAX_PROCESSES {
        return true;
      }
      if sleepQueue[e].time <= ticks {
        SetSleeper(e, S.SleepEntry(0, 0));
        return true;
      }
      b := false;
    }

    // A slot becomes ready and joins its queue.
    method MakeReady(i: nat)
      requires Valid() && i < S.MAX_PROCESSES
      modifies table, Queues()
      ensures Valid() && (old(Lost()) ==> Lost())
      ensures !Lost() ==> Abs() == S.MakeReady(old(Abs()), i)
    {
      SetPcb(i, table[i].(state := S.Ready));
      EnqueueAt(table[i].priority, i);
    }

    method WakeUpProcess(pid: nat) returns (r: int)
      requires Valid()
      modifies table, sleepQueue, Queues()
      ensures Valid() && (old(Lost()) ==> Lost())
      ensures !Lost() ==> (Abs(), r) == S.Wake(old(Abs()), pid)
    {
      var i := FindProcess(pid);
      if i == S.MAX_PROCESSES || table[i].state == S.Terminated || table[i].state != S.Blocked {
        return -1;
      }
      r := 0;
      if table[i].previous == S.Sleeping {
        var expired := IsSleepingTimeExpired(pid);
        if expired {
          MakeReady(i);
        } else {
          SetPcb(i, table[i].(state := S.Sleeping));
        }
      } else if table[i].previous == S.Ready {
        MakeReady(i);
      } else {
        SetPcb(i, table[i].(state := table[i].previous));
      }
    }

    method ToggleBlockProcess(pid: nat) returns (r: int)
      requires Valid()
      modifies table, sleepQueue, Queues()
      ensures Valid() && (old(Lost()) ==> Lost())
      ensures !Lost() ==> (Abs(), r) == S.Toggle(old(Abs()), pid)
    {
      var i := FindProcess(pid);
      if i == S.MAX_PROCESSES {
        return -1;
      }
      if table[i].state == S.Blocked {
        r := WakeUpProcess(pid);
      } else if table[i].state != S.Terminated {
        r := BlockProcess(pid);
      } else {
        r := -1;
      }
    }

    method ChangePriority(pid: nat, priority: nat) returns (r: int)
      requires Valid()
      modifies table, Queues()
      ensures Valid() && (old(Lost()) ==> Lost())
      ensures !Lost() ==> (Abs(), r) == S.ChangePriority(old(Abs()), pid, priority)
    {
      if priority >= S.PRIORITY_LEVELS {
        return -1;
      }
      var i := FindProcess(pid);
      if i == S.MAX_PROCESSES {
        return -1;
      }
      r := 0;
      if table[i].priority != priority {
        SetPcb(i, table[i].(priority := priority));
        if table[i].state == S.Ready {
          EnqueueAt(priority, i);
        }
      }
    }

    // ---------------------------------------------------------------- sleeping

    method SleepProcess(pid: nat) returns (r: int)
      requires Valid()
      modifies table
      ensures Valid() && (Abs(), r) == S.SleepProcess(old(Abs()), pid)
    {
      var i := FindProcess(pid);
      if i == S.MAX_PROCESSES || table[i].state == S.Terminated || table[i].state == S.Sleeping {
        return -1;
      }
      var p := table[i];
      SetPcb(i, p.(previous := if p.state != S.Running then p.state else S.Ready, state := S.Sleeping));
      r := 0;
    }

    method UnsleepProcess(pid: nat) returns (r: int)
      requires Valid()
      modifies table, Queues()
      ensures Valid() && (old(Lost()) ==> Lost())
      ensures !Lost() ==> (Abs(), r) == S.UnsleepProcess(old(Abs()), pid)
    {
      var i := FindProcess(pid);
      if i == S.MAX_PROCESSES || table[i].state != S.Sleeping {
        return -1;
      }
      r := 0;
      if table[i].previous == S.Ready {
        MakeReady(i);
      } else {
        SetPcb(i, table[i].(state := table[i].previous));
      }
    }

    method Sleep(seconds: nat) returns (r: int)
      requires Valid()
      modifies table, sleepQueue
      ensures Valid() && (Abs(), r) == S.Sleep(old(Abs()), seconds)
    {
      var pid := table[current].pid;
      if seconds == 0 || pid == 0 {
        return -1;
      }
      var e := FindSleeper(0);
      if e == S.MAX_PROCESSES {
        return -1;
      }
      RecordAndSleep(e, S.SleepEntry(pid, S.W64(ticks + S.W64(seconds * S.TICKS_PER_SECOND))));
      r := 0;
    }

    method RecordAndSleep(e: nat, s: S.SleepEntry)
      requires Valid() && e < S.MAX_PROCESSES
      modifies table, sleepQueue
      ensures Valid() && Abs() == S.SleepProcess(old(Abs()).(sleepers := old(Abs()).sleepers[e := s]), s.pid).0
    {
      SetSleeper(e, s);
      var _ := SleepProcess(s.pid);
    }

    // One iteration of wake_up_sleeping_processes.
    method WakeSleeper(e: nat)
      requires Valid() && e < S.MAX_PROCESSES
      modifies table, sleepQueue, Queues()
      ensures Valid() && (old(Lost()) ==> Lost())
      ensures !Lost() ==> Abs() == S.WakeSleeper(old(Abs()), e)
    {
      var s := sleepQueue[e];
      if s.pid != 0 && s.time <= ticks {
        var i := FindProcess(s.pid);
        if i < S.MAX_PROCESSES && table[i].state == S.Sleeping {
          SetSleeper(e, S.SleepEntry(0, 0));
          var _ := UnsleepProcess(s.pid);
        }
      }
    }

    // wake_up_sleeping_processes
    method WakeUpSleepingProcesses(ghost k: S.Kernel, ghost n: nat)
      requires Valid() && k == Abs() && n == S.MAX_PROCESSES
      modifies table, sleepQueue, Queues()
      ensures Valid() && (old(Lost()) ==> Lost())
      ensures !Lost() ==> Abs() == S.WakeSleepers(k, n)
    {
      var e: nat := 0;
      while e < S.MAX_PROCESSES
        invariant Valid() && e <= n && (old(Lost()) ==> Lost())
        invariant !Lost() ==> Abs() == S.WakeSleepers(k, e)
      {
        WakeSleeper(e);
        e := e + 1;
      }
    }

    method CountTick(ghost k: S.Kernel)
      requires Valid() && k == Abs().(ticks := Abs().ticks + 1)
      modifies `ticks
      ensures Valid() && Abs() == k
    {
      ticks := ticks + 1;
    }

    // timer_handler, given its outcome in terms of the loop
    method CountAndWake(ghost k: S.Kernel, ghost n: nat)
      requires Valid() && k == Abs().(ticks := Abs().ticks + 1) && n == S.MAX_PROCESSES
      modifies Parts()
      ensures Valid() && (old(Lost()) ==> Lost())
      ensures !Lost() ==> Abs() == S.WakeSleepers(k, n)
    {
      CountTick(k);
      WakeUpSleepingProcesses(k, n);
    }

    method TimerHandler(ghost goal: S.Kernel)
      requires Valid() && goal == S.TimerTick(Abs())
      modifies Parts()
      ensures Valid() && (old(Lost()) ==> Lost())
      ensures !Lost() ==> Abs() == goal
    {
      ghost var k := Abs();
      P.TimerTickIs(k, |k.sleepers|);
      CountAndWake(k.(ticks := k.ticks + 1), |k.sleepers|);
    }

    // ---------------------------------------------------------------- scheduling

    method SetNextProcess()
      requires Valid()
      modifies `firstSwitch, table, Queues()
      ensures Valid() && (old(Lost()) ==> Lost())
      ensures !Lost() ==> Abs() == S.SetNext(old(Abs()))
    {
      if firstSwitch {
        firstSwitch := false;
        return;
      }
      if table[current].state == S.Running {
        SetPcb(current, table[current].(state := S.Ready));
        if table[current].pid != 0 {
          EnqueueAt(table[current].priority, current);
        }
      }
    }

    // The inner loop of get_next_process.
    method DequeueRunnable(q: nat) returns (i: nat)
      requires Valid() && q < S.PRIORITY_LEVELS
      modifies Queues()
      ensures Valid() && Lost() == old(Lost()) && i <= S.MAX_PROCESSES
      ensures (Abs(), i) == S.DequeueRunnable(old(Abs()), q)
    {
      ghost var k := Abs();
      var found := false;
      i := S.MAX_PROCESSES;
      while !found
        invariant Valid() && Lost() == old(Lost()) && i <= S.MAX_PROCESSES
        invariant found ==> (Abs(), i) == S.DequeueRunnable(k, q)
        invariant !found ==> S.DequeueRunnable(Abs(), q) == S.DequeueRunnable(k, q)
        decreases !found, |Abs().ready[q]|
      {
        i := DequeueAt(q);
        found := i == S.MAX_PROCESSES || (q == table[i].priority && table[i].state == S.Ready);
      }
    }

    method GetNextProcess(start: nat)
      requires Valid() && start < S.PRIORITY_LEVELS
      modifies `current, table, Queues()
      ensures Valid() && Lost() == old(Lost())
      ensures Abs() == S.GetNext(old(Abs()), start)
    {
      var next := PickProcess(start, |Abs().ready|, S.Pick(Abs(), start, |Abs().ready|));
      if next == S.MAX_PROCESSES {
        next := 0;
      }
      current := next;
      SetPcb(current, table[current].(state := S.Running));
    }

    // Either next was picked, or going on with n priorities from q on will pick the same.
    ghost predicate Picking(next: nat, q: nat, n: nat, goal: (S.Kernel, nat))
      requires Valid() && q < S.PRIORITY_LEVELS
      reads Parts()
    {
      if next < S.MAX_PROCESSES then (Abs(), next) == goal else S.Pick(Abs(), q, n) == goal
    }

    // One turn of the outer loop of get_next_process, with n priorities left to try.
    method TryPriority(q: nat, ghost n: nat, ghost goal: (S.Kernel, nat)) returns (next: nat)
      requires Valid() && q < S.PRIORITY_LEVELS && n >= 1 && S.Pick(Abs(), q, n) == goal
      modifies Queues()
      ensures Valid() && Lost() == old(Lost()) && next <= S.MAX_PROCESSES
      ensures Picking(next, (q + 1) % S.PRIORITY_LEVELS, n - 1, goal)
    {
      next := DequeueRunnable(q);
    }

    // The outer loop of get_next_process. The priorities follow each other round the three, so the note the
    // source keeps of those already tried never skips one.
    method PickProcess(start: nat, ghost n: nat, ghost goal: (S.Kernel, nat)) returns (next: nat)
      requires Valid() && start < S.PRIORITY_LEVELS && n == S.PRIORITY_LEVELS && S.Pick(Abs(), start, n) == goal
      modifies Queues()
      ensures Valid() && Lost() == old(Lost()) && next <= S.MAX_PROCESSES
      ensures (Abs(), next) == goal
    {
      var count: nat := 0;
      var priority: nat := start;
      next := S.MAX_PROCESSES;
      while next == S.MAX_PROCESSES && count < S.PRIORITY_LEVELS
        invariant Valid() && Lost() == old(Lost()) && next <= S.MAX_PROCESSES
        invariant count <= n && priority < S.PRIORITY_LEVELS && Picking(next, priority, n - count, goal)
        decreases n - count
      {
        next := TryPriority(priority, n - count, goal);
        priority := (priority + 1) % S.PRIORITY_LEVELS;
        count := count + 1;
      }
    }

    method DequeueDead() returns (i: nat)
      requires Valid()
      modifies dead
      ensures Valid() && Lost() == old(Lost()) && i <= S.MAX_PROCESSES
      ensures old(Abs()) == Undequeued(Abs(), i) && (i == S.MAX_PROCESSES ==> Abs().dead == [])
    {
      ghost var before := dead.Contents();
      i := dead.Dequeue();
      assert old(Abs()).dead == before;
      assert Abs().dead == dead.Contents();
      assert i == S.MAX_PROCESSES ==> before == dead.Contents();
      assert old(Abs()) == Abs().(dead := before);
    }

    // The body of the loop of free_terminated_processes.
    method FreeProcess(i: nat)
      requires Valid() && i < S.MAX_PROCESSES
      modifies `count, table
      ensures Valid() && Abs().dead == old(Abs()).dead
      ensures S.FreeTerminated(Abs()) == S.FreeTerminated(Undequeued(old(Abs()), i))
    {
      ghost var k := Abs();
      SetPcb(i, table[i].(state := S.Terminated, stack := false));
      count := count - 1;
      FreesNext(k, Abs(), i);
    }

    method FreeTerminatedProcesses()
      requires Valid()
      modifies `count, table, dead
      ensures Valid() && Lost() == old(Lost())
      ensures Abs() == S.FreeTerminated(old(Abs()))
    {
      ghost var k := Abs();
      var i: nat := DequeueDead();
      while i < S.MAX_PROCESSES
        invariant Valid() && Lost() == old(Lost()) && i <= S.MAX_PROCESSES
        invariant S.FreeTerminated(Undequeued(Abs(), i)) == S.FreeTerminated(k)
        invariant i == S.MAX_PROCESSES ==> Abs().dead == []
        decreases i < S.MAX_PROCESSES, |Abs().dead|
      {
        FreeProcess(i);
        i := DequeueDead();
      }
    }

    method Scheduler(start: nat)
      requires Valid() && start < S.PRIORITY_LEVELS
      modifies Parts()
      ensures Valid() && (old(Lost()) ==> Lost())
      ensures !Lost() ==> Abs() == S.Scheduler(old(Abs()), start)
    {
      FreeTerminatedProcesses();
      if !(system && count > 1) {
        system := false;
        return;
      }
      SetNextProcess();
      GetNextProcess(start);
    }

    // ---------------------------------------------------------------- creation and termination

    // A process in the foreground hands it over to the one it creates, if asked to.
    method HandOver(asked: bool) returns (handed: bool)
      requires Valid()
      modifies `foreground, table
      ensures Valid() && Abs() == S.HandOver(old(Abs()), asked)
      ensures handed == (asked && old(Abs()).table[old(current)].kin.foreground)
    {
      handed := asked && table[current].kin.foreground;
      if handed {
        SetPcb(current, table[current].(kin := table[current].kin.(foreground := false)));
        foreground := nextPid;
      }
    }

    // set_new_process, into slot i
    method SetNewProcess(i: nat, stack: bool, isForeground: bool) returns (pid: nat)
      requires Valid() && i < S.MAX_PROCESSES
      modifies `nextPid, `conts, table
      ensures Valid() && pid == old(nextPid)
      ensures Abs() == S.Claim(old(Abs()), i, stack, isForeground)
    {
      pid := nextPid;
      SetPcb(i, S.Pcb(pid, S.Ready, S.Terminated, 0, stack, S.Kin(current, [], isForeground, -1), -1));
      nextPid := (nextPid + 1) % 0x1_0000;
      conts := conts - {i};
    }

    // The last part of create_process: one more child, one more entry, one more process.
    method StartProcess(i: nat)
      requires Valid() && i < S.MAX_PROCESSES
      modifies `count, table, Queues()
      ensures Valid() && (old(Lost()) ==> Lost())
      ensures !Lost() ==> Abs() == S.Admit(old(Abs()), i)
    {
      AddChild(i);
      EnqueueAt(0, i);
      CountUp();
    }

    method CountUp()
      requires Valid()
      modifies `count
      ensures Valid() && Abs() == old(Abs()).(count := old(Abs()).count + 1)
    {
      count := count + 1;
    }

    method AddChild(i: nat)
      requires Valid() && i < S.MAX_PROCESSES
      modifies table
      ensures Valid() && Abs() == S.AddChild(old(Abs()), i)
    {
      var x := table[current].kin;
      SetPcb(current, table[current].(kin := x.(kids := x.kids + [i])));
    }

    // The state after slot i has been claimed.
    ghost function Claimed(i: nat, stack: bool, asked: bool): (k: S.Kernel)
      requires Valid() && i < S.MAX_PROCESSES
      reads Parts()
      ensures S.Sized(k)
    {
      S.Claim(S.HandOver(Abs(), asked), i, stack, asked && table[current].kin.foreground)
    }

    method ClaimSlot(i: nat, stack: bool, asked: bool) returns (pid: nat)
      requires Valid() && i < S.MAX_PROCESSES
      modifies `nextPid, `foreground, `conts, table
      ensures Valid() && pid == old(nextPid) && Abs() == old(Claimed(i, stack, asked))
    {
      var handed := HandOver(asked);
      pid := SetNewProcess(i, stack, handed);
    }

    // create_process from the claim of slot i on.
    method ClaimAndStart(i: nat, stack: bool, asked: bool) returns (r: int)
      requires Valid() && i < S.MAX_PROCESSES
      modifies `nextPid, `count, `foreground, `conts, table, Queues()
      ensures Valid() && (old(Lost()) ==> Lost())
      ensures !Lost() ==> var k := old(Claimed(i, stack, asked));
        (Abs(), r) == if !stack || |k.table[k.current].kin.kids| >= S.MAX_CHILDREN then (k, -1) else (S.Admit(k, i), old(nextPid) as int)
    {
      r := ClaimSlot(i, stack, asked);
      if !stack || |table[current].kin.kids| >= S.MAX_CHILDREN {
        return -1;
      }
      StartProcess(i);
    }

    /** create_process, given whether memory for the stack was obtained. */
    method CreateProcess(stack: bool, isForeground: bool) returns (r: int)
      requires Valid()
      modifies `nextPid, `count, `foreground, `conts, table, Queues()
      ensures Valid() && (old(Lost()) ==> Lost())
      ensures !Lost() ==> (Abs(), r) == S.Create(old(Abs()), stack, isForeground)
    {
      if count >= S.MAX_PROCESSES {
        return -1;
      }
      var i := FindTerminated();
      if i == S.MAX_PROCESSES {
        return -1;
      }
      r := ClaimAndStart(i, stack, isForeground);
    }

    method SetExitStatus(status: int)
      requires Valid()
      modifies table
      ensures Valid() && Abs() == S.SetExit(old(Abs()), status)
    {
      if table[current].pid == 0 {
        return;
      }
      SetPcb(current, table[current].(kin := table[current].kin.(exit := status)));
    }

    // A process in the foreground that is killed gives it to its father.
    method GiveBack(i: nat)
      requires Valid() && i < S.MAX_PROCESSES
      modifies `foreground, table
      ensures Valid() && Abs() == S.GiveBack(old(Abs()), i)
    {
      if table[i].kin.foreground {
        var f := table[i].kin.father;
        SetPcb(f, table[f].(kin := table[f].kin.(foreground := true)));
        foreground := table[f].pid;
      }
    }

    // One turn of the loop that gives children to idle.
    method AdoptOne(child: nat)
      requires Valid() && child < S.MAX_PROCESSES
      modifies table
      ensures Valid() && Abs() == S.AdoptOne(old(Abs()), child)
    {
      var x := table[0].kin;
      if |x.kids| < S.MAX_CHILDREN {
        SetPcb(0, table[0].(kin := x.(kids := x.kids + [child])));
        SetPcb(child, table[child].(kin := table[child].kin.(father := 0)));
      }
    }

    // The loop of kill_process over the children of the victim.
    method AdoptChildren(kids: seq<nat>, ghost goal: S.Kernel)
      requires Valid() && (forall j :: 0 <= j < |kids| ==> kids[j] < S.MAX_PROCESSES) && goal == S.Adopt(Abs(), kids)
      modifies table
      ensures Valid() && Abs() == goal
    {
      var j := 0;
      while j < |kids|
        invariant Valid() && j <= |kids| && S.Adopt(Abs(), kids[j..]) == goal
      {
        assert kids[j..][0] == kids[j] && kids[j..][1..] == kids[j + 1..];
        AdoptOne(kids[j]);
        j := j + 1;
      }
    }

    method TerminateSlot(i: nat)
      requires Valid() && i < S.MAX_PROCESSES
      modifies `foreground, table
      ensures Valid() && Abs() == S.Terminate(old(Abs()), i)
    {
      var kids := table[i].kin.kids;
      SetPcb(i, table[i].(state := S.Terminated));
      GiveBack(i);
      AdoptChildren(kids, S.Adopt(Abs(), kids));
    }

    method KillProcess(pid: nat) returns (r: int)
      requires Valid()
      modifies Parts()
      ensures Valid() && (old(Lost()) ==> Lost())
      ensures !Lost() ==> (Abs(), r) == S.Kill(old(Abs()), pid)
    {
      if pid == 0 {
        return -1;
      }
      var i := FindProcess(pid);
      if i == S.MAX_PROCESSES {
        return -1;
      }
      ghost var k := Abs();
      P.KillIs(k, pid);
      KillSlot(i);
      r := 0;
    }

    method KillSlot(i: nat)
      requires Valid() && i < S.MAX_PROCESSES
      modifies Parts()
      ensures Valid() && (old(Lost()) ==> Lost())
      ensures var k := old(Abs());
        var k3 := if k.table[i].semWait != -1 then S.SemPost(S.Terminate(k, i), k.table[i].semWait) else S.Terminate(k, i);
        !Lost() ==> Abs() == k3.(dead := k3.dead + [i])
    {
      var sem := table[i].semWait;
      TerminateSlot(i);
      if sem != -1 {
        SemPost(sem);
      }
      EnqueueDead(i);
    }

    method EnqueueDead(i: nat)
      requires Valid() && i < S.MAX_PROCESSES
      modifies dead, dead.queue
      ensures Valid() && (old(Lost()) ==> Lost())
      ensures !Lost() ==> Abs() == old(Abs()).(dead := old(Abs()).dead + [i])
    {
      var _ := dead.Enqueue(i);
    }

    // ---------------------------------------------------------------- semaphores

    method InvalidSem(s: int) returns (b: bool)
      requires Valid()
      ensures b == S.InvalidSem(Abs(), s)
    {
      b := s < 0 || s >= S.MAX_SEMAPHORES || !sems[s].used;
    }

    method CreateSem(value: nat) returns (r: int)
      requires Valid()
      modifies sems
      ensures Valid() && (Abs(), r) == S.CreateSem(old(Abs()), value)
    {
      var s := FindFreeSem();
      if s == S.MAX_SEMAPHORES {
        return -1;
      }
      SetSem(s, sems[s].(used := true, value := value));
      r := s;
    }

    // The counter and the ring of sem_post; pid is whom to wake.
    method PostValue(s: nat) returns (pid: nat)
      requires Valid() && s < S.MAX_SEMAPHORES
      modifies sems
      ensures Valid() && pid == old(sems[s]).waiting[old(sems[s]).cur]
      ensures Abs() == S.SetSem(old(Abs()), s, S.Posted(old(Abs()).sems[s]))
    {
      var x := sems[s].(value := sems[s].value + 1);
      pid := x.waiting[x.cur];
      if pid != S.NOT_A_PROCESS {
        x := x.(waiting := x.waiting[x.cur := S.NOT_A_PROCESS], cur := (x.cur + 1) % S.MAX_PROCESSES);
      }
      SetSem(s, x);
    }

    method SemPost(s: int)
      requires Valid()
      modifies sems, table, sleepQueue, Queues()
      ensures Valid() && (old(Lost()) ==> Lost())
      ensures !Lost() ==> Abs() == S.SemPost(old(Abs()), s)
    {
      var invalid := InvalidSem(s);
      if invalid {
        return;
      }
      P.SemPostIs(Abs(), s);
      var pid := PostValue(s);
      if pid != S.NOT_A_PROCESS {
        var _ := WakeUpProcess(pid);
      }
    }

    /** sem_wait from the call, or from its last yield: done when it returns, not done when it yields. */
    method SemWait(s: int) returns (done: bool)
      requires Valid()
      modifies sems, table
      ensures Valid() && (Abs(), done) == S.SemWait(old(Abs()), s)
    {
      var invalid := InvalidSem(s);
      if invalid {
        return true;
      }
      var x := sems[s];
      if x.value > 0 {
        SetSem(s, x.(value := x.value - 1));
        return true;
      }
      var pid := table[current].pid;
      SetSem(s, x.(waiting := x.waiting[x.last := pid], last := (x.last + 1) % S.MAX_PROCESSES));
      var _ := BlockProcess(pid);
      done := false;
    }

    // One turn of the loop of destroy_sem.
    method WakeOne(s: nat)
      requires Valid() && s < S.MAX_SEMAPHORES
      modifies sems, table, sleepQueue, Queues()
      ensures Valid() && (old(Lost()) ==> Lost())
      ensures sems[..] == old(sems[..])[s := old(sems[s]).(cur := (old(sems[s]).cur + 1) % S.MAX_PROCESSES)]
      ensures !Lost() ==> Abs() == S.WakeOne(old(Abs()), s)
    {
      ghost var k := Abs();
      var x := sems[s];
      WakeWaiter(x.waiting[x.cur]);
      MoveHead(s, x, k);
    }

    method MoveHead(s: nat, x: S.Semaphore, ghost k: S.Kernel)
      requires Valid() && s < S.MAX_SEMAPHORES && S.SemSized(x) && S.Sized(k) && k.sems[s] == x
      requires !Lost() ==> Abs() == if x.waiting[x.cur] != S.NOT_A_PROCESS then S.Wake(k, x.waiting[x.cur]).0 else k
      modifies sems
      ensures Valid() && sems[..] == old(sems[..])[s := x.(cur := (x.cur + 1) % S.MAX_PROCESSES)]
      ensures !Lost() ==> Abs() == S.WakeOne(k, s)
    {
      SetSem(s, x.(cur := (x.cur + 1) % S.MAX_PROCESSES));
    }

    method WakeWaiter(pid: nat)
      requires Valid()
      modifies table, sleepQueue, Queues()
      ensures Valid() && (old(Lost()) ==> Lost()) && sems[..] == old(sems[..])
      ensures !Lost() ==> Abs() == if pid != S.NOT_A_PROCESS then S.Wake(old(Abs()), pid).0 else old(Abs())
    {
      if pid != S.NOT_A_PROCESS {
        var _ := WakeUpProcess(pid);
      }
    }

    method WakeNext(s: nat, ghost goal: S.Kernel)
      requires Valid() && s < S.MAX_SEMAPHORES && sems[s].cur != sems[s].last && (!Lost() ==> S.WakeAll(Abs(), s) == goal)
      modifies sems, table, sleepQueue, Queues()
      ensures Valid() && (old(Lost()) ==> Lost())
      ensures (sems[s].last - sems[s].cur) % S.MAX_PROCESSES < old((sems[s].last - sems[s].cur) % S.MAX_PROCESSES)
      ensures !Lost() ==> S.WakeAll(Abs(), s) == goal
    {
      WakeOne(s);
    }

    // The loop of destroy_sem.
    method WakeAll(s: nat, ghost goal: S.Kernel)
      requires Valid() && s < S.MAX_SEMAPHORES && goal == S.WakeAll(Abs(), s)
      modifies sems, table, sleepQueue, Queues()
      ensures Valid() && (old(Lost()) ==> Lost())
      ensures !Lost() ==> Abs() == goal
    {
      while sems[s].cur != sems[s].last
        invariant Valid() && (old(Lost()) ==> Lost())
        invariant !Lost() ==> S.WakeAll(Abs(), s) == goal
        decreases (sems[s].last - sems[s].cur) % S.MAX_PROCESSES
      {
        WakeNext(s, goal);
      }
    }

    method DestroySem(s: int)
      requires Valid()
      modifies sems, table, sleepQueue, Queues()
      ensures Valid() && (old(Lost()) ==> Lost())
      ensures !Lost() ==> Abs() == S.DestroySem(old(Abs()), s)
    {
      var invalid := InvalidSem(s);
      if invalid {
        return;
      }
      WakeAll(s, S.WakeAll(Abs(), s));
      SetSem(s, S.EmptySem());
    }

    method GetSemValue(s: int) returns (value: nat)
      requires Valid()
      ensures value == S.SemValue(Abs(), s)
    {
      var invalid := InvalidSem(s);
      value := if invalid then 0 else sems[s].value;
    }

    // ---------------------------------------------------------------- waiting for a process

    /** wait_process up to the call of sem_wait; before is what the caller's status holds. */
    method WaitBegin(pid: nat, before: int) returns (s: int, i: nat, status: int)
      requires Valid()
      modifies sems, table
      ensures Valid() && (Abs(), s, i) == S.JoinBegin(old(Abs()), pid)
      ensures status == S.StatusAtCall(old(Abs()), pid, before)
    {
      i := FindProcess(pid);
      if pid == 0 || i == S.MAX_PROCESSES {
        return -1, i, before;
      }
      status := table[i].kin.exit;
      if table[i].state == S.Terminated || table[i].semWait != -1 {
        return -1, i, status;
      }
      s := CreateSem(0);
      SetPcb(i, table[i].(semWait := s));
    }

    /** wait_process once sem_wait has returned. */
    method WaitEnd(i: nat) returns (status: int)
      requires Valid() && i < S.MAX_PROCESSES
      modifies sems, table, sleepQueue, Queues()
      ensures Valid() && (old(Lost()) ==> Lost())
      ensures !Lost() ==> Abs() == S.JoinEnd(old(Abs()), i)
      ensures status == Abs().table[i].kin.exit
    {
      DestroySem(table[i].semWait);
      SetPcb(i, table[i].(semWait := -1));
      status := table[i].kin.exit;
    }
  }
}
