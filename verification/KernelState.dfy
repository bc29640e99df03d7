/** The state of the kernel's concurrency core and its operations as functions:
    Kernel/scheduler/processes.c, scheduler.c, sleep-manager.c and Kernel/semaphores/semaphores.c.
    Processes are named by their slot in the process table; queues hold slots. */
module KernelState {

  const MAX_PROCESSES: nat := 1024
  const PRIORITY_LEVELS: nat := 3
  const MAX_CHILDREN: nat := 64
  const MAX_SEMAPHORES: nat := 512
  const NOT_A_PROCESS: nat := 1025
  const TICKS_PER_SECOND: nat := 18

  datatype PState = Ready | Running | Blocked | Sleeping | Terminated

  // What scheduling does not look at: the slots of the father and the children, whether the process is in
  // the foreground, and its exit status.
  datatype Kin = Kin(father: nat, kids: seq<nat>, foreground: bool, exit: int)

  datatype Pcb = Pcb(pid: nat, state: PState, previous: PState, priority: nat, stack: bool, kin: Kin, semWait: int)

  datatype SleepEntry = SleepEntry(pid: nat, time: nat)

  datatype Semaphore = Semaphore(used: bool, value: nat, waiting: seq<nat>, cur: nat, last: nat)

  // Where a process switched out inside the kernel will go on: after the yield of sem_wait, called
  // either by the process itself or from wait_process on the child in the given slot.
  datatype Cont = InWait(sem: int) | InJoin(sem: int, child: nat)

  datatype Kernel = Kernel(
    table: seq<Pcb>,
    ready: seq<seq<nat>>,      // process_queues
    dead: seq<nat>,            // terminated_processes_queue
    current: nat,              // current_process
    nextPid: nat,
    count: int,                // process_count
    firstSwitch: bool,         // the static first_time of set_next_process
    system: bool,              // system_running
    sleepers: seq<SleepEntry>, // sleep_queue
    ticks: nat,
    sems: seq<Semaphore>,
    foreground: nat,           // foreground_process
    conts: map<nat, Cont>)

  predicate SemSized(s: Semaphore) {
    |s.waiting| == MAX_PROCESSES && s.cur < MAX_PROCESSES && s.last < MAX_PROCESSES
  }

  predicate KinSized(x: Kin) {
    x.father < MAX_PROCESSES && forall j :: 0 <= j < |x.kids| ==> x.kids[j] < MAX_PROCESSES
  }

  predicate Sized(k: Kernel) {
    && |k.table| == MAX_PROCESSES
    && |k.ready| == PRIORITY_LEVELS
    && |k.sleepers| == MAX_PROCESSES
    && |k.sems| == MAX_SEMAPHORES
    && k.current < MAX_PROCESSES
    && (forall i :: 0 <= i < MAX_PROCESSES ==> k.table[i].priority < PRIORITY_LEVELS && KinSized(k.table[i].kin))
    && (forall q, j :: 0 <= q < PRIORITY_LEVELS && 0 <= j < |k.ready[q]| ==> k.ready[q][j] < MAX_PROCESSES)
    && (forall j :: 0 <= j < |k.dead| ==> k.dead[j] < MAX_PROCESSES)
    && (forall s :: 0 <= s < MAX_SEMAPHORES ==> SemSized(k.sems[s]))
  }

  function EmptySem(): Semaphore { Semaphore(false, 0, seq(MAX_PROCESSES, _ => NOT_A_PROCESS), 0, 0) }

  function BootPcb(i: int): Pcb {
    if i == 0 then Pcb(0, Ready, Terminated, 0, true, Kin(0, [], true, -1), -1)
    else Pcb(0, Terminated, Ready, 0, false, Kin(0, [], false, 0), 0)
  }

  /** The state init_processes and init_sem_manager leave: idle alone, every semaphore free. */
  function Boot(): (r: Kernel)
    ensures Sized(r)
  {
    Kernel(seq(MAX_PROCESSES, i => BootPcb(i)), [[], [], []], [], 0, 1, 1, true, true,
           seq(MAX_PROCESSES, _ => SleepEntry(0, 0)), 0, seq(MAX_SEMAPHORES, _ => EmptySem()), 0, map[])
  }

  // ---------------------------------------------------------------- lookups

  // The first slot from i on that holds the pid, or the table size.
  function FindFrom(table: seq<Pcb>, pid: nat, i: nat): (r: nat)
    requires i <= |table|
    ensures i <= r <= |table|
    ensures r < |table| ==> table[r].pid == pid
    ensures forall j :: i <= j < r ==> table[j].pid != pid
    decreases |table| - i
  {
    if i == |table| then i else if table[i].pid == pid then i else FindFrom(table, pid, i + 1)
  }

  function Slot(k: Kernel, pid: nat): nat { FindFrom(k.table, pid, 0) }

  // The first sleep entry from i on that holds the pid, or the queue size.
  function FindSleeper(q: seq<SleepEntry>, pid: nat, i: nat): (r: nat)
    requires i <= |q|
    ensures i <= r <= |q|
    ensures r < |q| ==> q[r].pid == pid
    ensures forall j :: i <= j < r ==> q[j].pid != pid
    decreases |q| - i
  {
    if i == |q| then i else if q[i].pid == pid then i else FindSleeper(q, pid, i + 1)
  }

  function FindTerminated(table: seq<Pcb>, i: nat): (r: nat)
    requires i <= |table|
    ensures i <= r <= |table|
    ensures r < |table| ==> table[r].state == Terminated
    ensures forall j :: i <= j < r ==> table[j].state != Terminated
    decreases |table| - i
  {
    if i == |table| then i else if table[i].state == Terminated then i else FindTerminated(table, i + 1)
  }

  function FindFreeSem(sems: seq<Semaphore>, i: nat): (r: nat)
    requires i <= |sems|
    ensures i <= r <= |sems|
    ensures r < |sems| ==> !sems[r].used
    ensures forall j :: i <= j < r ==> sems[j].used
    decreases |sems| - i
  {
    if i == |sems| then i else if !sems[i].used then i else FindFreeSem(sems, i + 1)
  }

  // ---------------------------------------------------------------- processes

  function SetPcb(k: Kernel, i: nat, p: Pcb): Kernel
    requires i < |k.table|
  {
    k.(table := k.table[i := p])
  }

  function SetKin(k: Kernel, i: nat, x: Kin): (r: Kernel)
    requires Sized(k) && i < MAX_PROCESSES && KinSized(x)
    ensures Sized(r)
  {
    SetPcb(k, i, k.table[i].(kin := x))
  }

  /** Appends a slot to the ready queue of its present priority. */
  function Enqueue(k: Kernel, i: nat): Kernel
    requires i < |k.table| && k.table[i].priority < |k.ready|
  {
    var q := k.table[i].priority;
    k.(ready := k.ready[q := k.ready[q] + [i]])
  }

  function BlockSlot(k: Kernel, i: nat): Kernel
    requires i < |k.table|
  {
    var p := k.table[i];
    SetPcb(k, i, p.(previous := if p.state != Running then p.state else Ready, state := Blocked))
  }

  function Block(k: Kernel, pid: nat): (r: (Kernel, int))
    requires Sized(k)
    ensures Sized(r.0)
  {
    var i := Slot(k, pid);
    if i == MAX_PROCESSES || k.table[i].state == Terminated || k.table[i].state == Blocked then (k, -1)
    else (BlockSlot(k, i), 0)
  }

  /** is_sleeping_time_expired: an entry that is due is cleared; no entry counts as expired. */
  function Expire(k: Kernel, pid: nat): (r: (Kernel, bool))
    requires Sized(k)
    ensures Sized(r.0) && r.0 == k.(sleepers := r.0.sleepers)
  {
    var e := FindSleeper(k.sleepers, pid, 0);
    if e == MAX_PROCESSES then (k, true)
    else if k.sleepers[e].time <= k.ticks then (k.(sleepers := k.sleepers[e := SleepEntry(0, 0)]), true)
    else (k, false)
  }

  // A slot becomes ready and joins its queue.
  function MakeReady(k: Kernel, i: nat): Kernel
    requires Sized(k) && i < MAX_PROCESSES
  {
    Enqueue(SetPcb(k, i, k.table[i].(state := Ready)), i)
  }

  function WakeSlot(k: Kernel, i: nat): (r: Kernel)
    requires Sized(k) && i < MAX_PROCESSES
    ensures Sized(r) && r == k.(table := r.table, ready := r.ready, sleepers := r.sleepers)
  {
    var p := k.table[i];
    if p.previous == Sleeping then
      var (k1, expired) := Expire(k, p.pid);
      if expired then MakeReady(k1, i) else SetPcb(k1, i, p.(state := Sleeping))
    else if p.previous == Ready then MakeReady(k, i)
    else SetPcb(k, i, p.(state := p.previous))
  }

  function Wake(k: Kernel, pid: nat): (r: (Kernel, int))
    requires Sized(k)
    ensures Sized(r.0) && r.0 == k.(table := r.0.table, ready := r.0.ready, sleepers := r.0.sleepers)
  {
    var i := Slot(k, pid);
    if i == MAX_PROCESSES || k.table[i].state != Blocked then (k, -1)
    else (WakeSlot(k, i), 0)
  }

  function Toggle(k: Kernel, pid: nat): (r: (Kernel, int))
    requires Sized(k)
    ensures Sized(r.0)
  {
    var i := Slot(k, pid);
    if i == MAX_PROCESSES then (k, -1)
    else if k.table[i].state == Blocked then Wake(k, pid)
    else if k.table[i].state != Terminated then Block(k, pid)
    else (k, -1)
  }

  function ChangePriority(k: Kernel, pid: nat, priority: nat): (r: (Kernel, int))
    requires Sized(k)
    ensures Sized(r.0)
  {
    var i := Slot(k, pid);
    if priority >= PRIORITY_LEVELS || i == MAX_PROCESSES then (k, -1)
    else if k.table[i].priority == priority then (k, 0)
    else
      var k1 := SetPcb(k, i, k.table[i].(priority := priority));
      (if k.table[i].state == Ready then Enqueue(k1, i) else k1, 0)
  }

  // ---------------------------------------------------------------- sleeping

  function SleepProcess(k: Kernel, pid: nat): (r: (Kernel, int))
    requires Sized(k)
    ensures Sized(r.0)
  {
    var i := Slot(k, pid);
    if i == MAX_PROCESSES || k.table[i].state == Terminated || k.table[i].state == Sleeping then (k, -1)
    else
      var p := k.table[i];
      (SetPcb(k, i, p.(previous := if p.state != Running then p.state else Ready, state := Sleeping)), 0)
  }

  function UnsleepProcess(k: Kernel, pid: nat): (r: (Kernel, int))
    requires Sized(k)
    ensures Sized(r.0)
    ensures r.0.sleepers == k.sleepers && r.0.ticks == k.ticks
  {
    var i := Slot(k, pid);
    if i == MAX_PROCESSES || k.table[i].state != Sleeping then (k, -1)
    else
      var p := k.table[i];
      (if p.previous == Ready then MakeReady(k, i) else SetPcb(k, i, p.(state := p.previous)), 0)
  }

  function W64(n: nat): nat { n % 0x1_0000_0000_0000_0000 }

  /** sleep, of the current process. */
  function Sleep(k: Kernel, seconds: nat): (r: (Kernel, int))
    requires Sized(k)
    ensures Sized(r.0)
  {
    var pid := k.table[k.current].pid;
    var e := FindSleeper(k.sleepers, 0, 0);
    if seconds == 0 || pid == 0 || e == MAX_PROCESSES then (k, -1)
    else
      var k1 := k.(sleepers := k.sleepers[e := SleepEntry(pid, W64(k.ticks + W64(seconds * TICKS_PER_SECOND)))]);
      (SleepProcess(k1, pid).0, 0)
  }

  predicate IsSleeping(k: Kernel, pid: nat)
    requires Sized(k)
  {
    var i := Slot(k, pid);
    i < MAX_PROCESSES && k.table[i].state == Sleeping
  }

  /** One iteration of wake_up_sleeping_processes: a due entry of a sleeping process is cleared. */
  function WakeSleeper(k: Kernel, e: nat): (r: Kernel)
    requires Sized(k) && e < MAX_PROCESSES
    ensures Sized(r)
  {
    var s := k.sleepers[e];
    if s.pid != 0 && s.time <= k.ticks && IsSleeping(k, s.pid) then
      UnsleepProcess(k.(sleepers := k.sleepers[e := SleepEntry(0, 0)]), s.pid).0
    else k
  }

  // wake_up_sleeping_processes up to its n-th iteration.
  function WakeSleepers(k: Kernel, n: nat): (r: Kernel)
    requires Sized(k) && n <= MAX_PROCESSES
    ensures Sized(r)
    decreases n, k.ticks
  {
    if n == 0 then k else WakeSleeper(WakeSleepers(k, n - 1), n - 1)
  }

  /** timer_handler. */
  function TimerTick(k: Kernel): (r: Kernel)
    requires Sized(k)
    ensures Sized(r)
  {
    WakeSleepers(k.(ticks := k.ticks + 1), |k.sleepers|)
  }

  // ---------------------------------------------------------------- scheduling

  function SetNext(k: Kernel): (r: Kernel)
    requires Sized(k)
    ensures Sized(r)
  {
    if k.firstSwitch then k.(firstSwitch := false)
    else if k.table[k.current].state == Running then
      var k1 := SetPcb(k, k.current, k.table[k.current].(state := Ready));
      if k.table[k.current].pid != 0 then Enqueue(k1, k.current) else k1
    else k
  }

  predicate Runnable(k: Kernel, q: nat, i: nat)
    requires Sized(k) && i < MAX_PROCESSES
  {
    k.table[i].priority == q && k.table[i].state == Ready
  }

  /** Drops stale entries from the front of queue q up to and including the first runnable one. */
  function DequeueRunnable(k: Kernel, q: nat): (r: (Kernel, nat))
    requires Sized(k) && q < PRIORITY_LEVELS
    ensures Sized(r.0) && r.1 <= MAX_PROCESSES
    ensures r.0 == k.(ready := k.ready[q := r.0.ready[q]])
    decreases |k.ready[q]|
  {
    if k.ready[q] == [] then (k, MAX_PROCESSES)
    else
      var i := k.ready[q][0];
      var k1 := k.(ready := k.ready[q := k.ready[q][1..]]);
      if Runnable(k, q, i) then (k1, i) else DequeueRunnable(k1, q)
  }

  /** Tries n queues in turn from q on; MAX_PROCESSES when none has a runnable process. */
  function Pick(k: Kernel, q: nat, n: nat): (r: (Kernel, nat))
    requires Sized(k) && q < PRIORITY_LEVELS
    ensures Sized(r.0) && r.1 <= MAX_PROCESSES
    ensures r.0 == k.(ready := r.0.ready)
    decreases n, |k.ready|
  {
    if n == 0 then (k, MAX_PROCESSES)
    else
      var (k1, i) := DequeueRunnable(k, q);
      if i < MAX_PROCESSES then (k1, i) else Pick(k1, (q + 1) % PRIORITY_LEVELS, n - 1)
  }

  /** get_next_process, starting from the priority that was drawn. */
  function GetNext(k: Kernel, start: nat): (r: Kernel)
    requires Sized(k) && start < PRIORITY_LEVELS
    ensures Sized(r)
  {
    var (k1, i) := Pick(k, start, |k.ready|);
    var next := if i < MAX_PROCESSES then i else 0;
    SetPcb(k1, next, k1.table[next].(state := Running)).(current := next)
  }

  function FreeTerminated(k: Kernel): (r: Kernel)
    requires Sized(k)
    ensures Sized(r) && r.dead == []
    decreases |k.dead|
  {
    if k.dead == [] then k
    else
      var i := k.dead[0];
      FreeTerminated(SetPcb(k, i, k.table[i].(state := Terminated, stack := false)).(count := k.count - 1, dead := k.dead[1..]))
  }

  /** scheduler: drain the terminated processes, stop when nothing is left, else switch. */
  function Scheduler(k: Kernel, start: nat): (r: Kernel)
    requires Sized(k) && start < PRIORITY_LEVELS
    ensures Sized(r)
  {
    var k1 := FreeTerminated(k);
    if !(k1.system && k1.count > 1) then k1.(system := false)
    else GetNext(SetNext(k1), start)
  }

  // ---------------------------------------------------------------- creation and termination

  /** A process in the foreground hands it over to the next one to be created, if asked to. */
  function HandOver(k: Kernel, foreground: bool): (r: Kernel)
    requires Sized(k)
    ensures Sized(r)
  {
    if foreground && k.table[k.current].kin.foreground then
      SetKin(k, k.current, k.table[k.current].kin.(foreground := false)).(foreground := k.nextPid)
    else k
  }

  // set_new_process, into slot i, which loses where its last process was switched out.
  function Claim(k: Kernel, i: nat, stack: bool, foreground: bool): (r: Kernel)
    requires Sized(k) && i < MAX_PROCESSES
    ensures Sized(r)
  {
    SetPcb(k, i, Pcb(k.nextPid, Ready, Terminated, 0, stack, Kin(k.current, [], foreground, -1), -1)).(nextPid := (k.nextPid + 1) % 0x1_0000, conts := k.conts - {i})
  }

  function AddChild(k: Kernel, i: nat): (r: Kernel)
    requires Sized(k) && i < MAX_PROCESSES
    ensures Sized(r) && r == k.(table := r.table)
  {
    var x := k.table[k.current].kin;
    SetKin(k, k.current, x.(kids := x.kids + [i]))
  }

  // The last part of create_process: one more child, one more entry, one more process.
  function Admit(k: Kernel, i: nat): (r: Kernel)
    requires Sized(k) && i < MAX_PROCESSES
    ensures Sized(r)
  {
    AddChild(k, i).(ready := k.ready[0 := k.ready[0] + [i]], count := k.count + 1)
  }

  /** create_process, given whether memory for the stack was obtained. */
  function Create(k: Kernel, stack: bool, foreground: bool): (r: (Kernel, int))
    requires Sized(k)
    ensures Sized(r.0)
  {
    var i := FindTerminated(k.table, 1);
    if k.count >= MAX_PROCESSES || i == MAX_PROCESSES then (k, -1)
    else
      var k1 := Claim(HandOver(k, foreground), i, stack, foreground && k.table[k.current].kin.foreground);
      if !stack || |k1.table[k.current].kin.kids| >= MAX_CHILDREN then (k1, -1)
      else (Admit(k1, i), k.nextPid as int)
  }

  /** set_exit_status, of the current process. */
  function SetExit(k: Kernel, status: int): (r: Kernel)
    requires Sized(k)
    ensures Sized(r)
  {
    if k.table[k.current].pid == 0 then k else SetKin(k, k.current, k.table[k.current].kin.(exit := status))
  }

  // A process in the foreground that is killed gives it to its father.
  function GiveBack(k: Kernel, i: nat): (r: Kernel)
    requires Sized(k) && i < MAX_PROCESSES
    ensures Sized(r)
  {
    if !k.table[i].kin.foreground then k
    else
      var f := k.table[i].kin.father;
      SetKin(k, f, k.table[f].kin.(foreground := true)).(foreground := k.table[f].pid)
  }

  // One turn of the loop that gives children to idle, as long as idle has room.
  function AdoptOne(k: Kernel, child: nat): (r: Kernel)
    requires Sized(k) && child < MAX_PROCESSES
    ensures Sized(r)
  {
    var x := k.table[0].kin;
    if |x.kids| >= MAX_CHILDREN then k
    else
      var k1 := SetKin(k, 0, x.(kids := x.kids + [child]));
      SetKin(k1, child, k1.table[child].kin.(father := 0))
  }

  // The first n turns for the process in slot i.
  function Adopt(k: Kernel, kids: seq<nat>): (r: Kernel)
    requires Sized(k) && forall j :: 0 <= j < |kids| ==> kids[j] < MAX_PROCESSES
    ensures Sized(r)
    decreases |kids|
  {
    if kids == [] then k else Adopt(AdoptOne(k, kids[0]), kids[1..])
  }

  /** The victim is terminated, the foreground goes to its father and its children to idle. */
  function Terminate(k: Kernel, i: nat): (r: Kernel)
    requires Sized(k) && i < MAX_PROCESSES
    ensures Sized(r)
  {
    Adopt(GiveBack(SetPcb(k, i, k.table[i].(state := Terminated)), i), k.table[i].kin.kids)
  }

  /** kill_process. */
  function Kill(k: Kernel, pid: nat): (r: (Kernel, int))
    requires Sized(k)
    ensures Sized(r.0)
  {
    var i := Slot(k, pid);
    if pid == 0 || i == MAX_PROCESSES then (k, -1)
    else
      var k2 := Terminate(k, i);
      var k3 := if k.table[i].semWait != -1 then SemPost(k2, k.table[i].semWait) else k2;
      (k3.(dead := k3.dead + [i]), 0)
  }

  // ---------------------------------------------------------------- semaphores

  predicate InvalidSem(k: Kernel, s: int) {
    s < 0 || s >= MAX_SEMAPHORES || s >= |k.sems| || !k.sems[s].used
  }

  function SetSem(k: Kernel, s: int, x: Semaphore): Kernel
    requires 0 <= s < |k.sems|
  {
    k.(sems := k.sems[s := x])
  }

  function CreateSem(k: Kernel, value: nat): (r: (Kernel, int))
    requires Sized(k)
    ensures Sized(r.0)
  {
    var s := FindFreeSem(k.sems, 0);
    if s == MAX_SEMAPHORES then (k, -1)
    else (SetSem(k, s, k.sems[s].(used := true, value := value)), s as int)
  }

  // The semaphore after a post, before anyone is woken.
  function Posted(x: Semaphore): Semaphore
    requires SemSized(x)
  {
    if x.waiting[x.cur] == NOT_A_PROCESS then x.(value := x.value + 1)
    else x.(value := x.value + 1, waiting := x.waiting[x.cur := NOT_A_PROCESS], cur := (x.cur + 1) % MAX_PROCESSES)
  }

  function SemPost(k: Kernel, s: int): (r: Kernel)
    requires Sized(k)
    ensures Sized(r)
  {
    if InvalidSem(k, s) then k
    else
      var pid := k.sems[s].waiting[k.sems[s].cur];
      var k1 := SetSem(k, s, Posted(k.sems[s]));
      if pid == NOT_A_PROCESS then k1 else Wake(k1, pid).0
  }

  /** sem_wait of the current process from the call, or from its last yield, up to its return (true)
      or its next yield (false). */
  function SemWait(k: Kernel, s: int): (r: (Kernel, bool))
    requires Sized(k)
    ensures Sized(r.0)
  {
    if InvalidSem(k, s) then (k, true)
    else
      var x := k.sems[s];
      if x.value > 0 then (SetSem(k, s, x.(value := x.value - 1)), true)
      else
        var pid := k.table[k.current].pid;
        var y := x.(waiting := x.waiting[x.last := pid], last := (x.last + 1) % MAX_PROCESSES);
        (Block(SetSem(k, s, y), pid).0, false)
  }

  // One iteration of the loop of destroy_sem.
  function WakeOne(k: Kernel, s: int): (r: Kernel)
    requires Sized(k) && 0 <= s < MAX_SEMAPHORES
    ensures Sized(r)
    ensures r.sems == k.sems[s := k.sems[s].(cur := (k.sems[s].cur + 1) % MAX_PROCESSES)] && r.conts == k.conts
  {
    var x := k.sems[s];
    var pid := x.waiting[x.cur];
    SetSem(if pid != NOT_A_PROCESS then Wake(k, pid).0 else k, s, x.(cur := (x.cur + 1) % MAX_PROCESSES))
  }

  /** The loop of destroy_sem: wakes whoever is queued. */
  function WakeAll(k: Kernel, s: int): (r: Kernel)
    requires Sized(k) && 0 <= s < MAX_SEMAPHORES
    ensures Sized(r)
    decreases (k.sems[s].last - k.sems[s].cur) % MAX_PROCESSES
  {
    if k.sems[s].cur == k.sems[s].last then k else WakeAll(WakeOne(k, s), s)
  }

  function DestroySem(k: Kernel, s: int): (r: Kernel)
    requires Sized(k)
    ensures Sized(r)
  {
    if InvalidSem(k, s) then k else SetSem(WakeAll(k, s), s, EmptySem())
  }

  function SemValue(k: Kernel, s: int): nat {
    if InvalidSem(k, s) then 0 else k.sems[s].value
  }

  /** wait_process up to the call of sem_wait: the semaphore to wait on, or -1 when it returns at once. */
  function JoinBegin(k: Kernel, pid: nat): (r: (Kernel, int, nat))
    requires Sized(k)
    ensures Sized(r.0) && r.2 <= MAX_PROCESSES && (r.1 != -1 ==> r.2 < MAX_PROCESSES)
  {
    var i := Slot(k, pid);
    if pid == 0 || i == MAX_PROCESSES || k.table[i].state == Terminated || k.table[i].semWait != -1 then (k, -1, i)
    else
      var (k1, s) := CreateSem(k, 0);
      (SetPcb(k1, i, k1.table[i].(semWait := s)), s, i)
  }

  /** What wait_process stores as the exit status when it is called, given what was there before. */
  function StatusAtCall(k: Kernel, pid: nat, before: int): int
    requires Sized(k)
  {
    if pid == 0 || Slot(k, pid) == MAX_PROCESSES then before else k.table[Slot(k, pid)].kin.exit
  }

  /** wait_process after sem_wait has returned. */
  function JoinEnd(k: Kernel, i: nat): (r: Kernel)
    requires Sized(k) && i < MAX_PROCESSES
    ensures Sized(r)
  {
    var k1 := DestroySem(k, k.table[i].semWait);
    SetPcb(k1, i, k1.table[i].(semWait := -1))
  }
}
