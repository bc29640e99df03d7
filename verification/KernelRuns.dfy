/** Kernel entries as atomic steps, the runs they form, and the invariants of those runs.
    Every gate is an interrupt gate, so an entry runs up to its end or to a switch of processes. */
module KernelRuns {
  import opened KernelState

  // start is the priority that get_random_priority draws at the switch the entry ends with.
  datatype Event =
    | Tick(start: nat)                    // timer interrupt
    | Yield(start: nat)
    | SysBlock(pid: nat)
    | SysWake(pid: nat)
    | SysToggle(pid: nat)
    | SysPriority(pid: nat, priority: nat)
    | SysSleep(seconds: nat, start: nat)
    | MainCreate(stack: bool)             // the shell, which the kernel creates before it takes interrupts
    | SysCreate(stack: bool, foreground: bool, start: nat) // a creation in the foreground waits for its child
    | SysKill(pid: nat, start: nat)
    | SysExit(status: int, start: nat)
    | KeyKill(pid: nat)                   // keyboard interrupt, no switch
    | SysSemOpen(value: nat)
    | SysSemClose(sem: int)
    | SysSemPost(sem: int)                // also from the keyboard interrupt, through the STDIN pipe
    | SysSemWait(sem: int, start: nat)
    | SysJoin(pid: nat, start: nat)       // wait_process
    | Resume(start: nat)                  // the scheduled process goes on after its yield in sem_wait

  function CurrentPid(k: Kernel): nat
    requires Sized(k)
  {
    k.table[k.current].pid
  }

  // The current process is switched out inside sem_wait, or sem_wait has returned.
  function SemWaitFrom(k: Kernel, c: Cont, start: nat): (r: Kernel)
    requires Sized(k) && start < PRIORITY_LEVELS && (c.InJoin? ==> c.child < MAX_PROCESSES)
    ensures Sized(r)
  {
    var (k1, done) := SemWait(k, c.sem);
    if !done then Scheduler(k1.(conts := k1.conts[k1.current := c]), start)
    else
      var k2 := k1.(conts := k1.conts - {k1.current});
      if c.InJoin? then JoinEnd(k2, c.child) else k2
  }

  predicate StartOk(e: Event) {
    match e
    case Tick(start) => start < PRIORITY_LEVELS
    case Yield(start) => start < PRIORITY_LEVELS
    case SysSleep(_, start) => start < PRIORITY_LEVELS
    case SysCreate(_, _, start) => start < PRIORITY_LEVELS
    case SysKill(_, start) => start < PRIORITY_LEVELS
    case SysExit(_, start) => start < PRIORITY_LEVELS
    case SysSemWait(_, start) => start < PRIORITY_LEVELS
    case SysJoin(_, start) => start < PRIORITY_LEVELS
    case Resume(start) => start < PRIORITY_LEVELS
    case _ => true
  }

  /** Interrupts, and what the kernel does by itself: no process asks for these. */
  predicate Unasked(e: Event) {
    e.Tick? || e.KeyKill? || e.SysSemPost? || e.Resume? || e.MainCreate?
  }

  /** What the machine allows: a process that was switched out inside sem_wait resumes there with
      interrupts off, so nothing comes in between; idle makes no system calls, a process that the keyboard
      has killed goes on until the next switch, and in a stopped system only idle's loop is left. */
  predicate Possible(k: Kernel, e: Event)
    requires Sized(k)
  {
    && StartOk(e)
    && (e.Resume? <==> k.current in k.conts && k.table[k.current].state == Running)
    && (!Unasked(e) ==> k.system && k.current != 0 && (k.table[k.current].state == Running || k.table[k.current].state == Terminated))
    && (e.MainCreate? ==> k.firstSwitch)
    && (e.Resume? && k.conts[k.current].InJoin? ==> k.conts[k.current].child < MAX_PROCESSES)
  }

  // wait_process, called with a pid as it is.
  function WaitFor(k: Kernel, pid: nat, start: nat): (r: Kernel)
    requires Sized(k) && start < PRIORITY_LEVELS
    ensures Sized(r)
  {
    var (k1, s, i) := JoinBegin(k, pid);
    if s == -1 then k1 else SemWaitFrom(k1, InJoin(s, i), start)
  }

  // A pid as the sixteen bits that hold it.
  function AsPid(pid: int): nat { pid % 0x1_0000 }

  function Apply(k: Kernel, e: Event): (r: Kernel)
    requires Sized(k) && Possible(k, e)
    ensures Sized(r)
  {
    match e
    case Tick(start) => Scheduler(TimerTick(k), start)
    case Yield(start) => Scheduler(k, start)
    case SysBlock(pid) => if pid >= MAX_PROCESSES || pid == CurrentPid(k) then k else Block(k, pid).0
    case SysWake(pid) => if pid >= MAX_PROCESSES || pid == CurrentPid(k) then k else Wake(k, pid).0
    case SysToggle(pid) => if pid >= MAX_PROCESSES || pid == CurrentPid(k) then k else Toggle(k, pid).0
    case SysPriority(pid, priority) => ChangePriority(k, pid, priority).0
    case SysSleep(seconds, start) =>
      var (k1, r) := Sleep(k, seconds);
      if r == -1 then k1 else Scheduler(k1, start)
    case MainCreate(stack) => Create(k, stack, true).0
    case SysCreate(stack, foreground, start) =>
      var (k1, pid) := Create(k, stack, foreground);
      if foreground then WaitFor(k1, AsPid(pid), start) else k1
    case SysKill(pid, start) => Scheduler(Kill(k, pid).0, start)
    case SysExit(status, start) => Scheduler(Kill(SetExit(k, status), CurrentPid(k)).0, start)
    case KeyKill(pid) => if pid <= 1 then k else Kill(k, pid).0
    case SysSemOpen(value) => CreateSem(k, value).0
    case SysSemClose(s) => DestroySem(k, s)
    case SysSemPost(s) => SemPost(k, s)
    case SysSemWait(s, start) => SemWaitFrom(k, InWait(s), start)
    case SysJoin(pid, start) => if pid >= MAX_PROCESSES || pid == CurrentPid(k) then k else WaitFor(k, pid, start)
    case Resume(start) => SemWaitFrom(k, k.conts[k.current], start)
  }

  // ---------------------------------------------------------------- invariants

  /** Idle is slot 0 with pid 0; other pids in the table are distinct and were given out already. */
  ghost predicate PidsOk(k: Kernel)
    requires Sized(k)
  {
    && k.table[0].pid == 0 && k.table[0].state != Terminated
    && k.nextPid >= 1
    && 0 !in k.dead
    && (forall i :: 1 <= i < MAX_PROCESSES ==> k.table[i].pid < k.nextPid && (k.table[i].state != Terminated ==> k.table[i].pid != 0))
    && (forall i, j :: 1 <= i < j < MAX_PROCESSES && k.table[i].pid != 0 ==> k.table[i].pid != k.table[j].pid)
  }

  /** Only the current process is running. */
  ghost predicate OneRunning(k: Kernel)
    requires Sized(k)
  {
    forall i :: 0 <= i < MAX_PROCESSES && k.table[i].state == Running ==> i == k.current
  }

  ghost predicate HasEntry(k: Kernel, i: nat)
    requires Sized(k) && i < MAX_PROCESSES
  {
    i in k.ready[k.table[i].priority]
  }

  /** Every ready process but idle has an entry in the queue of its present priority. */
  ghost predicate NoneLost(k: Kernel)
    requires Sized(k)
  {
    forall i {:trigger HasEntry(k, i)} :: 1 <= i < MAX_PROCESSES && k.table[i].state == Ready ==> HasEntry(k, i)
  }

  lemma SlotIs(k: Kernel, i: nat)
    requires Sized(k) && PidsOk(k) && i < MAX_PROCESSES && (i == 0 || k.table[i].pid != 0)
    ensures Slot(k, k.table[i].pid) == i
  {
    var j := Slot(k, k.table[i].pid);
    assert j <= i;
  }

  /** A suspended process remembers a state it can go back to. */
  ghost predicate PreviousOk(k: Kernel)
    requires Sized(k)
  {
    forall i :: 0 <= i < MAX_PROCESSES && (k.table[i].state == Blocked || k.table[i].state == Sleeping) ==>
      k.table[i].previous == Ready || k.table[i].previous == Blocked || k.table[i].previous == Sleeping
  }

  /** Until the first switch nothing has run. */
  ghost predicate FirstSwitchOk(k: Kernel)
    requires Sized(k)
  {
    k.firstSwitch ==> forall i :: 0 <= i < MAX_PROCESSES ==> k.table[i].state != Running
  }

  ghost predicate SchedInv(k: Kernel) {
    Sized(k) && PidsOk(k) && OneRunning(k) && PreviousOk(k) && FirstSwitchOk(k) && NoneLost(k)
  }
}
