/** The workers of test_sync as processes of the kernel, guarded by one of its semaphores: whatever else the
    kernel does meanwhile, they refine the workers over an atomic counter. */
module TestSyncRuns {
  import opened KernelState
  import opened KernelRuns
  import opened SchedulerProofs
  import opened SemaphoreRings
  import opened SemaphoreState
  import opened SemaphoreProofs
  import opened SemaphoreProgress
  import opened SemaphoreRuns
  import opened SemaphoreLedger
  import PipeRuns
  import T = TestSync

  /** The kernel, a semaphore, the shared number, and the workers with their pids. */
  datatype World = World(k: Kernel, sem: nat, global: int, pids: seq<nat>, workers: seq<T.Worker>)

  datatype Step =
    | Other(e: Event)             // a kernel entry that leaves the semaphore alone, my_yield among them
    | AskUnit(i: nat, start: nat) // my_sem_wait of worker i: from the call or the last yield
    | Load(i: nat)                // slowInc up to its yield
    | Store(i: nat)               // slowInc from its yield on
    | GiveUnit(i: nat)            // my_sem_post, and the end of the round

  ghost predicate Inv(w: World) {
    WaitInv(w.k) && w.sem < MAX_SEMAPHORES && w.k.sems[w.sem].used && |w.pids| == |w.workers|
  }

  predicate WorldSized(w: World) {
    Sized(w.k) && w.sem < MAX_SEMAPHORES && |w.pids| == |w.workers|
  }

  // Worker i has the processor.
  predicate Has(w: World, i: nat)
    requires WorldSized(w)
  {
    i < |w.pids| && w.k.current != 0 && w.k.table[w.k.current].state == Running && CurrentPid(w.k) == w.pids[i]
  }

  // It has it in user mode.
  predicate InUserMode(w: World, i: nat)
    requires WorldSized(w)
  {
    Has(w, i) && w.k.current !in w.k.conts
  }

  /** What the machine allows, on runs that leave the semaphore open and to the workers. */
  ghost predicate Allowed(w: World, s: Step)
    requires WorldSized(w)
  {
    match s
    case Other(e) => Possible(w.k, e) && Careful(w.k, e) && Respects(w.k, e)
      && ActOf(w.k, e, w.sem).Nothing? && Apply(w.k, e).sems[w.sem].used
    case AskUnit(i, start) => start < PRIORITY_LEVELS && Has(w, i) && PipeRuns.MayWait(w.k, w.sem) && w.workers[i].pc.Outside?
    case Load(i) => InUserMode(w, i) && w.workers[i].pc.Inside?
    case Store(i) => InUserMode(w, i) && w.workers[i].pc.Loaded?
    case GiveUnit(i) => InUserMode(w, i) && w.workers[i].pc.Stored?
  }

  ghost function Next(w: World, s: Step): (r: World)
    requires WorldSized(w) && Allowed(w, s)
    ensures WorldSized(r)
  {
    match s
    case Other(e) => w.(k := Apply(w.k, e))
    case AskUnit(i, start) =>
      var k := SemWaitFrom(w.k, InWait(w.sem), start);
      if SemWait(w.k, w.sem).1 then w.(k := k, workers := w.workers[i := w.workers[i].(pc := T.Inside)]) else w.(k := k)
    case Load(i) => w.(workers := w.workers[i := w.workers[i].(pc := T.Loaded(w.global))])
    case Store(i) =>
      w.(global := T.Wrap(w.workers[i].pc.aux + w.workers[i].inc), workers := w.workers[i := w.workers[i].(pc := T.Stored)])
    case GiveUnit(i) => w.(k := SemPost(w.k, w.sem), workers := w.workers[i := T.AfterRound(w.workers[i])])
  }

  /** The semaphore as nothing but its value. */
  function Abs(w: World): T.State
    requires WorldSized(w)
  {
    T.State(w.global, w.k.sems[w.sem].value, true, w.workers)
  }

  lemma WaitRefines(w: World, i: nat, start: nat)
    requires Inv(w) && Allowed(w, AskUnit(i, start))
    ensures Inv(Next(w, AskUnit(i, start))) && Abs(Next(w, AskUnit(i, start))) == T.Next(Abs(w), i)
  {
    UnitTaken(w.k, w.sem, start);
    assert w.workers[i := w.workers[i]] == w.workers;
  }

  // sem_wait returns exactly when there is a unit, which it takes.
  lemma UnitTaken(k: Kernel, s: nat, start: nat)
    requires WaitInv(k) && s < MAX_SEMAPHORES && k.sems[s].used && start < PRIORITY_LEVELS && PipeRuns.MayWait(k, s)
    ensures var r := SemWaitFrom(k, InWait(s), start);
      && WaitInv(r) && r.sems[s].used && (SemWait(k, s).1 <==> k.sems[s].value > 0)
      && r.sems[s].value == if SemWait(k, s).1 then k.sems[s].value - 1 else k.sems[s].value
  {
    WaitStretch(k, InWait(s), start);
    SemWaitFromKeeps(k, InWait(s), start);
    SemWaitIs(k, s);
  }

  lemma PostRefines(w: World, i: nat)
    requires Inv(w) && Allowed(w, GiveUnit(i))
    ensures Inv(Next(w, GiveUnit(i))) && Abs(Next(w, GiveUnit(i))) == T.Next(Abs(w), i)
  {
    SemPostIs(w.k, w.sem);
    SemPostKeeps(w.k, w.sem);
    SemPostKeepsSems(w.k, w.sem);
    PostKeepsGoing(w.k, w.sem);
  }

  lemma OtherRefines(w: World, e: Event)
    requires Inv(w) && Allowed(w, Other(e))
    ensures Inv(Next(w, Other(e))) && Abs(Next(w, Other(e))) == Abs(w)
  {
    StepKeepsWaits(w.k, e);
    StepActs(w.k, e, w.sem);
  }

  /** Every step is one of the workers over a counter, or one they do not see. */
  lemma StepRefines(w: World, s: Step)
    requires Inv(w) && Allowed(w, s)
    ensures Inv(Next(w, s)) && |Next(w, s).workers| == |w.workers|
    ensures Abs(Next(w, s)) == if s.Other? then Abs(w) else T.Next(Abs(w), s.i)
    ensures !s.Other? ==> s.i < |w.workers|
  {
    match s {
      case Other(e) => OtherRefines(w, e);
      case AskUnit(i, start) => WaitRefines(w, i, start);
      case Load(i) =>
      case Store(i) =>
      case GiveUnit(i) => PostRefines(w, i);
    }
  }

  ghost predicate WorkerRun(w: World, steps: seq<Step>)
    requires WorldSized(w)
    decreases |steps|
  {
    steps == [] || (Allowed(w, steps[0]) && WorkerRun(Next(w, steps[0]), steps[1..]))
  }

  ghost function After(w: World, steps: seq<Step>): (r: World)
    requires WorldSized(w) && WorkerRun(w, steps)
    ensures WorldSized(r)
    decreases |steps|
  {
    if steps == [] then w else After(Next(w, steps[0]), steps[1..])
  }

  // Who goes when.
  function ScheduleOf(steps: seq<Step>): seq<nat> {
    if steps == [] then []
    else (if steps[0].Other? then [] else [steps[0].i]) + ScheduleOf(steps[1..])
  }

  /** Every run of the kernel is a schedule of the workers over a counter. */
  lemma {:induction false} RunRefines(w: World, steps: seq<Step>)
    requires Inv(w) && WorkerRun(w, steps)
    ensures Inv(After(w, steps)) && T.Schedule(w.workers, ScheduleOf(steps))
    ensures Abs(After(w, steps)) == T.Run(Abs(w), ScheduleOf(steps))
    decreases |steps|
  {
    if steps != [] {
      var s := steps[0];
      var w1 := Next(w, s);
      StepRefines(w, s);
      RunRefines(w1, steps[1..]);
      if !s.Other? {
        T.RunNext(Abs(w), s.i, Abs(w1), ScheduleOf(steps), ScheduleOf(steps[1..]));
      } else {
        assert ScheduleOf(steps) == ScheduleOf(steps[1..]);
      }
    }
  }

  /** Opening a semaphore with value 1 gives one that the workers can start with. */
  lemma OpensWithOne(k: Kernel, pids: seq<nat>, tasks: seq<T.Worker>)
    requires WaitInv(k) && Possible(k, SysSemOpen(1)) && CreateSem(k, 1).1 != -1 && |pids| == |tasks| && T.Tasks(tasks)
    ensures var w := World(Apply(k, SysSemOpen(1)), CreateSem(k, 1).1, 0, pids, tasks); Inv(w) && T.Initial(Abs(w))
  {
    StepKeepsWaits(k, SysSemOpen(1));
  }

  /** For any workers and any run of the kernel, once all have finished the shared number is the sum of all
      increments, in 64 bits, and the semaphore has its unit back. */
  lemma KernelFinalValue(w: World, steps: seq<Step>)
    requires Inv(w) && T.Initial(Abs(w)) && WorkerRun(w, steps) && T.AllFinished(Abs(After(w, steps)))
    ensures After(w, steps).global == T.Wrap(T.Total(w.workers)) && After(w, steps).k.sems[w.sem].value == 1
  {
    RunRefines(w, steps);
    SameSemaphore(w, steps);
    T.FinalValue(Abs(w), ScheduleOf(steps));
  }

  lemma {:induction false} SameSemaphore(w: World, steps: seq<Step>)
    requires WorldSized(w) && WorkerRun(w, steps)
    ensures After(w, steps).sem == w.sem && |After(w, steps).workers| == |w.workers|
    decreases |steps|
  {
    if steps != [] {
      SameSemaphore(Next(w, steps[0]), steps[1..]);
    }
  }
}
