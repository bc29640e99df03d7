/** A pipe in a running kernel: any number of processes read and write it, are switched out, woken and
    overtaken; the keyboard writes to it from its interrupt. */
module PipeRuns {
  import opened KernelState
  import opened KernelRuns
  import opened SchedulerProofs
  import opened SemaphoreRings
  import opened SemaphoreState
  import opened SemaphoreSteps
  import opened SemaphoreProofs
  import opened SemaphoreProgress
  import opened SemaphoreRuns
  import opened SemaphoreLedger
  import opened Pipes

  /** The kernel, one of its pipes, and all bytes ever written to it and read from it. */
  datatype World = World(k: Kernel, p: Pipe, written: seq<byte>, read: seq<byte>)

  datatype Step =
    | Other(e: Event)              // a kernel entry that does not use the semaphores of the pipe
    | Read(start: nat)             // read_pipe: sem_wait from the call or the last yield; a byte if it returns
    | Write(b: byte, start: nat)   // write_pipe
    | ReadNow                      // a turn of read_pipe_nonblocking
    | WriteNow(b: byte)            // a turn of write_pipe_nonblocking, also from the keyboard interrupt

  ghost predicate PipeInv(w: World) {
    && WaitInv(w.k) && PipeSized(w.p)
    && w.p.readSem != w.p.writeSem && 0 <= w.p.readSem < MAX_SEMAPHORES && 0 <= w.p.writeSem < MAX_SEMAPHORES
    && w.k.sems[w.p.readSem].used && w.k.sems[w.p.writeSem].used
    && w.k.sems[w.p.readSem].value == Length(w.p)
    && w.k.sems[w.p.writeSem].value == PIPE_BUFFER_SIZE - 1 - Length(w.p)
    && w.written == w.read + Contents(w.p)
  }

  predicate WorldSized(w: World) {
    Sized(w.k) && PipeSized(w.p) && 0 <= w.p.readSem < MAX_SEMAPHORES && 0 <= w.p.writeSem < MAX_SEMAPHORES
  }

  // The current process is in user mode, or inside sem_wait on s.
  predicate MayWait(k: Kernel, s: int)
    requires Sized(k)
  {
    k.current != 0 && k.table[k.current].state == Running && (k.current in k.conts ==> k.conts[k.current] == InWait(s))
  }

  /** What the machine allows, on runs that leave the pipe open and its semaphores to it. */
  ghost predicate Allowed(w: World, s: Step)
    requires WorldSized(w)
  {
    match s
    case Other(e) => Possible(w.k, e) && Careful(w.k, e) && Respects(w.k, e)
      && ActOf(w.k, e, w.p.readSem).Nothing? && ActOf(w.k, e, w.p.writeSem).Nothing?
      && Apply(w.k, e).sems[w.p.readSem].used && Apply(w.k, e).sems[w.p.writeSem].used
    case Read(start) => start < PRIORITY_LEVELS && MayWait(w.k, w.p.readSem)
    case Write(_, start) => start < PRIORITY_LEVELS && MayWait(w.k, w.p.writeSem)
    case ReadNow => !(w.k.current in w.k.conts && w.k.table[w.k.current].state == Running)
    case WriteNow(_) => !(w.k.current in w.k.conts && w.k.table[w.k.current].state == Running)
  }

  // The ring gives up a byte, and the writers get a cell.
  function TakeByte(w: World, k: Kernel): World
    requires Sized(k) && PipeSized(w.p)
  {
    var (p, b) := Pop(w.p);
    World(SemPost(k, w.p.writeSem), p, w.written, w.read + [b])
  }

  function PutByte(w: World, k: Kernel, b: byte): World
    requires Sized(k) && PipeSized(w.p)
  {
    World(SemPost(k, w.p.readSem), Push(w.p, b), w.written + [b], w.read)
  }

  ghost function Next(w: World, s: Step): (r: World)
    requires WorldSized(w) && Allowed(w, s)
    ensures WorldSized(r)
  {
    match s
    case Other(e) => w.(k := Apply(w.k, e))
    case Read(start) =>
      var k := SemWaitFrom(w.k, InWait(w.p.readSem), start);
      if SemWait(w.k, w.p.readSem).1 then TakeByte(w, k) else w.(k := k)
    case Write(b, start) =>
      var k := SemWaitFrom(w.k, InWait(w.p.writeSem), start);
      if SemWait(w.k, w.p.writeSem).1 then PutByte(w, k, b) else w.(k := k)
    case ReadNow =>
      if SemValue(w.k, w.p.readSem) <= 0 then w else TakeByte(w, SemWait(w.k, w.p.readSem).0)
    case WriteNow(b) =>
      if SemValue(w.k, w.p.writeSem) <= 0 then w else PutByte(w, SemWait(w.k, w.p.writeSem).0, b)
  }

  // ---------------------------------------------------------------- the semaphores of one turn

  // k had a unit of s taken from it and is otherwise as far as the pipe is concerned.
  ghost predicate UnitTaken(w: World, k: Kernel, s: int)
    requires PipeInv(w)
  {
    && WaitInv(k) && 0 <= s < MAX_SEMAPHORES && w.k.sems[s].value > 0
    && k.sems == w.k.sems[s := w.k.sems[s].(value := w.k.sems[s].value - 1)]
  }

  lemma TakeByteKeeps(w: World, k: Kernel)
    requires PipeInv(w) && UnitTaken(w, k, w.p.readSem)
    ensures PipeInv(TakeByte(w, k))
  {
    PopTakesHead(w.p);
    PostUnit(k, w.p.writeSem, w.p.readSem);
    assert w.read + Contents(w.p) == (w.read + [Pop(w.p).1]) + Contents(Pop(w.p).0);
  }

  lemma PutByteKeeps(w: World, k: Kernel, b: byte)
    requires PipeInv(w) && UnitTaken(w, k, w.p.writeSem)
    ensures PipeInv(PutByte(w, k, b))
  {
    PushAppendsExactlyWhen(w.p, b);
    assert |Contents(Push(w.p, b))| == |Contents(w.p)| + 1;
    PostUnit(k, w.p.readSem, w.p.writeSem);
    assert w.written + [b] == w.read + (Contents(w.p) + [b]);
  }

  // A post adds a unit to its semaphore and leaves the other as it is.
  lemma PostUnit(k: Kernel, s: int, t: int)
    requires WaitInv(k) && 0 <= s < MAX_SEMAPHORES && 0 <= t < MAX_SEMAPHORES && s != t && k.sems[s].used
    ensures var r := SemPost(k, s); WaitInv(r) && r.sems[t] == k.sems[t]
    ensures var r := SemPost(k, s); r.sems[s].used && r.sems[s].value == k.sems[s].value + 1
  {
    SemPostIs(k, s);
    SemPostKeeps(k, s);
    SemPostKeepsSems(k, s);
    PostKeepsGoing(k, s);
  }

  /** sem_wait that returns has taken a unit; one that yields has not changed any value. */
  lemma WaitUnit(w: World, s: int, start: nat)
    requires PipeInv(w) && start < PRIORITY_LEVELS && MayWait(w.k, s) && (s == w.p.readSem || s == w.p.writeSem)
    ensures SemWait(w.k, s).1 ==> UnitTaken(w, SemWaitFrom(w.k, InWait(s), start), s)
    ensures !SemWait(w.k, s).1 ==> PipeInv(w.(k := SemWaitFrom(w.k, InWait(s), start)))
  {
    var k := SemWaitFrom(w.k, InWait(s), start);
    WaitStretch(w.k, InWait(s), start);
    SemWaitFromKeeps(w.k, InWait(s), start);
    SemWaitIs(w.k, s);
  }

  /** A turn of a non-blocking form takes its unit at once: it never reaches the branch that blocks. */
  lemma UnitNow(w: World, s: int)
    requires PipeInv(w) && (s == w.p.readSem || s == w.p.writeSem) && SemValue(w.k, s) > 0
    ensures SemWait(w.k, s).1 && UnitTaken(w, SemWait(w.k, s).0, s)
  {
    SemWaitIs(w.k, s);
    TakenKeepsSems(w.k, s);
    TakenKeepsGoing(w.k, s);
    SetSemKeeps(w.k, s, Taken(w.k, s));
  }

  function Taken(k: Kernel, s: nat): Semaphore
    requires Sized(k) && s < MAX_SEMAPHORES && k.sems[s].value > 0
  {
    k.sems[s].(value := k.sems[s].value - 1)
  }

  lemma TakenKeepsSems(k: Kernel, s: nat)
    requires SemInv(k) && s < MAX_SEMAPHORES && k.sems[s].value > 0
    ensures SemInv(SetSem(k, s, Taken(k, s)))
  {
    var r := SetSem(k, s, Taken(k, s));
    assert RingOk(k.sems[s]) && CellsOk(k, s) && Bound(k, s);
    assert Woken(r, s) == Woken(k, s);
    forall c | 0 <= c < MAX_PROCESSES && r.sems[s].waiting[c] != NOT_A_PROCESS
      ensures WaiterOk(r, s, r.sems[s].waiting[c])
    {
      assert WaiterOk(k, s, k.sems[s].waiting[c]);
    }
    SetSemKept(k, s, Taken(k, s));
  }

  lemma TakenKeepsGoing(k: Kernel, s: nat)
    requires Sized(k) && WokenAreGoing(k) && s < MAX_SEMAPHORES && k.sems[s].value > 0
    ensures Sized(SetSem(k, s, Taken(k, s))) && WokenAreGoing(SetSem(k, s, Taken(k, s)))
  {
    var r := SetSem(k, s, Taken(k, s));
    forall i | i in r.conts && i < MAX_PROCESSES && !QueuedSlot(r, i)
      ensures Going(r.table[i])
    {
      assert !QueuedSlot(k, i);
    }
  }

  // ---------------------------------------------------------------- runs

  lemma OtherKeeps(w: World, e: Event)
    requires PipeInv(w) && Allowed(w, Other(e))
    ensures PipeInv(Next(w, Other(e)))
  {
    StepKeepsWaits(w.k, e);
    StepActs(w.k, e, w.p.readSem);
    StepActs(w.k, e, w.p.writeSem);
  }

  lemma StepKeepsPipe(w: World, s: Step)
    requires PipeInv(w) && Allowed(w, s)
    ensures PipeInv(Next(w, s))
  {
    match s {
      case Other(e) => OtherKeeps(w, e);
      case Read(start) => ReadKeeps(w, start);
      case Write(b, start) => WriteKeeps(w, b, start);
      case ReadNow =>
        if SemValue(w.k, w.p.readSem) > 0 {
          UnitNow(w, w.p.readSem);
          TakeByteKeeps(w, SemWait(w.k, w.p.readSem).0);
        }
      case WriteNow(b) =>
        if SemValue(w.k, w.p.writeSem) > 0 {
          UnitNow(w, w.p.writeSem);
          PutByteKeeps(w, SemWait(w.k, w.p.writeSem).0, b);
        }
    }
  }

  lemma ReadKeeps(w: World, start: nat)
    requires PipeInv(w) && Allowed(w, Read(start))
    ensures PipeInv(Next(w, Read(start)))
  {
    WaitUnit(w, w.p.readSem, start);
    if SemWait(w.k, w.p.readSem).1 {
      TakeByteKeeps(w, SemWaitFrom(w.k, InWait(w.p.readSem), start));
    }
  }

  lemma WriteKeeps(w: World, b: byte, start: nat)
    requires PipeInv(w) && Allowed(w, Write(b, start))
    ensures PipeInv(Next(w, Write(b, start)))
  {
    WaitUnit(w, w.p.writeSem, start);
    if SemWait(w.k, w.p.writeSem).1 {
      PutByteKeeps(w, SemWaitFrom(w.k, InWait(w.p.writeSem), start), b);
    }
  }

  /** A run the machine allows. */
  ghost predicate PipeRun(w: World, steps: seq<Step>)
    requires WorldSized(w)
    decreases |steps|
  {
    steps == [] || (Allowed(w, steps[0]) && PipeRun(Next(w, steps[0]), steps[1..]))
  }

  ghost function After(w: World, steps: seq<Step>): World
    requires WorldSized(w) && PipeRun(w, steps)
    decreases |steps|
  {
    if steps == [] then w else After(Next(w, steps[0]), steps[1..])
  }

  /** The bytes written are the bytes read followed by those in the ring, and the two semaphores count the
      full and the free cells, one cell always staying free. */
  predicate FifoInOrder(w: World) {
    && PipeSized(w.p) && 0 <= w.p.readSem < |w.k.sems| && 0 <= w.p.writeSem < |w.k.sems|
    && w.written == w.read + Contents(w.p)
    && w.k.sems[w.p.readSem].value == Length(w.p)
    && w.k.sems[w.p.writeSem].value == PIPE_BUFFER_SIZE - 1 - Length(w.p)
  }

  /** The pipe is a bounded first-in first-out channel in every state of every run. */
  lemma {:induction false} BoundedFifo(w: World, steps: seq<Step>, r: World)
    requires PipeInv(w) && PipeRun(w, steps) && r == After(w, steps)
    ensures PipeInv(r) && FifoInOrder(r)
    decreases |steps|
  {
    if steps != [] {
      StepKeepsPipe(w, steps[0]);
      BoundedFifo(Next(w, steps[0]), steps[1..], r);
    }
  }

  /** No reader stays behind: while readers are queued and bytes are in the ring, there are at least as many
      woken readers on their way as bytes, each of them running or in a ready queue. */
  lemma ReadersAreComing(w: World)
    requires PipeInv(w) && Queue(w.k.sems[w.p.readSem]) != []
    ensures Length(w.p) <= |Woken(w.k, w.p.readSem)|
    ensures forall i :: i in Woken(w.k, w.p.readSem) ==> w.k.table[i].state == Running || (w.k.table[i].state == Ready && HasEntry(w.k, i))
  {
    var k, s := w.k, w.p.readSem;
    assert Bound(k, s);
    WokenAreScheduled(k, s);
  }

  /** No writer stays behind either, while there are free cells. */
  lemma WritersAreComing(w: World)
    requires PipeInv(w) && Queue(w.k.sems[w.p.writeSem]) != []
    ensures PIPE_BUFFER_SIZE - 1 - Length(w.p) <= |Woken(w.k, w.p.writeSem)|
    ensures forall i :: i in Woken(w.k, w.p.writeSem) ==> w.k.table[i].state == Running || (w.k.table[i].state == Ready && HasEntry(w.k, i))
  {
    var k, s := w.k, w.p.writeSem;
    assert Bound(k, s);
    WokenAreScheduled(k, s);
  }
}
