/** The blocking calls of a pipe: each turn is a step of the pipe in the running kernel, and the loops move their bytes
    in order up to their end or to where the caller has to wait. */
module PipeTurns {
  import opened KernelState
  import opened KernelRuns
  import opened SemaphoreRings
  import opened Pipes
  import PipeRuns
  import opened PipeManager
  import SchedulerProofs
  import SemaphoreProofs
  import SemaphoreRuns

  /** The caller runs outside sem_wait. */
  predicate Calls(k: Kernel) {
    Sized(k) && k.current != 0 && k.table[k.current].state == Running && k.current !in k.conts
  }

  /** The caller runs, and has just called, or goes on after it was switched out inside sem_wait on s. */
  predicate Enters(k: Kernel, s: int) { Sized(k) && PipeRuns.MayWait(k, s) }

  // The kernel for a caller that goes on: it is no longer switched out.
  function Back(k: Kernel): Kernel { k.(conts := k.conts - {k.current}) }

  function BackIn(c: Channel): Channel { c.(k := Back(c.k)) }

  lemma BackIsNothing(c: Channel)
    requires Calls(c.k)
    ensures BackIn(c) == c
  {
    assert c.k.conts - {c.k.current} == c.k.conts;
  }

  /** The caller waits on s where it was: it is blocked and the last in its ring. */
  predicate WaitsOn(k: Kernel, s: int) {
    && Sized(k) && 0 <= s < MAX_SEMAPHORES && k.table[k.current].state == Blocked
    && Queue(k.sems[s]) != [] && Queue(k.sems[s])[|Queue(k.sems[s])| - 1] == CurrentPid(k)
  }

  // The kernel once a caller that waits on s has been switched out.
  function SwitchedOut(k: Kernel, s: int, start: nat): Kernel
    requires Sized(k) && start < PRIORITY_LEVELS
  {
    Scheduler(k.(conts := k.conts[k.current := InWait(s)]), start)
  }

  function WorldOf(c: Channel): PipeRuns.World
    requires PipeSized(c.p)
  {
    PipeRuns.World(c.k, c.p, Contents(c.p), [])
  }

  // ---------------------------------------------------------------- one turn

  lemma WaitingBack(k: Kernel, s: int)
    requires Sized(k)
    ensures Sized(Back(k)) && SemWait(Back(k), s) == (Back(SemWait(k, s).0), SemWait(k, s).1)
  {
    if !InvalidSem(k, s) {
      SchedulerProofs.SemWaitIs(k, s);
      SchedulerProofs.SemWaitIs(Back(k), s);
      var x := SchedulerProofs.Queued(k.sems[s], CurrentPid(k));
      BlockingBack(SetSem(k, s, x), CurrentPid(k));
      assert SetSem(Back(k), s, x) == Back(SetSem(k, s, x));
    }
  }

  lemma BlockingBack(k: Kernel, pid: nat)
    requires Sized(k)
    ensures Sized(Back(k)) && Block(Back(k), pid).0 == Back(Block(k, pid).0)
  {
  }

  lemma WaitingIs(k: Kernel, s: int)
    requires SemaphoreRuns.WaitInv(k) && Enters(k, s) && 0 <= s < MAX_SEMAPHORES && k.sems[s].used
    ensures Sized(Back(k)) && (SemWait(Back(k), s).1 <==> k.sems[s].value > 0)
    ensures SemWait(Back(k), s).1 ==> Calls(SemWait(Back(k), s).0)
    ensures !SemWait(Back(k), s).1 ==> WaitsOn(SemWait(Back(k), s).0, s)
  {
    WaitingBack(k, s);
    SchedulerProofs.SemWaitIs(k, s);
    if k.sems[s].value == 0 {
      SlotIs(k, k.current);
      SemaphoreProofs.RunningIsNotQueued(k, s);
      SemaphoreProofs.RingHasRoom(k, s);
      WaitAppends(k.sems[s], CurrentPid(k));
    }
  }

  // sem_wait, called or gone on with, up to the switch.
  lemma WaitFromIs(k: Kernel, s: int, start: nat)
    requires Sized(k) && start < PRIORITY_LEVELS
    ensures Sized(Back(k)) && var (r, done) := SemWait(Back(k), s);
      && done == SemWait(k, s).1
      && SemWaitFrom(k, InWait(s), start) == if done then r else SwitchedOut(r, s, start)
  {
    var k1 := SemWait(k, s).0;
    WaitingBack(k, s);
    assert k1.current == k.current;
    assert (k1.conts - {k1.current})[k1.current := InWait(s)] == k1.conts[k1.current := InWait(s)];
  }

  /** A turn of write_pipe is the step Write of the running pipe, up to the switch when the caller has to wait. */
  lemma WriteIsStep(c: Channel, b: byte, start: nat)
    requires InOrder(c) && Enters(c.k, c.p.writeSem) && start < PRIORITY_LEVELS
    ensures PipeRuns.Allowed(WorldOf(c), PipeRuns.Write(b, start))
    ensures var t := WriteOn(BackIn(c), b); ChannelSized(t.state) && (t.Stop? ==> t.state.p == c.p)
    ensures var t := WriteOn(BackIn(c), b);
      PipeRuns.Next(WorldOf(c), PipeRuns.Write(b, start)) ==
        if t.Go? then PipeRuns.World(t.state.k, t.state.p, Contents(c.p) + [b], [])
        else PipeRuns.World(SwitchedOut(t.state.k, c.p.writeSem, start), c.p, Contents(c.p), [])
  {
    WaitFromIs(c.k, c.p.writeSem, start);
    WaitingIs(c.k, c.p.writeSem);
  }

  /** A turn of read_pipe likewise. */
  lemma ReadIsStep(c: Channel, start: nat)
    requires InOrder(c) && Enters(c.k, c.p.readSem) && start < PRIORITY_LEVELS
    ensures PipeRuns.Allowed(WorldOf(c), PipeRuns.Read(start))
    ensures var t := ReadOn(BackIn(c)); ChannelSized(t.state) && (t.Stop? ==> t.state.p == c.p)
    ensures var t := ReadOn(BackIn(c));
      PipeRuns.Next(WorldOf(c), PipeRuns.Read(start)) ==
        if t.Go? then PipeRuns.World(t.state.k, t.state.p, Contents(c.p), [t.b])
        else PipeRuns.World(SwitchedOut(t.state.k, c.p.readSem, start), c.p, Contents(c.p), [])
  {
    WaitFromIs(c.k, c.p.readSem, start);
    WaitingIs(c.k, c.p.readSem);
    assert [] + [Pop(c.p).1] == [Pop(c.p).1];
  }

  // The caller keeps the processor when it posts.
  lemma PostingCalls(k: Kernel, s: int)
    requires Calls(k)
    ensures Calls(SemPost(k, s))
  {
  }

  /** A caller that stopped waits on s, the bytes are as they were, and once it is switched out the pipe is in
      order. */
  ghost predicate Stopped(c: Channel, r: Channel, s: int) {
    && PipeSized(c.p) && r.p == c.p && WaitsOn(r.k, s) && r.k.current == c.k.current
    && forall start {:trigger SwitchedOut(r.k, s, start)} :: 0 <= start < PRIORITY_LEVELS ==> InOrder(Channel(SwitchedOut(r.k, s, start), r.p))
  }

  /** A turn of write_pipe stores its byte exactly when fewer than 511 are in the pipe; otherwise the caller waits for
      room. */
  lemma WritesOn(c: Channel, b: byte)
    requires InOrder(c) && Enters(c.k, c.p.writeSem)
    ensures var t := WriteOn(BackIn(c), b);
      && (t.Go? <==> Length(c.p) < PIPE_BUFFER_SIZE - 1)
      && (t.Go? ==> InOrder(t.state) && Calls(t.state.k) && Contents(t.state.p) == Contents(c.p) + [b])
      && (t.Stop? ==> Stopped(c, t.state, c.p.writeSem))
  {
    var t := WriteOn(BackIn(c), b);
    WaitingIs(c.k, c.p.writeSem);
    forall start | 0 <= start < PRIORITY_LEVELS && t.Stop?
      ensures InOrder(Channel(SwitchedOut(t.state.k, c.p.writeSem, start), t.state.p))
    {
      WriteStep(c, b, start);
    }
    WriteStep(c, b, 0);
    if t.Go? {
      WrittenCalls(c, b);
    }
  }

  lemma WriteStep(c: Channel, b: byte, start: nat)
    requires InOrder(c) && Enters(c.k, c.p.writeSem) && start < PRIORITY_LEVELS
    ensures var t := WriteOn(BackIn(c), b); ChannelSized(t.state) && (t.Stop? ==> t.state.p == c.p)
    ensures var t := WriteOn(BackIn(c), b); t.Go? ==> InOrder(t.state) && Contents(t.state.p) == Contents(c.p) + [b]
    ensures var t := WriteOn(BackIn(c), b); t.Stop? ==> InOrder(Channel(SwitchedOut(t.state.k, c.p.writeSem, start), c.p))
  {
    WriteIsStep(c, b, start);
    PipeRuns.StepKeepsPipe(WorldOf(c), PipeRuns.Write(b, start));
    var w := PipeRuns.Next(WorldOf(c), PipeRuns.Write(b, start));
    HistoryFree(w);
    assert Contents(w.p) == [] + Contents(w.p);
  }

  lemma WrittenCalls(c: Channel, b: byte)
    requires InOrder(c) && Enters(c.k, c.p.writeSem) && WriteOn(BackIn(c), b).Go?
    ensures Calls(WriteOn(BackIn(c), b).state.k)
  {
    WaitingIs(c.k, c.p.writeSem);
    PostingCalls(SemWait(Back(c.k), c.p.writeSem).0, c.p.readSem);
  }

  /** A turn of read_pipe takes the oldest byte exactly when there is one; otherwise the caller waits for it. */
  lemma ReadsOn(c: Channel)
    requires InOrder(c) && Enters(c.k, c.p.readSem)
    ensures var t := ReadOn(BackIn(c));
      && (t.Go? <==> Contents(c.p) != [])
      && (t.Go? ==> InOrder(t.state) && Calls(t.state.k) && Contents(c.p) == [t.b] + Contents(t.state.p))
      && (t.Stop? ==> Stopped(c, t.state, c.p.readSem))
  {
    var t := ReadOn(BackIn(c));
    WaitingIs(c.k, c.p.readSem);
    forall start | 0 <= start < PRIORITY_LEVELS && t.Stop?
      ensures InOrder(Channel(SwitchedOut(t.state.k, c.p.readSem, start), t.state.p))
    {
      ReadStep(c, start);
    }
    ReadStep(c, 0);
    if t.Go? {
      ReadCalls(c);
    }
  }

  lemma ReadStep(c: Channel, start: nat)
    requires InOrder(c) && Enters(c.k, c.p.readSem) && start < PRIORITY_LEVELS
    ensures var t := ReadOn(BackIn(c)); ChannelSized(t.state) && (t.Stop? ==> t.state.p == c.p)
    ensures var t := ReadOn(BackIn(c)); t.Go? ==> InOrder(t.state) && Contents(c.p) == [t.b] + Contents(t.state.p)
    ensures var t := ReadOn(BackIn(c)); t.Stop? ==> InOrder(Channel(SwitchedOut(t.state.k, c.p.readSem, start), c.p))
  {
    ReadIsStep(c, start);
    PipeRuns.StepKeepsPipe(WorldOf(c), PipeRuns.Read(start));
    HistoryFree(PipeRuns.Next(WorldOf(c), PipeRuns.Read(start)));
  }

  lemma ReadCalls(c: Channel)
    requires InOrder(c) && Enters(c.k, c.p.readSem) && ReadOn(BackIn(c)).Go?
    ensures Calls(ReadOn(BackIn(c)).state.k)
  {
    WaitingIs(c.k, c.p.readSem);
    PostingCalls(SemWait(Back(c.k), c.p.readSem).0, c.p.writeSem);
  }

  // ---------------------------------------------------------------- the loops

  // Where a writing loop is after n of its bytes: at its end, or halted.
  ghost predicate Wrote<T>(contents: T -> seq<byte>, room: nat, inv: T -> bool, halted: T -> bool, before: seq<byte>, bytes: seq<byte>, out: (T, nat)) {
    && |before| <= room && out.1 == Min(|bytes|, room - |before|) && contents(out.0) == before + bytes[..out.1]
    && if out.1 == |bytes| then inv(out.0) else halted(out.0)
  }

  // A turn stores its byte if there is room, and halts otherwise.
  ghost predicate WritesTurn<T>(contents: T -> seq<byte>, room: nat, inv: T -> bool, halted: T -> bool, before: seq<byte>, b: byte, t: Turn<T>) {
    && (t.Go? <==> |before| < room)
    && (t.Go? ==> inv(t.state) && contents(t.state) == before + [b])
    && (t.Stop? ==> halted(t.state) && contents(t.state) == before)
  }

  lemma WriteGoesOn<T>(contents: T -> seq<byte>, room: nat, inv: T -> bool, halted: T -> bool, before: seq<byte>, bytes: seq<byte>, t: Turn<T>, rest: (T, nat))
    requires bytes != [] && |before| <= room && WritesTurn(contents, room, inv, halted, before, bytes[0], t)
    requires t.Go? ==> Wrote(contents, room, inv, halted, contents(t.state), bytes[1..], rest)
    ensures Wrote(contents, room, inv, halted, before, bytes, if t.Go? then (rest.0, rest.1 + 1) else (t.state, 0))
  {
    if t.Go? {
      var n := rest.1;
      assert bytes[..n + 1] == [bytes[0]] + bytes[1..][..n];
      assert (before + [bytes[0]]) + bytes[1..][..n] == before + ([bytes[0]] + bytes[1..][..n]);
    } else {
      assert before + bytes[..0] == before;
    }
  }

  lemma {:induction false} WriteLoopHalts<T(!new)>(turn: (T, byte) -> Turn<T>, contents: T -> seq<byte>, room: nat, inv: T -> bool, halted: T -> bool, t: T, bytes: seq<byte>)
    requires inv(t) && |contents(t)| <= room
    requires forall x, b {:trigger turn(x, b)} :: inv(x) ==> WritesTurn(contents, room, inv, halted, contents(x), b, turn(x, b))
    ensures Wrote(contents, room, inv, halted, contents(t), bytes, WriteLoop(turn, t, bytes))
    decreases |bytes|
  {
    if bytes == [] {
      assert contents(t) + bytes[..0] == contents(t);
    } else {
      var t1 := turn(t, bytes[0]);
      if t1.Go? {
        WriteLoopHalts(turn, contents, room, inv, halted, t1.state, bytes[1..]);
      }
      WriteGoesOn(contents, room, inv, halted, contents(t), bytes, t1, WriteLoop(turn, t1.state, bytes[1..]));
    }
  }

  // Where a reading loop is after its bytes: at its end, or halted.
  ghost predicate GotBytes<T>(contents: T -> seq<byte>, inv: T -> bool, halted: T -> bool, before: seq<byte>, n: nat, out: (T, seq<byte>)) {
    && |out.1| == Min(n, |before|) && before == out.1 + contents(out.0)
    && if |out.1| == n then inv(out.0) else halted(out.0)
  }

  // A turn takes the oldest byte if there is one, and halts otherwise.
  ghost predicate ReadsTurn<T>(contents: T -> seq<byte>, inv: T -> bool, halted: T -> bool, before: seq<byte>, t: Turn<T>) {
    && (t.Go? <==> before != [])
    && (t.Go? ==> inv(t.state) && before == [t.b] + contents(t.state))
    && (t.Stop? ==> halted(t.state) && contents(t.state) == before)
  }

  lemma ReadGoesOn<T>(contents: T -> seq<byte>, inv: T -> bool, halted: T -> bool, before: seq<byte>, n: nat, t: Turn<T>, rest: (T, seq<byte>))
    requires n > 0 && ReadsTurn(contents, inv, halted, before, t)
    requires t.Go? ==> GotBytes(contents, inv, halted, contents(t.state), n - 1, rest)
    ensures GotBytes(contents, inv, halted, before, n, if t.Go? then (rest.0, [t.b] + rest.1) else (t.state, []))
  {
    if t.Go? {
      assert [t.b] + (rest.1 + contents(rest.0)) == ([t.b] + rest.1) + contents(rest.0);
    } else {
      assert [] + contents(t.state) == contents(t.state);
    }
  }

  lemma {:induction false} ReadLoopHalts<T(!new)>(turn: T -> Turn<T>, contents: T -> seq<byte>, inv: T -> bool, halted: T -> bool, t: T, n: nat)
    requires inv(t)
    requires forall x {:trigger turn(x)} :: inv(x) ==> ReadsTurn(contents, inv, halted, contents(x), turn(x))
    ensures GotBytes(contents, inv, halted, contents(t), n, ReadLoop(turn, t, n))
    decreases n
  {
    if n == 0 {
      assert [] + contents(t) == contents(t);
    } else {
      var t1 := turn(t);
      if t1.Go? {
        ReadLoopHalts(turn, contents, inv, halted, t1.state, n - 1);
      }
      ReadGoesOn(contents, inv, halted, contents(t), n, t1, ReadLoop(turn, t1.state, n - 1));
    }
  }

  // The same where only the first turn is known to be one of those.
  lemma WriteLoopFrom<T(!new)>(turn: (T, byte) -> Turn<T>, contents: T -> seq<byte>, room: nat, inv: T -> bool, halted: T -> bool,
                               before: seq<byte>, t: T, bytes: seq<byte>, out: (T, nat))
    requires |before| <= room && bytes != [] && WritesTurn(contents, room, inv, halted, before, bytes[0], turn(t, bytes[0]))
    requires forall x, b {:trigger turn(x, b)} :: inv(x) ==> WritesTurn(contents, room, inv, halted, contents(x), b, turn(x, b))
    requires out == WriteLoop(turn, t, bytes)
    ensures Wrote(contents, room, inv, halted, before, bytes, out)
  {
    var t1 := turn(t, bytes[0]);
    if t1.Go? {
      WriteLoopHalts(turn, contents, room, inv, halted, t1.state, bytes[1..]);
    }
    WriteGoesOn(contents, room, inv, halted, before, bytes, t1, WriteLoop(turn, t1.state, bytes[1..]));
  }

  lemma ReadLoopFrom<T(!new)>(turn: T -> Turn<T>, contents: T -> seq<byte>, inv: T -> bool, halted: T -> bool, before: seq<byte>, t: T, n: nat,
                              out: (T, seq<byte>))
    requires n > 0 && ReadsTurn(contents, inv, halted, before, turn(t)) && out == ReadLoop(turn, t, n)
    requires forall x {:trigger turn(x)} :: inv(x) ==> ReadsTurn(contents, inv, halted, contents(x), turn(x))
    ensures GotBytes(contents, inv, halted, before, n, out)
  {
    var t1 := turn(t);
    if t1.Go? {
      ReadLoopHalts(turn, contents, inv, halted, t1.state, n - 1);
    }
    ReadGoesOn(contents, inv, halted, before, n, t1, ReadLoop(turn, t1.state, n - 1));
  }

  // ---------------------------------------------------------------- the blocking calls

  // The caller has moved everything it was asked to so far, on a pipe with these semaphores.
  ghost predicate GoesOn(c: Channel, rs: int, ws: int) { InOrder(c) && Calls(c.k) && c.p.readSem == rs && c.p.writeSem == ws }

  /** The caller has stopped in a pipe that was in order, and waits on s. */
  ghost predicate Halted(r: Channel, s: int) { exists c :: InOrder(c) && Stopped(c, r, s) }

  lemma WriteTurnIs(c: Channel, b: byte, rs: int, ws: int)
    requires InOrder(c) && Enters(c.k, ws) && c.p.readSem == rs && c.p.writeSem == ws
    ensures WritesTurn(ContentsOf, PIPE_BUFFER_SIZE - 1, (x: Channel) => GoesOn(x, rs, ws), (x: Channel) => Halted(x, ws), Contents(c.p), b,
                       WriteOn(BackIn(c), b))
  {
    WritesOn(c, b);
  }

  lemma ReadTurnIs(c: Channel, rs: int, ws: int)
    requires InOrder(c) && Enters(c.k, rs) && c.p.readSem == rs && c.p.writeSem == ws
    ensures ReadsTurn(ContentsOf, (x: Channel) => GoesOn(x, rs, ws), (x: Channel) => Halted(x, rs), Contents(c.p), ReadOn(BackIn(c)))
  {
    ReadsOn(c);
  }

  /** write_pipe, called or gone on with, appends its bytes in order: all of them if they fit, keeping one cell free;
      otherwise as many as fit, and then the caller waits for room. */
  lemma BlockingWritesInOrder(c: Channel, bytes: seq<byte>)
    requires InOrder(c) && Enters(c.k, c.p.writeSem) && bytes != []
    ensures var (r, n) := WriteLoop(WriteOn, BackIn(c), bytes);
      && n == Min(|bytes|, PIPE_BUFFER_SIZE - 1 - Length(c.p)) && ContentsOf(r) == Contents(c.p) + bytes[..n]
      && if n == |bytes| then InOrder(r) && Calls(r.k) else Halted(r, c.p.writeSem)
  {
    var rs, ws := c.p.readSem, c.p.writeSem;
    var inv := (x: Channel) => GoesOn(x, rs, ws);
    var halted := (x: Channel) => Halted(x, ws);
    var room := PIPE_BUFFER_SIZE - 1;
    forall x, b | inv(x)
      ensures WritesTurn(ContentsOf, room, inv, halted, ContentsOf(x), b, WriteOn(x, b))
    {
      BackIsNothing(x);
      WriteTurnIs(x, b, rs, ws);
    }
    WriteTurnIs(c, bytes[0], rs, ws);
    WriteLoopFrom(WriteOn, ContentsOf, room, inv, halted, Contents(c.p), BackIn(c), bytes, WriteLoop(WriteOn, BackIn(c), bytes));
  }

  /** read_pipe, called or gone on with, takes the oldest bytes in order: as many as asked for if they are there;
      otherwise all there are, and then the caller waits for more. */
  lemma BlockingReadsOldest(c: Channel, n: nat)
    requires InOrder(c) && Enters(c.k, c.p.readSem) && n > 0
    ensures var (r, bytes) := ReadLoop(ReadOn, BackIn(c), n);
      && |bytes| == Min(n, Length(c.p)) && Contents(c.p) == bytes + ContentsOf(r)
      && if |bytes| == n then InOrder(r) && Calls(r.k) else Halted(r, c.p.readSem)
  {
    var rs, ws := c.p.readSem, c.p.writeSem;
    var inv := (x: Channel) => GoesOn(x, rs, ws);
    var halted := (x: Channel) => Halted(x, rs);
    forall x | inv(x)
      ensures ReadsTurn(ContentsOf, inv, halted, ContentsOf(x), ReadOn(x))
    {
      BackIsNothing(x);
      ReadTurnIs(x, rs, ws);
    }
    ReadTurnIs(c, rs, ws);
    ReadLoopFrom(ReadOn, ContentsOf, inv, halted, Contents(c.p), BackIn(c), n, ReadLoop(ReadOn, BackIn(c), n));
  }
}
