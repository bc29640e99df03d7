/** The pipe table and its calls as they are written: Kernel/pipes/pipes.c over the kernel's semaphores. */
module PipeManager {
  import S = KernelState
  import PipeRuns
  import KernelMachine
  import SchedulerProofs
  import SemaphoreProofs
  import SemaphoreProgress
  import SemaphoreRuns
  import opened Pipes

  const STDOUT: nat := 1
  const STDERR: nat := 2
  const KERNEL_PIPES_START: nat := 1
  const MAX_AMOUNT_PIPES: nat := 256

  // ---------------------------------------------------------------- loops of turns

  /** A turn of a loop ends it, leaving a state, or goes on with a byte read or written. */
  datatype Turn<T> = Stop(state: T) | Go(state: T, b: byte)

  /** The loops that read: at most n turns, and the bytes they give. */
  function ReadLoop<T>(turn: T -> Turn<T>, t: T, n: nat): (r: (T, seq<byte>))
    decreases n
  {
    if n == 0 then (t, [])
    else
      match turn(t)
      case Stop(t1) => (t1, [])
      case Go(t1, b) => var (t2, rest) := ReadLoop(turn, t1, n - 1); (t2, [b] + rest)
  }

  /** The loops that write: a turn for each byte, and how many went through. */
  function WriteLoop<T>(turn: (T, byte) -> Turn<T>, t: T, bytes: seq<byte>): (r: (T, nat))
    decreases |bytes|
  {
    if bytes == [] then (t, 0)
    else
      match turn(t, bytes[0])
      case Stop(t1) => (t1, 0)
      case Go(t1, _) => var (t2, n) := WriteLoop(turn, t1, bytes[1..]); (t2, n + 1)
  }

  function Min(a: nat, b: nat): nat { if a <= b then a else b }

  /** Turns that each take the oldest of the contents, and stop when there is none, take the oldest n. */
  lemma {:induction false} ReadLoopTakesOldest<T(!new)>(turn: T -> Turn<T>, contents: T -> seq<byte>, inv: T -> bool, t: T, n: nat)
    requires inv(t)
    requires forall x {:trigger turn(x)} :: inv(x) ==> inv(turn(x).state) && (turn(x).Go? <==> contents(x) != [])
    requires forall x {:trigger turn(x)} :: inv(x) ==> contents(x) == (if turn(x).Go? then [turn(x).b] else []) + contents(turn(x).state)
    ensures var (r, bytes) := ReadLoop(turn, t, n);
      inv(r) && |bytes| == Min(n, |contents(t)|) && contents(t) == bytes + contents(r)
    decreases n
  {
    if n == 0 {
      assert contents(t) == [] + contents(t);
    } else if turn(t).Go? {
      var t1, b := turn(t).state, turn(t).b;
      ReadLoopTakesOldest(turn, contents, inv, t1, n - 1);
      var (r, rest) := ReadLoop(turn, t1, n - 1);
      assert [b] + (rest + contents(r)) == ([b] + rest) + contents(r);
    } else {
      assert contents(t) == [] + contents(turn(t).state);
    }
  }

  /** Turns that each append their byte, and stop when there is no room, append in order what fits. */
  lemma {:induction false} WriteLoopAppends<T(!new)>(turn: (T, byte) -> Turn<T>, contents: T -> seq<byte>, room: nat, inv: T -> bool, t: T, bytes: seq<byte>)
    requires inv(t) && |contents(t)| <= room
    requires forall x, b {:trigger turn(x, b)} :: inv(x) ==> inv(turn(x, b).state) && (turn(x, b).Go? <==> |contents(x)| < room)
    requires forall x, b {:trigger turn(x, b)} :: inv(x) ==> contents(turn(x, b).state) == contents(x) + (if turn(x, b).Go? then [b] else [])
    ensures var (r, n) := WriteLoop(turn, t, bytes);
      inv(r) && n == Min(|bytes|, room - |contents(t)|) && contents(r) == contents(t) + bytes[..n]
    decreases |bytes|
  {
    if bytes == [] {
      assert contents(t) + [] == contents(t);
    } else if turn(t, bytes[0]).Go? {
      var t1 := turn(t, bytes[0]).state;
      WriteLoopAppends(turn, contents, room, inv, t1, bytes[1..]);
      var n := WriteLoop(turn, t1, bytes[1..]).1;
      assert (contents(t) + [bytes[0]]) + bytes[1..][..n] == contents(t) + bytes[..n + 1];
    } else {
      assert contents(t) + [] == contents(t);
    }
  }

  // ---------------------------------------------------------------- the turns

  /** The kernel and one of its pipes. */
  datatype Channel = Channel(k: S.Kernel, p: Pipe)

  predicate ChannelSized(c: Channel) { S.Sized(c.k) && PipeSized(c.p) }

  // A byte is taken and a unit given to the writers; or put, and a unit given to the readers.
  function Taken(k: S.Kernel, p: Pipe): Turn<Channel>
    requires S.Sized(k) && PipeSized(p)
  {
    Go(Channel(S.SemPost(k, p.writeSem), Pop(p).0), Pop(p).1)
  }

  function Put(k: S.Kernel, p: Pipe, b: byte): Turn<Channel>
    requires S.Sized(k) && PipeSized(p)
  {
    Go(Channel(S.SemPost(k, p.readSem), Push(p, b)), b)
  }

  /** A turn of read_pipe_nonblocking. */
  function ReadNow(c: Channel): Turn<Channel> {
    if !ChannelSized(c) || S.SemValue(c.k, c.p.readSem) <= 0 then Stop(c) else Taken(S.SemWait(c.k, c.p.readSem).0, c.p)
  }

  /** A turn of write_pipe_nonblocking. */
  function WriteNow(c: Channel, b: byte): Turn<Channel> {
    if !ChannelSized(c) || S.SemValue(c.k, c.p.writeSem) <= 0 then Stop(c) else Put(S.SemWait(c.k, c.p.writeSem).0, c.p, b)
  }

  /** A turn of read_pipe, which stops where sem_wait yields. */
  function ReadOn(c: Channel): Turn<Channel> {
    if !ChannelSized(c) then Stop(c)
    else
      var (k, taken) := S.SemWait(c.k, c.p.readSem);
      if taken then Taken(k, c.p) else Stop(c.(k := k))
  }

  /** A turn of write_pipe, which stops where sem_wait yields. */
  function WriteOn(c: Channel, b: byte): Turn<Channel> {
    if !ChannelSized(c) then Stop(c)
    else
      var (k, taken) := S.SemWait(c.k, c.p.writeSem);
      if taken then Put(k, c.p, b) else Stop(c.(k := k))
  }

  function Reader(blocking: bool): Channel -> Turn<Channel> { if blocking then ReadOn else ReadNow }

  function Writer(blocking: bool): (Channel, byte) -> Turn<Channel> { if blocking then WriteOn else WriteNow }

  // ---------------------------------------------------------------- what the non-blocking calls do

  /** The channel is in order, given what was written and read before. */
  ghost predicate InOrder(c: Channel) {
    PipeSized(c.p) && PipeRuns.PipeInv(PipeRuns.World(c.k, c.p, Contents(c.p), []))
  }

  function ContentsOf(c: Channel): seq<byte> {
    if PipeSized(c.p) then Contents(c.p) else []
  }

  // The history before a state does not matter to its order.
  lemma HistoryFree(w: PipeRuns.World)
    requires PipeRuns.PipeInv(w)
    ensures InOrder(Channel(w.k, w.p))
  {
    assert [] + Contents(w.p) == Contents(w.p);
  }

  lemma ReadsOne(c: Channel)
    requires InOrder(c)
    ensures InOrder(ReadNow(c).state) && (ReadNow(c).Go? <==> ContentsOf(c) != [])
    ensures ContentsOf(c) == (if ReadNow(c).Go? then [ReadNow(c).b] else []) + ContentsOf(ReadNow(c).state)
  {
    var w := PipeRuns.World(c.k, c.p, Contents(c.p), []);
    if S.SemValue(c.k, c.p.readSem) > 0 {
      var k := S.SemWait(c.k, c.p.readSem).0;
      PipeRuns.UnitNow(w, c.p.readSem);
      PipeRuns.TakeByteKeeps(w, k);
      HistoryFree(PipeRuns.TakeByte(w, k));
      PopTakesHead(c.p);
    } else {
      assert [] + Contents(c.p) == Contents(c.p);
    }
  }

  lemma WritesOne(c: Channel, b: byte)
    requires InOrder(c)
    ensures InOrder(WriteNow(c, b).state) && (WriteNow(c, b).Go? <==> |ContentsOf(c)| < PIPE_BUFFER_SIZE - 1)
    ensures ContentsOf(WriteNow(c, b).state) == ContentsOf(c) + (if WriteNow(c, b).Go? then [b] else [])
  {
    var w := PipeRuns.World(c.k, c.p, Contents(c.p), []);
    if S.SemValue(c.k, c.p.writeSem) > 0 {
      var k := S.SemWait(c.k, c.p.writeSem).0;
      PipeRuns.UnitNow(w, c.p.writeSem);
      PipeRuns.PutByteKeeps(w, k, b);
      HistoryFree(PipeRuns.PutByte(w, k, b));
      PushAppendsExactlyWhen(c.p, b);
    } else {
      assert Contents(c.p) + [] == Contents(c.p);
    }
  }

  /** read_pipe_nonblocking takes the oldest bytes, as many as asked for or as there are, and leaves the
      rest in order. */
  lemma ReadsOldest(c: Channel, n: nat)
    requires InOrder(c)
    ensures var (r, bytes) := ReadLoop(ReadNow, c, n);
      InOrder(r) && |bytes| == Min(n, Length(c.p)) && Contents(c.p) == bytes + Contents(r.p)
  {
    var inv := x => InOrder(x);
    forall x | inv(x)
      ensures inv(ReadNow(x).state) && (ReadNow(x).Go? <==> ContentsOf(x) != [])
      ensures ContentsOf(x) == (if ReadNow(x).Go? then [ReadNow(x).b] else []) + ContentsOf(ReadNow(x).state)
    {
      ReadsOne(x);
    }
    ReadLoopTakesOldest(ReadNow, ContentsOf, inv, c, n);
  }

  /** write_pipe_nonblocking appends the bytes in order, as many as there are or as fit, keeping one cell
      free. */
  lemma WritesInOrder(c: Channel, bytes: seq<byte>)
    requires InOrder(c)
    ensures var (r, n) := WriteLoop(WriteNow, c, bytes);
      InOrder(r) && n == Min(|bytes|, PIPE_BUFFER_SIZE - 1 - Length(c.p)) && Contents(r.p) == Contents(c.p) + bytes[..n]
  {
    var inv := x => InOrder(x);
    forall x, b: byte | inv(x)
      ensures inv(WriteNow(x, b).state) && (WriteNow(x, b).Go? <==> |ContentsOf(x)| < PIPE_BUFFER_SIZE - 1)
      ensures ContentsOf(WriteNow(x, b).state) == ContentsOf(x) + (if WriteNow(x, b).Go? then [b] else [])
    {
      WritesOne(x, b);
    }
    WriteLoopAppends(WriteNow, ContentsOf, PIPE_BUFFER_SIZE - 1, inv, c, bytes);
  }

  /** What is written to an empty pipe that has room for it is what is read back. */
  lemma WriteThenRead(c: Channel, bytes: seq<byte>)
    requires InOrder(c) && Length(c.p) == 0 && |bytes| < PIPE_BUFFER_SIZE
    ensures ReadLoop(ReadNow, WriteLoop(WriteNow, c, bytes).0, |bytes|).1 == bytes
  {
    var (r, n) := WriteLoop(WriteNow, c, bytes);
    WritesInOrder(c, bytes);
    assert bytes[..n] == bytes && Contents(c.p) == [] && Contents(r.p) == bytes;
    ReadsOldest(r, |bytes|);
    var (r2, out) := ReadLoop(ReadNow, r, |bytes|);
    assert |Contents(r.p)| == |bytes| && Contents(r2.p) == [];
    assert out + [] == out;
  }

  // ---------------------------------------------------------------- the table

  function EmptyBuffer(): (s: seq<byte>)
    ensures |s| == PIPE_BUFFER_SIZE
  {
    seq(PIPE_BUFFER_SIZE, _ => 0)
  }

  class Manager {
    const m: KernelMachine.Machine
    const pipes: array<Pipe>
    var pipeCount: int

    ghost predicate Valid()
      reads this, pipes, m, m.Parts()
    {
      && m.Valid() && this !in m.Parts() && pipes !in m.Parts() && pipes.Length == MAX_AMOUNT_PIPES
      && forall i :: 0 <= i < MAX_AMOUNT_PIPES ==> PipeSized(pipes[i])
    }

    /** init_pipe_manager: only the pipe of STDIN is open, with its two semaphores. */
    constructor (machine: KernelMachine.Machine)
      requires machine.Valid()
      modifies machine.Parts()
      ensures Valid() && m == machine && fresh(this) && fresh(pipes) && (old(machine.Lost()) ==> machine.Lost())
      ensures var (k1, rs) := S.CreateSem(old(machine.Abs()), 0);
        var (k2, ws) := S.CreateSem(k1, PIPE_BUFFER_SIZE - 1);
        machine.Abs() == k2 && pipes[0] == Pipe(EmptyBuffer(), 0, 0, true, rs, ws)
      ensures forall i :: 1 <= i < MAX_AMOUNT_PIPES ==> !pipes[i].used
    {
      m := machine;
      pipes := new Pipe[MAX_AMOUNT_PIPES](i => Pipe(EmptyBuffer(), 0, 0, i < KERNEL_PIPES_START, 0, 0));
      pipeCount := 0;
      new;
      OpenStdin();
    }

    method OpenStdin()
      requires Valid()
      modifies pipes, m.Parts()
      ensures Valid() && (old(m.Lost()) ==> m.Lost())
      ensures var (k1, rs) := S.CreateSem(old(m.Abs()), 0);
        var (k2, ws) := S.CreateSem(k1, PIPE_BUFFER_SIZE - 1);
        m.Abs() == k2 && pipes[0] == old(pipes[0]).(readSem := rs, writeSem := ws)
      ensures forall i :: 1 <= i < MAX_AMOUNT_PIPES ==> pipes[i] == old(pipes[i])
    {
      var rs, ws := OpenSems();
      pipes[0] := pipes[0].(readSem := rs, writeSem := ws);
    }

    // No byte can be read from or written to fd, or there is no buffer.
    predicate Refused(fd: nat, count: int, noBuffer: bool)
      requires pipes.Length == MAX_AMOUNT_PIPES
      reads pipes
    {
      fd == STDOUT || fd == STDERR || fd >= MAX_AMOUNT_PIPES || !pipes[fd].used || noBuffer || count <= 0
    }

    ghost function At(fd: nat): (c: Channel)
      requires Valid() && fd < MAX_AMOUNT_PIPES
      reads this, pipes, m, m.Parts()
      ensures ChannelSized(c)
    {
      Channel(m.Abs(), pipes[fd])
    }

    // ---------------------------------------------------------------- opening and closing

    // find_available_pipe, with the size of the table for none.
    method FindAvailable() returns (i: nat)
      requires Valid()
      ensures i == FindFree(pipes[..], STDERR + 1)
    {
      i := STDERR + 1;
      while i < MAX_AMOUNT_PIPES && pipes[i].used
        invariant STDERR + 1 <= i <= MAX_AMOUNT_PIPES
        invariant FindFree(pipes[..], STDERR + 1) == FindFree(pipes[..], i)
      {
        i := i + 1;
      }
    }

    /** create_pipe: the first free pipe past the standard ones, with two new semaphores; where either is
        missing both are given back and nothing is usable. */
    method CreatePipe() returns (r: int)
      requires Valid()
      modifies `pipeCount, pipes, m.Parts()
      ensures Valid() && (old(m.Lost()) ==> m.Lost())
      ensures var i := FindFree(old(pipes[..]), STDERR + 1);
        var (k1, rs) := S.CreateSem(old(m.Abs()), 0);
        var (k2, ws) := S.CreateSem(k1, PIPE_BUFFER_SIZE - 1);
        if old(pipeCount) >= MAX_AMOUNT_PIPES || i == MAX_AMOUNT_PIPES then r == -1 && m.Abs() == old(m.Abs()) && pipes[..] == old(pipes[..])
        else
          r == (if rs == -1 || ws == -1 then -1 else i)
          && pipes[..] == old(pipes[..])[i := Pipe(EmptyBuffer(), 0, 0, rs != -1 && ws != -1, rs, ws)]
          && (r == -1 && !m.Lost() ==> m.Abs() == S.DestroySem(S.DestroySem(k2, rs), ws)) && (r != -1 ==> m.Abs() == k2)
      ensures pipeCount == old(pipeCount) + (if r == -1 then 0 else 1)
    {
      if pipeCount >= MAX_AMOUNT_PIPES {
        return -1;
      }
      var i := FindAvailable();
      if i == MAX_AMOUNT_PIPES {
        return -1;
      }
      var usable := OpenAt(i);
      if !usable {
        return -1;
      }
      pipeCount := pipeCount + 1;
      r := i;
    }

    // The middle of create_pipe, for the pipe it found.
    method OpenAt(i: nat) returns (usable: bool)
      requires Valid() && i < MAX_AMOUNT_PIPES
      modifies pipes, m.Parts()
      ensures Valid() && (old(m.Lost()) ==> m.Lost())
      ensures var (k1, rs) := S.CreateSem(old(m.Abs()), 0);
        var (k2, ws) := S.CreateSem(k1, PIPE_BUFFER_SIZE - 1);
        usable == (rs != -1 && ws != -1) && pipes[..] == old(pipes[..])[i := Pipe(EmptyBuffer(), 0, 0, usable, rs, ws)]
        && (usable ==> m.Abs() == k2) && (!usable && !m.Lost() ==> m.Abs() == S.DestroySem(S.DestroySem(k2, rs), ws))
    {
      var rs, ws := OpenSems();
      usable := rs != -1 && ws != -1;
      pipes[i] := Pipe(EmptyBuffer(), 0, 0, usable, rs, ws);
      assert pipes[..] == old(pipes[..])[i := Pipe(EmptyBuffer(), 0, 0, usable, rs, ws)];
      if !usable {
        CloseSems(rs, ws);
      }
    }

    method OpenSems() returns (rs: int, ws: int)
      requires Valid()
      modifies m.Parts()
      ensures Valid() && (old(m.Lost()) ==> m.Lost())
      ensures var (k1, rs1) := S.CreateSem(old(m.Abs()), 0);
        var (k2, ws1) := S.CreateSem(k1, PIPE_BUFFER_SIZE - 1);
        m.Abs() == k2 && rs == rs1 && ws == ws1
    {
      rs := m.CreateSem(0);
      ws := m.CreateSem(PIPE_BUFFER_SIZE - 1);
    }

    method CloseSems(rs: int, ws: int)
      requires Valid()
      modifies m.Parts()
      ensures Valid() && (old(m.Lost()) ==> m.Lost())
      ensures !m.Lost() ==> m.Abs() == S.DestroySem(S.DestroySem(old(m.Abs()), rs), ws)
    {
      m.DestroySem(rs);
      m.DestroySem(ws);
    }

    /** close_pipe: frees the pipe, forgets its bytes, and wakes whoever waits on it. */
    method ClosePipe(fd: nat) returns (r: int)
      requires Valid()
      modifies `pipeCount, pipes, m.Parts()
      ensures Valid() && (old(m.Lost()) ==> m.Lost())
      ensures r == if fd < KERNEL_PIPES_START || fd >= MAX_AMOUNT_PIPES || !old(pipes[..])[fd].used then -1 else 0
      ensures r == -1 ==> pipes[..] == old(pipes[..]) && m.Abs() == old(m.Abs()) && pipeCount == old(pipeCount)
      ensures r == 0 ==> pipeCount == old(pipeCount) - 1
      ensures r == 0 ==> pipes[..] == old(pipes[..])[fd := Pipe(EmptyBuffer(), 0, 0, false, old(pipes[..])[fd].readSem, old(pipes[..])[fd].writeSem)]
      ensures r == 0 && !m.Lost() ==>
        m.Abs() == S.DestroySem(S.DestroySem(old(m.Abs()), old(pipes[..])[fd].readSem), old(pipes[..])[fd].writeSem)
    {
      if fd < KERNEL_PIPES_START || fd >= MAX_AMOUNT_PIPES || !pipes[fd].used {
        return -1;
      }
      var p := pipes[fd];
      pipes[fd] := Pipe(EmptyBuffer(), 0, 0, false, p.readSem, p.writeSem);
      pipeCount := pipeCount - 1;
      CloseSems(p.readSem, p.writeSem);
      r := 0;
    }

    // ---------------------------------------------------------------- turns

    // What the two reading loops do once the semaphore has let them through.
    method TakeByte(fd: nat) returns (b: byte)
      requires Valid() && fd < MAX_AMOUNT_PIPES
      modifies pipes, m.Parts()
      ensures Valid() && (old(m.Lost()) ==> m.Lost())
      ensures !m.Lost() ==> Go(At(fd), b) == Taken(old(m.Abs()), old(pipes[fd]))
      ensures forall i :: 0 <= i < MAX_AMOUNT_PIPES && i != fd ==> pipes[i] == old(pipes[i])
    {
      var p := pipes[fd];
      b := p.buffer[p.readPos];
      pipes[fd] := p.(readPos := (p.readPos + 1) % PIPE_BUFFER_SIZE);
      m.SemPost(p.writeSem);
    }

    method PutByte(fd: nat, b: byte)
      requires Valid() && fd < MAX_AMOUNT_PIPES
      modifies pipes, m.Parts()
      ensures Valid() && (old(m.Lost()) ==> m.Lost())
      ensures !m.Lost() ==> Go(At(fd), b) == Put(old(m.Abs()), old(pipes[fd]), b)
      ensures forall i :: 0 <= i < MAX_AMOUNT_PIPES && i != fd ==> pipes[i] == old(pipes[i])
    {
      var p := pipes[fd];
      pipes[fd] := p.(buffer := p.buffer[p.writePos := b], writePos := (p.writePos + 1) % PIPE_BUFFER_SIZE);
      m.SemPost(p.readSem);
    }

    method ReadTurn(fd: nat, blocking: bool) returns (go: bool, b: byte)
      requires Valid() && fd < MAX_AMOUNT_PIPES
      modifies pipes, m.Parts()
      ensures Valid() && (old(m.Lost()) ==> m.Lost())
      ensures !m.Lost() ==> (if go then Go(At(fd), b) else Stop(At(fd))) == (if blocking then ReadOn(old(At(fd))) else ReadNow(old(At(fd))))
      ensures forall i :: 0 <= i < MAX_AMOUNT_PIPES && i != fd ==> pipes[i] == old(pipes[i])
    {
      b := 0;
      if !blocking {
        var value := m.GetSemValue(pipes[fd].readSem);
        if value <= 0 {
          return false, 0;
        }
      }
      go := m.SemWait(pipes[fd].readSem);
      if go || !blocking {
        go := true;
        b := TakeByte(fd);
      }
    }

    method WriteTurn(fd: nat, b: byte, blocking: bool) returns (go: bool)
      requires Valid() && fd < MAX_AMOUNT_PIPES
      modifies pipes, m.Parts()
      ensures Valid() && (old(m.Lost()) ==> m.Lost())
      ensures !m.Lost() ==> (if go then Go(At(fd), b) else Stop(At(fd))) == (if blocking then WriteOn(old(At(fd)), b) else WriteNow(old(At(fd)), b))
      ensures forall i :: 0 <= i < MAX_AMOUNT_PIPES && i != fd ==> pipes[i] == old(pipes[i])
    {
      if !blocking {
        var value := m.GetSemValue(pipes[fd].writeSem);
        if value <= 0 {
          return false;
        }
      }
      go := m.SemWait(pipes[fd].writeSem);
      if go || !blocking {
        go := true;
        PutByte(fd, b);
      }
    }

    // ---------------------------------------------------------------- the calls

    // One turn of the reading loops, with left bytes to go.
    method NextRead(fd: nat, blocking: bool, bytes: seq<byte>, left: nat, ghost goal: (Channel, seq<byte>))
      returns (rest: nat, now: seq<byte>)
      requires Valid() && fd < MAX_AMOUNT_PIPES && left > 0
      requires !m.Lost() ==> Reading(Reader(blocking), At(fd), bytes, left, goal)
      modifies pipes, m.Parts()
      ensures Valid() && (old(m.Lost()) ==> m.Lost()) && rest < left
      ensures !m.Lost() ==> Reading(Reader(blocking), At(fd), now, rest, goal)
      ensures forall i :: 0 <= i < MAX_AMOUNT_PIPES && i != fd ==> pipes[i] == old(pipes[i])
    {
      ghost var before := At(fd);
      var going, b := ReadTurn(fd, blocking);
      if !m.Lost() {
        ReadingGoesOn(Reader(blocking), before, bytes, left, goal);
      }
      now := if going then bytes + [b] else bytes;
      rest := if going then left - 1 else 0;
    }

    /** The loops of read_pipe and read_pipe_nonblocking, up to their end or, for read_pipe, the next yield. */
    method ReadBytes(fd: nat, count: nat, blocking: bool, ghost goal: (Channel, seq<byte>)) returns (bytes: seq<byte>)
      requires Valid() && fd < MAX_AMOUNT_PIPES && Reading(Reader(blocking), At(fd), [], count, goal)
      modifies pipes, m.Parts()
      ensures Valid() && (old(m.Lost()) ==> m.Lost())
      ensures !m.Lost() ==> Reading(Reader(blocking), At(fd), bytes, 0, goal)
      ensures forall i :: 0 <= i < MAX_AMOUNT_PIPES && i != fd ==> pipes[i] == old(pipes[i])
    {
      bytes := [];
      var left := count;
      while left > 0
        invariant Valid() && (old(m.Lost()) ==> m.Lost())
        invariant !m.Lost() ==> Reading(Reader(blocking), At(fd), bytes, left, goal)
        invariant forall i :: 0 <= i < MAX_AMOUNT_PIPES && i != fd ==> pipes[i] == old(pipes[i])
      {
        left, bytes := NextRead(fd, blocking, bytes, left, goal);
      }
    }

    /** read_pipe (blocking) and read_pipe_nonblocking. */
    method ReadPipe(fd: nat, noBuffer: bool, count: int, blocking: bool) returns (r: int, bytes: seq<byte>)
      requires Valid()
      modifies pipes, m.Parts()
      ensures Valid() && (old(m.Lost()) ==> m.Lost())
      ensures old(Refused(fd, count, noBuffer)) ==> r == -1 && bytes == [] && pipes[..] == old(pipes[..]) && m.Abs() == old(m.Abs())
      ensures !old(Refused(fd, count, noBuffer)) ==> r == |bytes|
      ensures !old(Refused(fd, count, noBuffer)) && !m.Lost() ==> (At(fd), bytes) == ReadLoop(Reader(blocking), old(At(fd)), count)
    {
      if Refused(fd, count, noBuffer) {
        return -1, [];
      }
      ghost var goal := ReadLoop(Reader(blocking), At(fd), count);
      assert [] + goal.1 == goal.1;
      bytes := ReadBytes(fd, count, blocking, goal);
      assert bytes + [] == bytes;
      r := |bytes|;
    }

    // One turn of the writing loops, with the bytes left to go.
    method NextWrite(fd: nat, blocking: bool, n: nat, left: seq<byte>, ghost goal: (Channel, nat)) returns (going: bool)
      requires Valid() && fd < MAX_AMOUNT_PIPES && left != []
      requires !m.Lost() ==> Writing(Writer(blocking), At(fd), n, left, goal)
      modifies pipes, m.Parts()
      ensures Valid() && (old(m.Lost()) ==> m.Lost())
      ensures !m.Lost() ==> if going then Writing(Writer(blocking), At(fd), n + 1, left[1..], goal) else Writing(Writer(blocking), At(fd), n, [], goal)
      ensures forall i :: 0 <= i < MAX_AMOUNT_PIPES && i != fd ==> pipes[i] == old(pipes[i])
    {
      ghost var before := At(fd);
      going := WriteTurn(fd, left[0], blocking);
      if !m.Lost() {
        WritingGoesOn(Writer(blocking), before, n, left, goal);
      }
    }

    /** The loops of write_pipe and write_pipe_nonblocking, up to their end or, for write_pipe, the next yield. */
    method WriteBytes(fd: nat, bytes: seq<byte>, blocking: bool, ghost goal: (Channel, nat)) returns (n: nat)
      requires Valid() && fd < MAX_AMOUNT_PIPES && Writing(Writer(blocking), At(fd), 0, bytes, goal)
      modifies pipes, m.Parts()
      ensures Valid() && (old(m.Lost()) ==> m.Lost()) && n <= |bytes|
      ensures !m.Lost() ==> Writing(Writer(blocking), At(fd), n, [], goal)
      ensures forall i :: 0 <= i < MAX_AMOUNT_PIPES && i != fd ==> pipes[i] == old(pipes[i])
    {
      n := 0;
      var going := true;
      while n < |bytes| && going
        invariant Valid() && (old(m.Lost()) ==> m.Lost()) && n <= |bytes|
        invariant !m.Lost() ==> Writing(Writer(blocking), At(fd), n, if going then bytes[n..] else [], goal)
        invariant forall i :: 0 <= i < MAX_AMOUNT_PIPES && i != fd ==> pipes[i] == old(pipes[i])
        decreases going, |bytes| - n
      {
        going := NextWrite(fd, blocking, n, bytes[n..], goal);
        if going {
          n := n + 1;
        }
      }
    }

    /** write_pipe (blocking) and write_pipe_nonblocking. */
    method WritePipe(fd: nat, noBuffer: bool, bytes: seq<byte>, blocking: bool) returns (r: int)
      requires Valid()
      modifies pipes, m.Parts()
      ensures Valid() && (old(m.Lost()) ==> m.Lost())
      ensures old(Refused(fd, |bytes|, noBuffer)) ==> r == -1 && pipes[..] == old(pipes[..]) && m.Abs() == old(m.Abs())
      ensures !old(Refused(fd, |bytes|, noBuffer)) && !m.Lost() ==>
        0 <= r && (At(fd), r as nat) == WriteLoop(Writer(blocking), old(At(fd)), bytes)
    {
      if Refused(fd, |bytes|, noBuffer) {
        return -1;
      }
      r := WriteBytes(fd, bytes, blocking, WriteLoop(Writer(blocking), At(fd), bytes));
    }
  }

  // The first free pipe from i on, or the size of the table.
  function FindFree(pipes: seq<Pipe>, i: nat): (r: nat)
    requires i <= |pipes|
    ensures i <= r <= |pipes| && (r < |pipes| ==> !pipes[r].used) && forall j :: i <= j < r ==> pipes[j].used
    decreases |pipes| - i
  {
    if i == |pipes| || !pipes[i].used then i else FindFree(pipes, i + 1)
  }

  // The bytes so far and those of the turns still to come make up the goal.
  ghost predicate Reading<T>(turn: T -> Turn<T>, t: T, bytes: seq<byte>, left: nat, goal: (T, seq<byte>)) {
    var (r, rest) := ReadLoop(turn, t, left);
    goal == (r, bytes + rest)
  }

  lemma ReadingGoesOn<T>(turn: T -> Turn<T>, t: T, bytes: seq<byte>, left: nat, goal: (T, seq<byte>))
    requires left > 0 && Reading(turn, t, bytes, left, goal)
    ensures var x := turn(t);
      if x.Go? then Reading(turn, x.state, bytes + [x.b], left - 1, goal) else Reading(turn, x.state, bytes, 0, goal)
  {
    var x := turn(t);
    if x.Go? {
      assert (bytes + [x.b]) + ReadLoop(turn, x.state, left - 1).1 == bytes + ([x.b] + ReadLoop(turn, x.state, left - 1).1);
    }
  }

  ghost predicate Writing<T>(turn: (T, byte) -> Turn<T>, t: T, n: nat, left: seq<byte>, goal: (T, nat)) {
    var (r, rest) := WriteLoop(turn, t, left);
    goal == (r, n + rest)
  }

  lemma WritingGoesOn<T>(turn: (T, byte) -> Turn<T>, t: T, n: nat, left: seq<byte>, goal: (T, nat))
    requires left != [] && Writing(turn, t, n, left, goal)
    ensures var x := turn(t, left[0]);
      if x.Go? then Writing(turn, x.state, n + 1, left[1..], goal) else Writing(turn, x.state, n, [], goal)
  {
  }

  /** A pipe just created, with its two semaphores, is empty and in order. */
  lemma CreatedIsInOrder(k: S.Kernel, rs: int, ws: int)
    requires SemaphoreRuns.WaitInv(k) && S.CreateSem(k, 0).1 == rs && rs != -1
    requires S.CreateSem(S.CreateSem(k, 0).0, PIPE_BUFFER_SIZE - 1).1 == ws && ws != -1
    ensures InOrder(Channel(S.CreateSem(S.CreateSem(k, 0).0, PIPE_BUFFER_SIZE - 1).0, Pipe(EmptyBuffer(), 0, 0, true, rs, ws)))
  {
    var k1 := S.CreateSem(k, 0).0;
    OpenedKeeps(k, 0);
    OpenedKeeps(k1, PIPE_BUFFER_SIZE - 1);
    var p := Pipe(EmptyBuffer(), 0, 0, true, rs, ws);
    assert Contents(p) + [] == [] + Contents(p);
  }

  lemma OpenedKeeps(k: S.Kernel, value: nat)
    requires SemaphoreRuns.WaitInv(k)
    ensures SemaphoreRuns.WaitInv(S.CreateSem(k, value).0)
  {
    SemaphoreProofs.CreateSemKeeps(k, value);
    SemaphoreProgress.CreateSemKeepsGoing(k, value);
    SchedulerProofs.OtherFields(k, S.CreateSem(k, value).0);
  }
}
