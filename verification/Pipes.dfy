/** One pipe: a ring of 512 bytes read and written one byte at a time between two semaphores
    (Kernel/pipes/pipes.c). */
module Pipes {

  const PIPE_BUFFER_SIZE: nat := 512

  type byte = b: int | -128 <= b < 128 witness 0

  datatype Pipe = Pipe(buffer: seq<byte>, readPos: nat, writePos: nat, used: bool, readSem: int, writeSem: int)

  predicate PipeSized(p: Pipe) {
    |p.buffer| == PIPE_BUFFER_SIZE && p.readPos < PIPE_BUFFER_SIZE && p.writePos < PIPE_BUFFER_SIZE
  }

  /** How many bytes are in the ring. */
  function Length(p: Pipe): (n: nat)
    requires PipeSized(p)
    ensures n < PIPE_BUFFER_SIZE
  {
    (p.writePos - p.readPos) % PIPE_BUFFER_SIZE
  }

  // The cell j places past the read position.
  function Cell(readPos: nat, j: nat): (c: nat)
    requires readPos < PIPE_BUFFER_SIZE && j < PIPE_BUFFER_SIZE
    ensures c < PIPE_BUFFER_SIZE
  {
    if readPos + j < PIPE_BUFFER_SIZE then readPos + j else readPos + j - PIPE_BUFFER_SIZE
  }

  /** The bytes in the ring, oldest first. */
  function Contents(p: Pipe): (s: seq<byte>)
    requires PipeSized(p)
    ensures |s| == Length(p)
  {
    seq(Length(p), j requires 0 <= j < Length(p) => p.buffer[Cell(p.readPos, j)])
  }

  /** One turn of the writing loops, between the decrement and the post. */
  function Push(p: Pipe, b: byte): (r: Pipe)
    requires PipeSized(p)
    ensures PipeSized(r)
  {
    p.(buffer := p.buffer[p.writePos := b], writePos := (p.writePos + 1) % PIPE_BUFFER_SIZE)
  }

  /** One turn of the reading loops, between the decrement and the post. */
  function Pop(p: Pipe): (r: (Pipe, byte))
    requires PipeSized(p)
    ensures PipeSized(r.0)
  {
    (p.(readPos := (p.readPos + 1) % PIPE_BUFFER_SIZE), p.buffer[p.readPos])
  }

  /** A byte written is appended and overwrites nothing unread exactly when one cell is kept free. */
  lemma PushAppendsExactlyWhen(p: Pipe, b: byte)
    requires PipeSized(p)
    ensures Contents(Push(p, b)) == Contents(p) + [b] <==> Length(p) < PIPE_BUFFER_SIZE - 1
  {
    var r := Push(p, b);
    if Length(p) < PIPE_BUFFER_SIZE - 1 {
      assert Length(r) == Length(p) + 1;
      assert Cell(p.readPos, Length(p)) == p.writePos;
      forall j | 0 <= j < Length(r)
        ensures Contents(r)[j] == (Contents(p) + [b])[j]
      {
        assert j < Length(p) ==> Cell(p.readPos, j) != p.writePos;
      }
    } else {
      assert Length(r) == 0;
    }
  }

  lemma PopTakesHead(p: Pipe)
    requires PipeSized(p) && Length(p) > 0
    ensures Contents(p) == [Pop(p).1] + Contents(Pop(p).0)
  {
    var r := Pop(p).0;
    assert Length(r) == Length(p) - 1;
    forall j | 0 <= j < Length(r)
      ensures Contents(r)[j] == Contents(p)[j + 1]
    {
      assert Cell(r.readPos, j) == Cell(p.readPos, j + 1);
    }
    assert Contents(p)[0] == Pop(p).1;
  }
}
