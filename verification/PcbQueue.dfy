/** The ring of process table entries behind every ready list and the terminated list:
    Kernel/scheduler/pcb-queueADT.c. Its size is kept in eight bits. */
module PcbQueue {

  const CAPACITY: nat := 1024
  const NOBODY: nat := 1024  // stands for NULL; entries are slots of the process table

  // n cells of a ring from tail on.
  function Cells(q: seq<nat>, tail: nat, n: nat): (s: seq<nat>)
    requires |q| == CAPACITY
    ensures |s| == n && forall j :: 0 <= j < n ==> s[j] == q[(tail + j) % CAPACITY]
  {
    seq(n, j requires 0 <= j < n => q[(tail + j) % CAPACITY])
  }

  class Queue {
    const queue: array<nat>
    var head: nat
    var tail: nat
    var size: nat
    ghost var lost: bool  // the size has wrapped around and the entries it counted are gone

    ghost predicate Valid()
      reads this, queue
    {
      && queue.Length == CAPACITY && head < CAPACITY && tail < CAPACITY && size < 256
      && (forall j :: 0 <= j < CAPACITY ==> queue[j] < NOBODY)
      && (!lost ==> head == (tail + size) % CAPACITY)
    }

    /** The entries dequeuing will give, in order. */
    ghost function Contents(): (s: seq<nat>)
      requires Valid()
      reads this, queue
      ensures forall j :: 0 <= j < |s| ==> s[j] < NOBODY
    {
      Cells(queue[..], tail, size)
    }

    constructor ()
      ensures Valid() && !lost && Contents() == [] && fresh(queue)
    {
      queue := new nat[CAPACITY](_ => 0);
      head, tail, size := 0, 0, 0;
      lost := false;
    }

    /** Appends, and says it has, even where the eight bits of the size wrap around: then the queue looks
        empty, and entries enqueued later no longer come out in order. */
    method Enqueue(process: nat) returns (r: int)
      requires Valid() && process < NOBODY
      modifies this, queue
      ensures Valid() && r == 0 && (old(lost) ==> lost)
      ensures !old(lost) ==> (lost <==> old(size) == 255)
      ensures !lost ==> Contents() == old(Contents()) + [process]
      ensures !old(lost) ==> (Contents() == old(Contents()) + [process] <==> old(size) < 255)
      ensures old(size) == 255 ==> Contents() == []
    {
      if size == CAPACITY {
        return -1;
      }
      ghost var before := Contents();
      queue[head] := process;
      head := (head + 1) % CAPACITY;
      lost := lost || size == 255;
      size := (size + 1) % 256;
      if !lost {
        assert Contents() == before + [process];
      }
      r := 0;
    }

    method Dequeue() returns (process: nat)
      requires Valid()
      modifies this
      ensures Valid() && lost == old(lost)
      ensures process <= NOBODY
      ensures process == NOBODY <==> old(Contents()) == []
      ensures old(Contents()) == [] ==> Contents() == []
      ensures old(Contents()) != [] ==> old(Contents()) == [process] + Contents()
    {
      if size == 0 {
        return NOBODY;
      }
      ghost var before := Contents();
      assert before[0] == queue[tail];
      process := queue[tail];
      tail := (tail + 1) % CAPACITY;
      size := size - 1;
      assert before == [process] + Contents();
    }
  }
}
