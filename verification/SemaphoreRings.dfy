/** The waiter ring of one semaphore as a first-in first-out queue of pids. */
module SemaphoreRings {
  import opened KernelState
  import opened SchedulerProofs

  // How far p is past cur, going round the ring.
  function Dist(cur: nat, p: nat): (d: int)
    requires cur < MAX_PROCESSES && p < MAX_PROCESSES
    ensures 0 <= d < MAX_PROCESSES
  {
    if cur <= p then p - cur else p + MAX_PROCESSES - cur
  }

  // The position j cells past cur.
  function Pos(cur: nat, j: nat): (p: nat)
    requires cur < MAX_PROCESSES && j < MAX_PROCESSES
    ensures p < MAX_PROCESSES && Dist(cur, p) == j
  {
    if cur + j < MAX_PROCESSES then cur + j else cur + j - MAX_PROCESSES
  }

  function Waiters(x: Semaphore): nat
    requires SemSized(x)
  {
    Dist(x.cur, x.last)
  }

  /** Exactly the cells from current_index up to last_index hold a process. */
  ghost predicate RingOk(x: Semaphore)
    requires SemSized(x)
  {
    forall p :: 0 <= p < MAX_PROCESSES ==> (x.waiting[p] != NOT_A_PROCESS <==> Dist(x.cur, p) < Waiters(x))
  }

  /** The pids that wait, in the order of their arrival. */
  function Queue(x: Semaphore): (q: seq<nat>)
    requires SemSized(x)
    ensures |q| == Waiters(x)
  {
    seq(Waiters(x), j requires 0 <= j < Waiters(x) => x.waiting[Pos(x.cur, j)])
  }

  // A pid is in a cell of the ring.
  ghost predicate InRing(x: Semaphore, pid: nat) {
    exists p :: 0 <= p < |x.waiting| && x.waiting[p] == pid
  }

  // The head cell is empty exactly when nobody waits.
  lemma HeadCell(x: Semaphore)
    requires SemSized(x) && RingOk(x)
    ensures x.waiting[x.cur] == NOT_A_PROCESS <==> Waiters(x) == 0
    ensures Waiters(x) > 0 ==> Waiters(Posted(x)) == Waiters(x) - 1
  {
    assert Dist(x.cur, x.cur) == 0;
  }

  lemma PostKeepsRing(x: Semaphore)
    requires SemSized(x) && RingOk(x) && Waiters(x) > 0
    ensures RingOk(Posted(x))
  {
    HeadCell(x);
    var y := Posted(x);
    forall p | 0 <= p < MAX_PROCESSES
      ensures y.waiting[p] != NOT_A_PROCESS <==> Dist(y.cur, p) < Waiters(y)
    {
      assert p != x.cur ==> Dist(y.cur, p) == Dist(x.cur, p) - 1;
      assert p == x.cur ==> Dist(y.cur, p) == MAX_PROCESSES - 1;
    }
  }

  /** A post to a semaphore somebody waits on takes the longest waiting pid off the queue. */
  lemma PostTakesHead(x: Semaphore)
    requires SemSized(x) && RingOk(x)
    ensures (x.waiting[x.cur] == NOT_A_PROCESS) <==> (Queue(x) == [])
    ensures RingOk(Posted(x)) && Posted(x).value == x.value + 1 && Posted(x).used == x.used
    ensures Queue(x) != [] ==> Queue(x) == [x.waiting[x.cur]] + Queue(Posted(x))
    ensures Queue(x) == [] ==> Queue(Posted(x)) == []
  {
    HeadCell(x);
    if Queue(x) != [] {
      var y := Posted(x);
      PostKeepsRing(x);
      forall j | 0 <= j < Waiters(y)
        ensures Queue(y)[j] == Queue(x)[j + 1]
      {
        assert Pos(y.cur, j) == Pos(x.cur, j + 1);
      }
    }
  }

  /** A process that has to wait joins the end of the queue. */
  lemma WaitAppends(x: Semaphore, pid: nat)
    requires SemSized(x) && RingOk(x) && pid != NOT_A_PROCESS && Waiters(x) < MAX_PROCESSES - 1
    ensures RingOk(Queued(x, pid)) && Queue(Queued(x, pid)) == Queue(x) + [pid]
  {
    var y := Queued(x, pid);
    assert Waiters(y) == Waiters(x) + 1;
    assert Dist(x.cur, x.last) == Waiters(x);
    forall p | 0 <= p < MAX_PROCESSES
      ensures y.waiting[p] != NOT_A_PROCESS <==> Dist(y.cur, p) < Waiters(y)
    {
      assert p != x.last ==> Dist(x.cur, p) != Waiters(x);
    }
    forall j | 0 <= j < Waiters(y)
      ensures Queue(y)[j] == (Queue(x) + [pid])[j]
    {
      assert Pos(x.cur, j) == x.last <==> j == Waiters(x);
    }
  }

  lemma EmptyIsOk()
    ensures SemSized(EmptySem()) && RingOk(EmptySem()) && Queue(EmptySem()) == []
  {
  }
}
