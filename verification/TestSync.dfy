/** The client that the semaphores are tried out with: workers that read a shared number, yield, and write
    it back changed (Userland/UserCodeModule/tests/test_sync.c). */
module TestSync {

  const WORD: int := 0x1_0000_0000_0000_0000

  // Numbers are kept in 64 bits; a number and its signed reading differ by a multiple of WORD.
  function Wrap(x: int): (r: int)
    ensures 0 <= r < WORD
  {
    x % WORD
  }

  datatype Pc = Outside | Inside | Loaded(aux: int) | Stored | Finished

  /** One process of my_process_inc: n rounds of adding inc, of which done are over. */
  datatype Worker = Worker(n: nat, inc: int, done: nat, pc: Pc)

  /** The shared number, the semaphore, whether it is used at all, and the workers. */
  datatype State = State(global: int, value: nat, guarded: bool, workers: seq<Worker>)

  predicate Holding(w: Worker) { w.pc.Inside? || w.pc.Loaded? || w.pc.Stored? }

  // The worker after a round: it leaves the loop when the last one is over.
  function AfterRound(w: Worker): Worker {
    w.(done := w.done + 1, pc := if w.done + 1 < w.n then Outside else Finished)
  }

  /** The next atomic stretch of worker i, if it is not held up at the semaphore. */
  function Next(s: State, i: nat): State
    requires i < |s.workers|
  {
    var w := s.workers[i];
    match w.pc
    case Outside =>
      if !s.guarded then s.(workers := s.workers[i := w.(pc := Inside)])
      else if s.value > 0 then s.(value := s.value - 1, workers := s.workers[i := w.(pc := Inside)])
      else s
    case Inside => s.(workers := s.workers[i := w.(pc := Loaded(s.global))])
    case Loaded(aux) => s.(global := Wrap(aux + w.inc), workers := s.workers[i := w.(pc := Stored)])
    case Stored => s.(value := if s.guarded then s.value + 1 else s.value, workers := s.workers[i := AfterRound(w)])
    case Finished => s
  }

  /** Where test_sync leaves its workers once it has created them and a semaphore with value 1. */
  predicate Initial(s: State) {
    s.global == 0 && s.value == 1 && forall i :: 0 <= i < |s.workers| ==> s.workers[i].done == 0 && s.workers[i].n > 0 && s.workers[i].pc.Outside?
  }

  // ---------------------------------------------------------------- mutual exclusion

  ghost predicate OnlyHolder(s: State, h: int) {
    0 <= h < |s.workers| && Holding(s.workers[h]) && forall i :: 0 <= i < |s.workers| && i != h ==> !Holding(s.workers[i])
  }

  /** Either the unit of the semaphore is free and nobody is between wait and post, or exactly one worker is. */
  ghost predicate Exclusive(s: State) {
    || (s.value == 1 && forall i :: 0 <= i < |s.workers| ==> !Holding(s.workers[i]))
    || (s.value == 0 && exists h :: OnlyHolder(s, h))
  }

  /** What a worker has read and not yet written back is still what is there. */
  predicate Fresh(s: State) {
    forall i :: 0 <= i < |s.workers| && s.workers[i].pc.Loaded? ==> s.workers[i].pc.aux == s.global
  }

  // Rounds whose addition has been written.
  function Added(w: Worker): int { w.inc * (if w.pc.Stored? then w.done + 1 else w.done) }

  function Sum(ws: seq<Worker>): int {
    if ws == [] then 0 else Added(ws[0]) + Sum(ws[1..])
  }

  predicate RoundsOk(w: Worker) {
    w.done <= w.n && (w.pc.Finished? <==> w.done == w.n)
  }

  ghost predicate Inv(s: State) {
    && s.guarded && Exclusive(s) && Fresh(s) && s.global == Wrap(Sum(s.workers))
    && forall i :: 0 <= i < |s.workers| ==> RoundsOk(s.workers[i])
  }

  lemma {:induction false} SumUpdate(ws: seq<Worker>, i: nat, w: Worker)
    requires i < |ws|
    ensures Sum(ws[i := w]) == Sum(ws) - Added(ws[i]) + Added(w)
    decreases |ws|
  {
    if i == 0 {
      assert ws[i := w][1..] == ws[1..];
    } else {
      assert ws[i := w][1..] == ws[1..][i - 1 := w];
      SumUpdate(ws[1..], i - 1, w);
    }
  }

  lemma WrapAdds(x: int, y: int)
    ensures Wrap(Wrap(x) + y) == Wrap(x + y)
  {
    var q := x / WORD;
    assert x == q * WORD + Wrap(x);
    assert Wrap(x) + y == (x + y) - q * WORD;
    WrapShift(x + y, q);
  }

  lemma WrapShift(x: int, q: int)
    ensures Wrap(x - q * WORD) == Wrap(x)
  {
    var r := x - q * WORD;
    assert r == (x / WORD - q) * WORD + Wrap(x);
  }

  lemma StepExcludes(s: State, i: nat)
    requires Inv(s) && i < |s.workers|
    ensures Exclusive(Next(s, i))
  {
    var w := s.workers[i];
    var r := Next(s, i);
    if w.pc.Outside? && s.value > 0 {
      assert OnlyHolder(r, i);
    } else if Holding(w) {
      var h :| OnlyHolder(s, h);
      assert h == i;
      if !w.pc.Stored? {
        assert OnlyHolder(r, i);
      }
    } else if s.value == 0 {
      var h :| OnlyHolder(s, h);
      assert OnlyHolder(r, h);
    }
  }

  lemma StepIsFresh(s: State, i: nat)
    requires Inv(s) && i < |s.workers|
    ensures Fresh(Next(s, i))
  {
    var r := Next(s, i);
    if s.workers[i].pc.Loaded? {
      var h :| OnlyHolder(s, h);
      assert forall j :: 0 <= j < |s.workers| && j != i ==> !Holding(s.workers[j]);
    }
  }

  lemma StepSums(s: State, i: nat)
    requires Inv(s) && i < |s.workers|
    ensures Next(s, i).global == Wrap(Sum(Next(s, i).workers))
  {
    var w := s.workers[i];
    var r := Next(s, i);
    SumUpdate(s.workers, i, r.workers[i]);
    assert r.workers == s.workers[i := r.workers[i]];
    if w.pc.Loaded? {
      WrapAdds(Sum(s.workers), w.inc);
      assert w.inc * (w.done + 1) == w.inc * w.done + w.inc;
    }
  }

  /** Every step of every worker keeps the invariant. */
  lemma StepKeeps(s: State, i: nat)
    requires Inv(s) && i < |s.workers|
    ensures Inv(Next(s, i)) && |Next(s, i).workers| == |s.workers|
  {
    StepExcludes(s, i);
    StepIsFresh(s, i);
    StepSums(s, i);
  }

  /** Any schedule: which worker goes next, over and over. */
  function Run(s: State, schedule: seq<nat>): (r: State)
    requires forall j :: 0 <= j < |schedule| ==> schedule[j] < |s.workers|
    ensures |r.workers| == |s.workers|
    decreases |schedule|
  {
    if schedule == [] then s else Run(Next(s, schedule[0]), schedule[1..])
  }

  lemma {:induction false} RunKeeps(s: State, schedule: seq<nat>)
    requires Inv(s) && forall j :: 0 <= j < |schedule| ==> schedule[j] < |s.workers|
    ensures Inv(Run(s, schedule))
    decreases |schedule|
  {
    if schedule != [] {
      StepKeeps(s, schedule[0]);
      RunKeeps(Next(s, schedule[0]), schedule[1..]);
    }
  }

  // What worker i is to do stays the same.
  lemma {:induction false} RunKeepsTasks(s: State, schedule: seq<nat>, i: nat)
    requires i < |s.workers| && forall j :: 0 <= j < |schedule| ==> schedule[j] < |s.workers|
    ensures Run(s, schedule).workers[i].n == s.workers[i].n && Run(s, schedule).workers[i].inc == s.workers[i].inc
    decreases |schedule|
  {
    if schedule != [] {
      RunKeepsTasks(Next(s, schedule[0]), schedule[1..], i);
    }
  }

  function Total(ws: seq<Worker>): int {
    if ws == [] then 0 else ws[0].inc * ws[0].n + Total(ws[1..])
  }

  lemma {:induction false} FinishedSum(ws: seq<Worker>, vs: seq<Worker>)
    requires |ws| == |vs| && forall i :: 0 <= i < |ws| ==> ws[i].pc.Finished? && RoundsOk(ws[i]) && ws[i].n == vs[i].n && ws[i].inc == vs[i].inc
    ensures Sum(ws) == Total(vs)
    decreases |ws|
  {
    if ws != [] {
      FinishedSum(ws[1..], vs[1..]);
    }
  }

  lemma {:induction false} StartSum(ws: seq<Worker>)
    requires forall i :: 0 <= i < |ws| ==> ws[i].done == 0 && ws[i].pc.Outside?
    ensures Sum(ws) == 0
    decreases |ws|
  {
    if ws != [] {
      StartSum(ws[1..]);
    }
  }

  /** For any workers and any schedule, once all have finished the shared number is the sum of all their
      increments, in 64 bits. */
  lemma FinalValue(s: State, schedule: seq<nat>)
    requires Initial(s) && s.guarded && forall j :: 0 <= j < |schedule| ==> schedule[j] < |s.workers|
    requires forall i :: 0 <= i < |s.workers| ==> Run(s, schedule).workers[i].pc.Finished?
    ensures Run(s, schedule).global == Wrap(Total(s.workers)) && Run(s, schedule).value == 1
  {
    var r := Run(s, schedule);
    StartSum(s.workers);
    RunKeeps(s, schedule);
    forall i | 0 <= i < |s.workers|
      ensures r.workers[i].n == s.workers[i].n && r.workers[i].inc == s.workers[i].inc
    {
      RunKeepsTasks(s, schedule, i);
    }
    FinishedSum(r.workers, s.workers);
  }

  /** The processes test_sync creates: pairs of decrementers and incrementers. */
  function Pairs(n: nat, pairs: nat): seq<Worker> {
    if pairs == 0 then [] else [Worker(n, -1, 0, Outside), Worker(n, 1, 0, Outside)] + Pairs(n, pairs - 1)
  }

  lemma {:induction false} PairsBalance(n: nat, pairs: nat)
    ensures Total(Pairs(n, pairs)) == 0
    decreases pairs
  {
    if pairs > 0 {
      var ws := Pairs(n, pairs);
      assert ws[1..][1..] == Pairs(n, pairs - 1);
      PairsBalance(n, pairs - 1);
      assert Total(ws) == -1 * n + (1 * n + Total(ws[1..][1..]));
    }
  }

  /** So test_sync with its semaphore ends with 0. */
  lemma BalancedEndsWithZero(n: nat, pairs: nat, schedule: seq<nat>)
    requires n > 0
    requires var ws := Pairs(n, pairs); forall j :: 0 <= j < |schedule| ==> schedule[j] < |ws|
    requires var s := State(0, 1, true, Pairs(n, pairs)); forall i :: 0 <= i < |s.workers| ==> Run(s, schedule).workers[i].pc.Finished?
    ensures Run(State(0, 1, true, Pairs(n, pairs)), schedule).global == 0
  {
    PairsStart(n, pairs);
    PairsBalance(n, pairs);
    FinalValue(State(0, 1, true, Pairs(n, pairs)), schedule);
  }

  lemma {:induction false} PairsStart(n: nat, pairs: nat)
    ensures forall i :: 0 <= i < |Pairs(n, pairs)| ==> Pairs(n, pairs)[i].done == 0 && Pairs(n, pairs)[i].n == n && Pairs(n, pairs)[i].pc.Outside?
    decreases pairs
  {
    if pairs > 0 {
      PairsStart(n, pairs - 1);
    }
  }

  /** The workers never all get stuck: while one has not finished, some worker's next step does something. */
  lemma SomeoneCanGo(s: State, i: nat) returns (j: nat)
    requires Inv(s) && i < |s.workers| && !s.workers[i].pc.Finished?
    ensures j < |s.workers| && Next(s, j) != s
  {
    j := i;
    if s.value == 0 {
      var h :| OnlyHolder(s, h);
      j := h;
    }
    var w := s.workers[j];
    assert Next(s, j).workers[j].pc != w.pc || (w.pc.Stored? && Next(s, j).value != s.value);
  }

  // ---------------------------------------------------------------- without the guard

  lemma RunNext(s: State, i: nat, t: State, schedule: seq<nat>, rest: seq<nat>)
    requires i < |s.workers| && t == Next(s, i) && schedule == [i] + rest
    requires forall j :: 0 <= j < |rest| ==> rest[j] < |s.workers|
    ensures |t.workers| == |s.workers| && Run(s, schedule) == Run(t, rest)
  {
    assert schedule[0] == i && schedule[1..] == rest;
  }

  // Two workers with a round of one each, without a semaphore.
  function Two(global: int, value: nat, a: Worker, b: Worker): State { State(global, value, false, [a, b]) }

  function At(pc: Pc): Worker { Worker(1, 1, if pc.Finished? then 1 else 0, pc) }

  /** Both read 0 before either writes. */
  lemma BothRead()
    ensures Run(Two(0, 1, At(Outside), At(Outside)), [0, 0, 1, 1, 0, 1, 0, 1]) == Run(Two(0, 1, At(Loaded(0)), At(Loaded(0))), [0, 1, 0, 1])
  {
    RunNext(Two(0, 1, At(Outside), At(Outside)), 0, Two(0, 1, At(Inside), At(Outside)), [0, 0, 1, 1, 0, 1, 0, 1], [0, 1, 1, 0, 1, 0, 1]);
    RunNext(Two(0, 1, At(Inside), At(Outside)), 0, Two(0, 1, At(Loaded(0)), At(Outside)), [0, 1, 1, 0, 1, 0, 1], [1, 1, 0, 1, 0, 1]);
    RunNext(Two(0, 1, At(Loaded(0)), At(Outside)), 1, Two(0, 1, At(Loaded(0)), At(Inside)), [1, 1, 0, 1, 0, 1], [1, 0, 1, 0, 1]);
    RunNext(Two(0, 1, At(Loaded(0)), At(Inside)), 1, Two(0, 1, At(Loaded(0)), At(Loaded(0))), [1, 0, 1, 0, 1], [0, 1, 0, 1]);
  }

  /** Both write 1. */
  lemma BothWrite()
    ensures Run(Two(0, 1, At(Loaded(0)), At(Loaded(0))), [0, 1, 0, 1]) == Two(1, 1, At(Finished), At(Finished))
  {
    RunNext(Two(0, 1, At(Loaded(0)), At(Loaded(0))), 0, Two(1, 1, At(Stored), At(Loaded(0))), [0, 1, 0, 1], [1, 0, 1]);
    RunNext(Two(1, 1, At(Stored), At(Loaded(0))), 1, Two(1, 1, At(Stored), At(Stored)), [1, 0, 1], [0, 1]);
    RunNext(Two(1, 1, At(Stored), At(Stored)), 0, Two(1, 1, At(Finished), At(Stored)), [0, 1], [1]);
    RunNext(Two(1, 1, At(Finished), At(Stored)), 1, Two(1, 1, At(Finished), At(Finished)), [1], []);
  }

  /** Without the semaphore the same workers can lose an update. */
  lemma UnguardedLosesAnUpdate()
    ensures var s := State(0, 1, false, [Worker(1, 1, 0, Outside), Worker(1, 1, 0, Outside)]);
      var r := Run(s, [0, 0, 1, 1, 0, 1, 0, 1]);
      Initial(s) && AllFinished(r) && r.global == 1 && Wrap(Total(s.workers)) == 2
  {
    BothRead();
    BothWrite();
    var ws := [Worker(1, 1, 0, Outside), Worker(1, 1, 0, Outside)];
    assert ws == [At(Outside), At(Outside)];
    assert Total(ws) == 1 + Total(ws[1..]) && Total(ws[1..]) == 1 + Total(ws[1..][1..]);
  }

  // ---------------------------------------------------------------- the identifier

  // An identifier read into eight signed bits.
  function Int8(x: int): int { (x + 128) % 256 - 128 }

  const SEMAPHORES: nat := 512  // identifiers are below

  /** Another semaphore of the kernel than the one opened for the workers, which nobody else uses. */
  datatype Elsewhere = Closed | Open(value: nat)

  predicate AllFinished(s: State) {
    forall i :: 0 <= i < |s.workers| ==> s.workers[i].pc.Finished?
  }

  /** The workers once they have read their arguments, given the identifier of a semaphore with value 1, or 0
      for none. They give up on a negative reading, take 0 for no semaphore, and otherwise use the
      semaphore they have read; waiting for one that is closed, and posting to it, does nothing. */
  function Begin(id: nat, other: Elsewhere, tasks: seq<Worker>): State {
    var x := Int8(id);
    if x < 0 then State(0, 1, false, seq(|tasks|, i requires 0 <= i < |tasks| => tasks[i].(pc := Finished)))
    else if x == 0 then State(0, 1, false, tasks)
    else if x == id then State(0, 1, true, tasks)
    else match other
      case Closed => State(0, 1, false, tasks)
      case Open(value) => State(0, value, true, tasks)
  }

  predicate Tasks(ws: seq<Worker>) {
    forall i :: 0 <= i < |ws| ==> ws[i].done == 0 && ws[i].n > 0 && ws[i].pc.Outside?
  }

  predicate Schedule(ws: seq<Worker>, schedule: seq<nat>) {
    forall j :: 0 <= j < |schedule| ==> schedule[j] < |ws|
  }

  // If the schedule lets everyone finish, the shared number is the sum of all increments.
  predicate Sums(id: nat, other: Elsewhere, tasks: seq<Worker>, schedule: seq<nat>)
    requires Schedule(tasks, schedule)
  {
    var r := Run(Begin(id, other, tasks), schedule);
    AllFinished(r) ==> r.global == Wrap(Total(tasks))
  }

  /** Whatever the workers are to do, wherever the identifier leads them and whichever goes next. */
  ghost predicate AlwaysSums(id: nat) {
    forall other, tasks, schedule :: Tasks(tasks) && Schedule(tasks, schedule) ==> Sums(id, other, tasks, schedule)
  }

  lemma OwnSemaphoreSums(id: nat)
    requires 1 <= id <= 127
    ensures AlwaysSums(id)
  {
    forall other, tasks, schedule | Tasks(tasks) && Schedule(tasks, schedule)
      ensures Sums(id, other, tasks, schedule)
    {
      var s := Begin(id, other, tasks);
      assert s == State(0, 1, true, tasks);
      if AllFinished(Run(s, schedule)) {
        FinalValue(s, schedule);
      }
    }
  }

  lemma UnguardedMisses(id: nat)
    requires id < SEMAPHORES && Int8(id) >= 0 && !(1 <= id <= 127)
    ensures !AlwaysSums(id)
  {
    var tasks := [Worker(1, 1, 0, Outside), Worker(1, 1, 0, Outside)];
    UnguardedLosesAnUpdate();
    assert Begin(id, Closed, tasks) == State(0, 1, false, tasks);
    assert !Sums(id, Closed, tasks, [0, 0, 1, 1, 0, 1, 0, 1]);
  }

  lemma GivingUpMisses(id: nat)
    requires Int8(id) < 0
    ensures !AlwaysSums(id)
  {
    var tasks := [Worker(1, 1, 0, Outside)];
    var s := Begin(id, Closed, tasks);
    assert Run(s, []) == s && AllFinished(s);
    assert Total(tasks) == 1 + Total(tasks[1..]);
    assert !Sums(id, Closed, tasks, []);
  }

  /** Every schedule of any workers that lets them finish ends with the sum of all increments exactly when
      the identifier of the semaphore is from 1 to 127. */
  lemma GuardedExactlyWhen(id: nat)
    requires id < SEMAPHORES
    ensures AlwaysSums(id) <==> 1 <= id <= 127
  {
    if 1 <= id <= 127 {
      OwnSemaphoreSums(id);
    } else if Int8(id) < 0 {
      GivingUpMisses(id);
    } else {
      UnguardedMisses(id);
    }
  }

  // ---------------------------------------------------------------- the shared memory

  /** The workers over shared memory, one stretch at a time. */
  class Memory {
    var global: int
    var value: nat
    var guarded: bool
    const workers: array<Worker>

    ghost function Abs(): State
      reads this, workers
    {
      State(global, value, guarded, workers[..])
    }

    constructor (ws: seq<Worker>, useSem: bool)
      ensures Abs() == State(0, 1, useSem, ws) && fresh(workers)
    {
      global, value, guarded := 0, 1, useSem;
      workers := new Worker[|ws|](i requires 0 <= i < |ws| => ws[i]);
    }

    method Step(i: nat)
      requires i < workers.Length
      modifies this, workers
      ensures Abs() == Next(old(Abs()), i)
    {
      var w := workers[i];
      match w.pc {
        case Outside =>
          if guarded {
            if value == 0 {
              return;
            }
            value := value - 1;
          }
          workers[i] := w.(pc := Inside);
        case Inside =>
          workers[i] := w.(pc := Loaded(global));
        case Loaded(aux) =>
          global := Wrap(aux + w.inc);
          workers[i] := w.(pc := Stored);
        case Stored =>
          if guarded {
            value := value + 1;
          }
          workers[i] := w.(done := w.done + 1, pc := if w.done + 1 < w.n then Outside else Finished);
        case Finished =>
      }
      assert workers[..] == old(workers[..])[i := workers[i]];
    }
  }
}
