/** Dining philosophers around a table that grows and shrinks while they eat
    (Userland/UserCodeModule/programs/phylo.c). Every statement that touches the shared state is a step;
    philosophers and the keeper of the table take steps in any order. */
module Philosophers {

  const MAX_PHILOSOPHERS: nat := 13

  datatype Mood = None | Eating | Hungry | Thinking

  // Where a philosopher process stands.
  datatype Pc =
    | Absent
    | Joining   // created, has not yet sat down
    | AtEase    // between put_down_forks and pick_up_forks
    | Picking   // in pick_up_forks, holding the global semaphore: hungry
    | Picked    // in pick_up_forks, past the test of the neighbours
    | Waiting   // in pick_up_forks, at the wait on its own semaphore
    | Dining    // between pick_up_forks and put_down_forks
    | PutLeft   // in put_down_forks, holding the global semaphore: about to look left
    | PutRight  // about to look right
    | PutDone   // about to release the global semaphore

  // Where the process that adds and removes philosophers stands.
  datatype Keeper = Idle | Adding | Added | Removing | AwaitToken | AwaitLock | Killed

  datatype Lock = Nobody | Held(i: nat) | ByKeeper

  datatype Table = Table(
    moods: seq<Mood>,   // philosopher_states
    tokens: seq<nat>,   // values of philosopher_semaphores
    count: nat,         // philosopher_count
    lock: Lock,         // who has taken global_semaphore
    pcs: seq<Pc>,
    keeper: Keeper)

  datatype Step =
    | Join(i: nat) | PickEnter(i: nat) | PickTest(i: nat) | PickLeave(i: nat) | TakeToken(i: nat)
    | PutEnter(i: nat) | LookLeft(i: nat) | LookRight(i: nat) | PutLeave(i: nat)
    | AddEnter | AddSpawn | AddFail | AddCount
    | RemoveEnter | RemoveTest | StealToken | RemoveRelock | RemoveDone

  function RightOf(x: nat, n: nat): (r: nat)
    requires x < n
    ensures r == if x + 1 == n then 0 else x + 1
  {
    (x + 1) % n
  }

  function LeftOf(x: nat, n: nat): (r: nat)
    requires x < n
    ensures r == if x == 0 then n - 1 else x - 1
  {
    LeftModulo(x, n);
    (x + n - 1) % n
  }

  lemma LeftModulo(x: nat, n: nat)
    requires x < n
    ensures (x + n - 1) % n == if x == 0 then n - 1 else x - 1
  {
    if x > 0 {
      assert x + n - 1 == 1 * n + (x - 1);
    }
  }

  predicate Sized(t: Table) {
    && |t.moods| == MAX_PHILOSOPHERS && |t.tokens| == MAX_PHILOSOPHERS && |t.pcs| == MAX_PHILOSOPHERS
    && t.count <= MAX_PHILOSOPHERS
  }

  // ---------------------------------------------------------------- steps

  predicate At(t: Table, i: nat, pc: Pc) { i < |t.pcs| && t.pcs[i] == pc }

  /** When a step can be taken: its process is there, and the semaphore it waits for has a unit. */
  predicate Enabled(t: Table, s: Step)
    requires Sized(t)
  {
    match s
    case Join(i) => At(t, i, Joining)
    case PickEnter(i) => At(t, i, AtEase) && t.lock.Nobody?
    case PickTest(i) => At(t, i, Picking)
    case PickLeave(i) => At(t, i, Picked)
    case TakeToken(i) => At(t, i, Waiting) && t.tokens[i] > 0
    case PutEnter(i) => At(t, i, Dining) && t.lock.Nobody?
    case LookLeft(i) => At(t, i, PutLeft)
    case LookRight(i) => At(t, i, PutRight)
    case PutLeave(i) => At(t, i, PutDone)
    case AddEnter => t.keeper.Idle? && t.lock.Nobody? && t.count < MAX_PHILOSOPHERS
    case AddSpawn => t.keeper.Adding?
    case AddFail => t.keeper.Adding?
    case AddCount => t.keeper.Added?
    case RemoveEnter => t.keeper.Idle? && t.lock.Nobody? && t.count > 0
    case RemoveTest => t.keeper.Removing?
    case StealToken => t.keeper.AwaitToken? && t.count > 0 && t.tokens[t.count - 1] > 0
    case RemoveRelock => t.keeper.AwaitLock? && t.lock.Nobody?
    case RemoveDone => t.keeper.Killed?
  }

  function SetMood(t: Table, i: nat, m: Mood): Table
    requires i < |t.moods|
  {
    t.(moods := t.moods[i := m])
  }

  function SetPc(t: Table, i: nat, pc: Pc): Table
    requires i < |t.pcs|
  {
    t.(pcs := t.pcs[i := pc])
  }

  /** A hungry philosopher is given the forks, and its token. */
  function Grant(t: Table, i: nat): Table
    requires Sized(t) && i < MAX_PHILOSOPHERS
  {
    SetMood(t, i, Eating).(tokens := t.tokens[i := t.tokens[i] + 1])
  }

  // Someone who has put down the forks looks at neighbour i, whose other neighbour is j.
  function Offer(t: Table, i: nat, j: nat): Table
    requires Sized(t) && i < MAX_PHILOSOPHERS && j < MAX_PHILOSOPHERS
  {
    if t.moods[i] == Hungry && t.moods[j] != Eating then Grant(t, i) else t
  }

  // The steps that use the ring need their philosopher, or the keeper's, to be part of it.
  predicate OnRing(t: Table, s: Step) {
    match s
    case PickTest(i) => i < t.count
    case LookLeft(i) => i < t.count
    case LookRight(i) => i < t.count
    case AddSpawn => t.count < MAX_PHILOSOPHERS
    case AddCount => t.count < MAX_PHILOSOPHERS
    case RemoveTest => t.count > 0
    case StealToken => t.count > 0
    case RemoveDone => t.count > 0
    case _ => true
  }

  function Next(t: Table, s: Step): (r: Table)
    requires Sized(t) && OnRing(t, s) && Enabled(t, s)
    ensures Sized(r)
  {
    var n := t.count;
    match s
    case Join(i) => SetPc(SetMood(t, i, Thinking), i, AtEase)
    case PickEnter(i) => SetPc(SetMood(t, i, Hungry), i, Picking).(lock := Held(i))
    case PickTest(i) =>
      SetPc(if t.moods[LeftOf(i, n)] != Eating && t.moods[RightOf(i, n)] != Eating then Grant(t, i) else t, i, Picked)
    case PickLeave(i) => SetPc(t, i, Waiting).(lock := Nobody)
    case TakeToken(i) => SetPc(t, i, Dining).(tokens := t.tokens[i := t.tokens[i] - 1])
    case PutEnter(i) => SetPc(SetMood(t, i, Thinking), i, PutLeft).(lock := Held(i))
    case LookLeft(i) => SetPc(Offer(t, LeftOf(i, n), LeftOf(LeftOf(i, n), n)), i, PutRight)
    case LookRight(i) => SetPc(Offer(t, RightOf(i, n), RightOf(RightOf(i, n), n)), i, PutDone)
    case PutLeave(i) => SetPc(t, i, AtEase).(lock := Nobody)
    case AddEnter => t.(lock := ByKeeper, keeper := Adding)
    case AddSpawn => SetPc(t, n, Joining).(tokens := t.tokens[n := 0], keeper := Added)
    case AddFail => t.(lock := Nobody, keeper := Idle)
    case AddCount => t.(count := n + 1, lock := Nobody, keeper := Idle)
    case RemoveEnter => t.(lock := ByKeeper, keeper := Removing)
    case RemoveTest =>
      if t.moods[LeftOf(n - 1, n)] == Eating && t.moods[RightOf(n - 1, n)] == Eating then t.(lock := Nobody, keeper := AwaitToken)
      else SetPc(t, n - 1, Absent).(keeper := Killed)
    case StealToken => t.(tokens := t.tokens[n - 1 := t.tokens[n - 1] - 1], keeper := AwaitLock)
    case RemoveRelock => t.(lock := ByKeeper, keeper := Removing)
    case RemoveDone => SetMood(t, n - 1, None).(tokens := t.tokens[n - 1 := 0], count := n - 1, lock := Nobody, keeper := Idle)
  }

  /** An empty table. */
  function Start(): (t: Table)
    ensures Sized(t)
  {
    Table(seq(MAX_PHILOSOPHERS, _ => None), seq(MAX_PHILOSOPHERS, _ => 0), 0, Nobody, seq(MAX_PHILOSOPHERS, _ => Absent), Idle)
  }
}
