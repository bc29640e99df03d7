/** Neighbours never eat at the same time, however the steps interleave and the table changes. */
module PhilosopherProofs {
  import opened Philosophers

  predicate InSection(pc: Pc) { pc.Picking? || pc.Picked? || pc.PutLeft? || pc.PutRight? || pc.PutDone? }

  /** Whoever is in a critical section has the global semaphore, and nobody else. */
  ghost predicate LockOk(t: Table) {
    && (forall i :: 0 <= i < |t.pcs| ==> (InSection(t.pcs[i]) <==> t.lock == Held(i)))
    && (t.lock.Held? ==> t.lock.i < |t.pcs|)
    && (t.lock.ByKeeper? <==> t.keeper.Adding? || t.keeper.Added? || t.keeper.Removing? || t.keeper.Killed?)
  }

  // The philosopher the keeper has killed and not yet cleared away.
  predicate Dead(t: Table, i: int) { t.keeper.Killed? && i == t.count - 1 }

  /** What a philosopher has announced fits where it stands. */
  predicate MoodOk(t: Table, i: nat)
    requires Sized(t) && i < MAX_PHILOSOPHERS
  {
    Dead(t, i) ||
    match t.pcs[i]
    case Absent => t.moods[i] == None && t.tokens[i] == 0
    case Joining => t.moods[i] == None && t.tokens[i] == 0
    case AtEase => t.moods[i] == Thinking && t.tokens[i] == 0
    case Picking => t.moods[i] == Hungry && t.tokens[i] == 0
    case Picked => (t.moods[i] == Hungry && t.tokens[i] == 0) || (t.moods[i] == Eating && t.tokens[i] <= 1)
    case Waiting => (t.moods[i] == Hungry && t.tokens[i] == 0) || (t.moods[i] == Eating && t.tokens[i] <= 1)
    case Dining => t.moods[i] == Eating && t.tokens[i] == 0
    case _ => t.moods[i] == Thinking && t.tokens[i] == 0
  }

  /** Only the philosophers of the table are there, and one who has been created and not yet counted. */
  predicate PlaceOk(t: Table, i: nat)
    requires Sized(t) && i < MAX_PHILOSOPHERS
  {
    if i < t.count then (t.pcs[i].Absent? <==> Dead(t, i))
    else if i == t.count && t.keeper.Added? then t.pcs[i].Joining? || t.pcs[i].AtEase?
    else t.pcs[i].Absent?
  }

  predicate KeeperOk(t: Table)
    requires Sized(t)
  {
    && (t.keeper.Adding? || t.keeper.Added? ==> t.count < MAX_PHILOSOPHERS)
    && (t.keeper.Removing? || t.keeper.AwaitToken? || t.keeper.AwaitLock? || t.keeper.Killed? ==> t.count > 0)
    && (t.keeper.Killed? ==> !BothSidesEat(t))
  }

  // Both neighbours of the last philosopher are eating.
  predicate BothSidesEat(t: Table)
    requires Sized(t) && t.count > 0
  {
    t.moods[LeftOf(t.count - 1, t.count)] == Eating && t.moods[RightOf(t.count - 1, t.count)] == Eating
  }

  /** No two distinct neighbours are eating. */
  predicate Apart(t: Table, i: nat)
    requires Sized(t) && i < t.count
  {
    var r := RightOf(i, t.count);
    r != i ==> !(t.moods[i] == Eating && t.moods[r] == Eating)
  }

  ghost predicate Exclusive(t: Table)
    requires Sized(t)
  {
    forall i :: 0 <= i < t.count ==> Apart(t, i)
  }

  ghost predicate Inv(t: Table) {
    && Sized(t) && LockOk(t) && KeeperOk(t) && Exclusive(t)
    && forall i :: 0 <= i < MAX_PHILOSOPHERS ==> MoodOk(t, i) && PlaceOk(t, i)
  }

  lemma StepsStayOnRing(t: Table, s: Step)
    requires Inv(t) && Enabled(t, s)
    ensures OnRing(t, s)
  {
    match s {
      case PickTest(i) => assert PlaceOk(t, i);
      case LookLeft(i) => assert PlaceOk(t, i);
      case LookRight(i) => assert PlaceOk(t, i);
      case _ =>
    }
  }

  // ---------------------------------------------------------------- forks

  // Nobody but i starts to eat.
  predicate OnlyEats(t: Table, r: Table, i: nat) {
    |r.moods| == |t.moods| && forall j :: 0 <= j < |t.moods| && j != i && r.moods[j] == Eating ==> t.moods[j] == Eating
  }

  lemma EatingApart(t: Table, r: Table, i: nat)
    requires Sized(t) && Sized(r) && Exclusive(t) && r.count == t.count && i < t.count && OnlyEats(t, r, i)
    requires r.moods[i] == Eating ==>
      t.moods[i] == Eating || t.count == 1 || (r.moods[LeftOf(i, t.count)] != Eating && r.moods[RightOf(i, t.count)] != Eating)
    ensures Exclusive(r)
  {
    forall j | 0 <= j < r.count
      ensures Apart(r, j)
    {
      assert Apart(t, j);
    }
  }

  lemma FewerEatApart(t: Table, r: Table)
    requires Sized(t) && Sized(r) && Exclusive(t) && r.count == t.count
    requires forall j :: 0 <= j < |t.moods| && r.moods[j] == Eating ==> t.moods[j] == Eating
    ensures Exclusive(r)
  {
    forall j | 0 <= j < r.count
      ensures Apart(r, j)
    {
      assert Apart(t, j);
    }
  }

  /** Granting keeps neighbours apart: only a hungry philosopher next to nobody who eats is granted. */
  lemma GrantKeepsApart(t: Table, s: Step)
    requires Inv(t) && Enabled(t, s) && (s.PickTest? || s.LookLeft? || s.LookRight?) && OnRing(t, s)
    ensures Exclusive(Next(t, s))
  {
    var r := Next(t, s);
    var n := t.count;
    assert MoodOk(t, s.i) && PlaceOk(t, s.i);
    match s {
      case PickTest(i) => EatingApart(t, r, i);
      case LookLeft(i) => EatingApart(t, r, LeftOf(i, n));
      case LookRight(i) => EatingApart(t, r, RightOf(i, n));
    }
  }

  /** The table grows by a place where nobody eats; it shrinks only when the two who become neighbours are
      not both eating. */
  lemma ResizeKeepsApart(t: Table, s: Step)
    requires Inv(t) && Enabled(t, s) && (s.AddCount? || s.RemoveDone?) && OnRing(t, s)
    ensures Exclusive(Next(t, s))
  {
    var r := Next(t, s);
    var n := t.count;
    forall j | 0 <= j < r.count
      ensures Apart(r, j)
    {
      assert n < MAX_PHILOSOPHERS ==> MoodOk(t, n) && PlaceOk(t, n);
      assert j < n ==> Apart(t, j);
    }
  }

  // ---------------------------------------------------------------- one step

  lemma PhilosopherKeeps(t: Table, s: Step)
    requires Inv(t) && Enabled(t, s) && (s.Join? || s.PickEnter? || s.PickLeave? || s.TakeToken? || s.PutEnter? || s.PutLeave?)
    ensures Inv(Next(t, s))
  {
    var r := Next(t, s);
    FewerEatApart(t, r);
    forall j | 0 <= j < MAX_PHILOSOPHERS
      ensures MoodOk(r, j) && PlaceOk(r, j)
    {
      assert MoodOk(t, j) && PlaceOk(t, j);
    }
  }

  // The philosopher next to one who looks is hungry only if it waits for its token.
  lemma HungryWaits(t: Table, h: nat, i: nat)
    requires Inv(t) && t.lock == Held(h) && i < MAX_PHILOSOPHERS && i != h && t.moods[i] == Hungry
    ensures t.pcs[i] == Waiting && t.tokens[i] == 0
  {
    assert MoodOk(t, i);
    assert InSection(t.pcs[i]) <==> t.lock == Held(i);
  }

  lemma ForkStepKeeps(t: Table, s: Step)
    requires Inv(t) && Enabled(t, s) && (s.PickTest? || s.LookLeft? || s.LookRight?) && OnRing(t, s)
    ensures Inv(Next(t, s))
  {
    var r := Next(t, s);
    GrantKeepsApart(t, s);
    forall j | 0 <= j < MAX_PHILOSOPHERS
      ensures MoodOk(r, j) && PlaceOk(r, j)
    {
      ForkStepPlace(t, s, j);
    }
  }

  lemma ForkStepPlace(t: Table, s: Step, j: nat)
    requires Inv(t) && Enabled(t, s) && (s.PickTest? || s.LookLeft? || s.LookRight?) && OnRing(t, s) && j < MAX_PHILOSOPHERS
    ensures MoodOk(Next(t, s), j) && PlaceOk(Next(t, s), j)
  {
    match s {
      case PickTest(h) => TestPlace(t, h, j);
      case LookLeft(h) => LookPlace(t, s, LeftOf(h, t.count), LeftOf(LeftOf(h, t.count), t.count), j);
      case LookRight(h) => LookPlace(t, s, RightOf(h, t.count), RightOf(RightOf(h, t.count), t.count), j);
    }
  }

  lemma TestPlace(t: Table, h: nat, j: nat)
    requires Inv(t) && Enabled(t, PickTest(h)) && OnRing(t, PickTest(h)) && j < MAX_PHILOSOPHERS
    ensures MoodOk(Next(t, PickTest(h)), j) && PlaceOk(Next(t, PickTest(h)), j)
  {
    assert InSection(t.pcs[h]) && t.lock == Held(h) && MoodOk(t, h) && PlaceOk(t, h);
    assert MoodOk(t, j) && PlaceOk(t, j);
  }

  // Neighbour a, whose other neighbour is b, is looked at.
  lemma LookPlace(t: Table, s: Step, a: nat, b: nat, j: nat)
    requires Inv(t) && Enabled(t, s) && (s.LookLeft? || s.LookRight?) && OnRing(t, s) && j < MAX_PHILOSOPHERS
    requires a < t.count && b < t.count && Next(t, s) == SetPc(Offer(t, a, b), s.i, if s.LookLeft? then PutRight else PutDone)
    ensures MoodOk(Next(t, s), j) && PlaceOk(Next(t, s), j)
  {
    var h := s.i;
    assert InSection(t.pcs[h]) && t.lock == Held(h) && MoodOk(t, h) && PlaceOk(t, h);
    assert MoodOk(t, j) && PlaceOk(t, j);
    if j != h && t.moods[j] == Hungry {
      HungryWaits(t, h, j);
    }
  }

  lemma KeeperKeeps(t: Table, s: Step)
    requires Inv(t) && Enabled(t, s) && OnRing(t, s)
    requires s.AddEnter? || s.AddSpawn? || s.AddFail? || s.RemoveEnter? || s.RemoveTest? || s.StealToken? || s.RemoveRelock?
    ensures Inv(Next(t, s))
  {
    var r := Next(t, s);
    FewerEatApart(t, r);
    forall j | 0 <= j < MAX_PHILOSOPHERS
      ensures MoodOk(r, j) && PlaceOk(r, j)
    {
      assert MoodOk(t, j) && PlaceOk(t, j);
    }
    forall j | 0 <= j < MAX_PHILOSOPHERS
      ensures InSection(r.pcs[j]) <==> r.lock == Held(j)
    {
      assert InSection(t.pcs[j]) <==> t.lock == Held(j);
      assert PlaceOk(t, j);
    }
  }

  lemma ResizeKeeps(t: Table, s: Step)
    requires Inv(t) && Enabled(t, s) && (s.AddCount? || s.RemoveDone?) && OnRing(t, s)
    ensures Inv(Next(t, s))
  {
    var r := Next(t, s);
    ResizeKeepsApart(t, s);
    forall j | 0 <= j < MAX_PHILOSOPHERS
      ensures MoodOk(r, j) && PlaceOk(r, j)
    {
      assert MoodOk(t, j) && PlaceOk(t, j);
    }
  }

  lemma StepKeeps(t: Table, s: Step)
    requires Inv(t) && Enabled(t, s)
    ensures OnRing(t, s) && Inv(Next(t, s))
  {
    StepsStayOnRing(t, s);
    if s.Join? || s.PickEnter? || s.PickLeave? || s.TakeToken? || s.PutEnter? || s.PutLeave? {
      PhilosopherKeeps(t, s);
    } else if s.PickTest? || s.LookLeft? || s.LookRight? {
      ForkStepKeeps(t, s);
    } else if s.AddCount? || s.RemoveDone? {
      ResizeKeeps(t, s);
    } else {
      KeeperKeeps(t, s);
    }
  }

  // ---------------------------------------------------------------- runs

  /** Steps that can be taken one after the other. */
  ghost predicate Possible(t: Table, steps: seq<Step>)
    requires Sized(t)
    decreases |steps|
  {
    steps == [] || (Enabled(t, steps[0]) && OnRing(t, steps[0]) && Possible(Next(t, steps[0]), steps[1..]))
  }

  ghost function Run(t: Table, steps: seq<Step>): (r: Table)
    requires Sized(t) && Possible(t, steps)
    ensures Sized(r)
    decreases |steps|
  {
    if steps == [] then t else Run(Next(t, steps[0]), steps[1..])
  }

  lemma {:induction false} RunKeeps(t: Table, steps: seq<Step>)
    requires Inv(t) && Possible(t, steps)
    ensures Inv(Run(t, steps))
    decreases |steps|
  {
    if steps != [] {
      StepKeeps(t, steps[0]);
      RunKeeps(Next(t, steps[0]), steps[1..]);
    }
  }

  /** Steps that are enabled one after the other, as long as they can be carried out. */
  ghost predicate EnabledRun(t: Table, steps: seq<Step>)
    requires Sized(t)
    decreases |steps|
  {
    steps == [] || (Enabled(t, steps[0]) && (OnRing(t, steps[0]) ==> EnabledRun(Next(t, steps[0]), steps[1..])))
  }

  /** They can always be carried out: nobody looks for neighbours from outside the ring. */
  lemma {:induction false} EnabledIsPossible(t: Table, steps: seq<Step>)
    requires Inv(t) && EnabledRun(t, steps)
    ensures Possible(t, steps)
    decreases |steps|
  {
    if steps != [] {
      StepKeeps(t, steps[0]);
      EnabledIsPossible(Next(t, steps[0]), steps[1..]);
    }
  }

  lemma StartIsOk()
    ensures Inv(Start())
  {
  }

  /** In every reachable state of every interleaving no two distinct neighbours around the table as it is
      are both eating, and whoever is between pick_up_forks and put_down_forks is eating. */
  lemma NeighboursNeverEatTogether(steps: seq<Step>, i: nat)
    requires Possible(Start(), steps)
    requires var t := Run(Start(), steps); i < t.count
    ensures var t := Run(Start(), steps); var r := RightOf(i, t.count);
      r != i ==> !(t.moods[i] == Eating && t.moods[r] == Eating)
    ensures var t := Run(Start(), steps); t.pcs[i].Dining? ==> t.moods[i] == Eating
  {
    StartIsOk();
    RunKeeps(Start(), steps);
    var t := Run(Start(), steps);
    assert Apart(t, i) && MoodOk(t, i);
  }

  /** Every change of a philosopher to eating comes with exactly one token, and tokens come from nothing
      else; only the philosopher, or the keeper about to remove it, takes one. */
  lemma OneTokenPerGrant(t: Table, s: Step, i: nat)
    requires Inv(t) && Enabled(t, s) && OnRing(t, s) && i < MAX_PHILOSOPHERS
    ensures var r := Next(t, s); t.moods[i] != Eating && r.moods[i] == Eating <==> r.tokens[i] > t.tokens[i]
    ensures var r := Next(t, s); r.tokens[i] > t.tokens[i] ==> t.moods[i] == Hungry && t.tokens[i] == 0 && r.tokens[i] == 1
    ensures var r := Next(t, s);
      r.tokens[i] < t.tokens[i] ==> s == TakeToken(i) || (i == t.count - 1 && (s.StealToken? || s.RemoveDone?))
  {
    assert MoodOk(t, i) && PlaceOk(t, i);
    if s.PickTest? || s.LookLeft? || s.LookRight? {
      var h := s.i;
      assert InSection(t.pcs[h]) && t.lock == Held(h) && MoodOk(t, h);
      if i != h && t.moods[i] == Hungry {
        HungryWaits(t, h, i);
      }
    } else if s.AddSpawn? {
      assert PlaceOk(t, t.count) && MoodOk(t, t.count);
    }
  }

  // ---------------------------------------------------------------- hungry means blocked

  // Philosopher i has a neighbour who is eating.
  predicate NextToEater(t: Table, i: nat)
    requires Sized(t) && i < t.count
  {
    t.moods[LeftOf(i, t.count)] == Eating || t.moods[RightOf(i, t.count)] == Eating
  }

  /** Who may still be hungry for no reason in the middle of a critical section: the one who is picking up
      before the test, and the neighbours of one who has put down, before they are looked at. */
  predicate Pending(t: Table, i: nat)
    requires Sized(t) && i < t.count
  {
    t.lock.Held? && t.lock.i < t.count &&
    var h := t.lock.i;
    match t.pcs[h]
    case Picking => i == h
    case PutLeft => i == LeftOf(h, t.count) || i == RightOf(h, t.count)
    case PutRight => i == RightOf(h, t.count)
    case _ => false
  }

  predicate HungryOk(t: Table, i: nat)
    requires Sized(t) && i < t.count
  {
    t.moods[i] == Hungry && !Pending(t, i) ==> NextToEater(t, i)
  }

  /** Everyone hungry is next to an eater. */
  ghost predicate HungryBlocked(t: Table)
    requires Sized(t)
  {
    forall i :: 0 <= i < t.count ==> HungryOk(t, i)
  }

  // Steps that neither add to the table nor take from it.
  predicate FixedTable(s: Step) { !(s.AddCount? || s.RemoveDone?) }

  lemma TestHungry(t: Table, h: nat, i: nat)
    requires Inv(t) && i < t.count && HungryOk(t, i) && Enabled(t, PickTest(h)) && OnRing(t, PickTest(h))
    ensures HungryOk(Next(t, PickTest(h)), i)
  {
    assert InSection(t.pcs[h]) && t.lock == Held(h) && MoodOk(t, h) && PlaceOk(t, h);
  }

  lemma LookLeftHungry(t: Table, h: nat, i: nat)
    requires Inv(t) && i < t.count && HungryOk(t, i) && Enabled(t, LookLeft(h)) && OnRing(t, LookLeft(h))
    ensures HungryOk(Next(t, LookLeft(h)), i)
  {
    assert InSection(t.pcs[h]) && t.lock == Held(h) && MoodOk(t, h) && PlaceOk(t, h);
  }

  lemma LookRightHungry(t: Table, h: nat, i: nat)
    requires Inv(t) && i < t.count && HungryOk(t, i) && Enabled(t, LookRight(h)) && OnRing(t, LookRight(h))
    ensures HungryOk(Next(t, LookRight(h)), i)
  {
    assert InSection(t.pcs[h]) && t.lock == Held(h) && MoodOk(t, h) && PlaceOk(t, h);
  }

  lemma SectionHungry(t: Table, s: Step, i: nat)
    requires Inv(t) && HungryBlocked(t) && Enabled(t, s) && OnRing(t, s) && i < t.count
    requires s.PickTest? || s.LookLeft? || s.LookRight?
    ensures HungryOk(Next(t, s), i)
  {
    assert HungryOk(t, i);
    match s {
      case PickTest(h) => TestHungry(t, h, i);
      case LookLeft(h) => LookLeftHungry(t, h, i);
      case LookRight(h) => LookRightHungry(t, h, i);
    }
  }

  lemma EdgeHungry(t: Table, s: Step, i: nat)
    requires Inv(t) && HungryBlocked(t) && Enabled(t, s) && OnRing(t, s) && i < t.count
    requires s.PickEnter? || s.PickLeave? || s.PutEnter? || s.PutLeave?
    ensures HungryOk(Next(t, s), i)
  {
    var h := s.i;
    assert MoodOk(t, h) && PlaceOk(t, h);
    assert InSection(t.pcs[h]) <==> t.lock == Held(h);
    assert HungryOk(t, i);
  }

  lemma OtherHungry(t: Table, s: Step, i: nat)
    requires Inv(t) && HungryBlocked(t) && Enabled(t, s) && OnRing(t, s) && FixedTable(s) && i < t.count
    requires !(s.PickTest? || s.LookLeft? || s.LookRight? || s.PickEnter? || s.PickLeave? || s.PutEnter? || s.PutLeave?)
    ensures HungryOk(Next(t, s), i)
  {
    assert HungryOk(t, i);
    if s.Join? || s.TakeToken? {
      assert MoodOk(t, s.i) && (InSection(t.pcs[s.i]) <==> t.lock == Held(s.i));
    }
    if s.AddSpawn? {
      assert PlaceOk(t, t.count);
    }
  }

  /** The new place does not come between somebody hungry and the only neighbour who eats. */
  predicate AddSpares(t: Table)
    requires Sized(t)
  {
    var n := t.count;
    n >= 3 ==>
      && (t.moods[0] == Hungry ==> t.moods[1] == Eating)
      && (t.moods[n - 1] == Hungry ==> t.moods[n - 2] == Eating)
  }

  /** Adding a place leaves nobody hungry for no reason exactly when it spares the eaters of those whom it
      comes between. */
  lemma AddingKeepsHungryBlockedExactlyWhen(t: Table)
    requires Inv(t) && HungryBlocked(t) && t.keeper.Added?
    ensures HungryBlocked(Next(t, AddCount)) <==> AddSpares(t)
  {
    var n := t.count;
    var r := Next(t, AddCount);
    assert MoodOk(t, n) && PlaceOk(t, n);
    if AddSpares(t) {
      forall i | 0 <= i < r.count
        ensures HungryOk(r, i)
      {
        assert i < n ==> HungryOk(t, i);
      }
    } else {
      assert !HungryOk(r, 0) || !HungryOk(r, n - 1);
    }
  }

  /** The two who become neighbours are hungry only if somebody next to them, or the other, eats; one who is
      left alone is not hungry. */
  predicate RemoveSpares(t: Table)
    requires Sized(t)
  {
    var n := t.count;
    && (n == 2 ==> t.moods[0] != Hungry)
    && (n >= 3 ==>
      && (t.moods[0] == Hungry ==> t.moods[1] == Eating || t.moods[n - 2] == Eating)
      && (t.moods[n - 2] == Hungry ==> t.moods[n - 3] == Eating || t.moods[0] == Eating))
  }

  /** Taking the last place away leaves nobody hungry for no reason exactly when it spares the eaters of
      those who become neighbours. */
  lemma RemovingKeepsHungryBlockedExactlyWhen(t: Table)
    requires Inv(t) && HungryBlocked(t) && t.keeper.Killed?
    ensures HungryBlocked(Next(t, RemoveDone)) <==> RemoveSpares(t)
  {
    var n := t.count;
    var r := Next(t, RemoveDone);
    if RemoveSpares(t) {
      forall i | 0 <= i < r.count
        ensures HungryOk(r, i)
      {
        assert HungryOk(t, i);
      }
    } else {
      assert !HungryOk(r, 0) || !HungryOk(r, n - 2);
    }
  }

  /** What a run must avoid for nobody to be hungry for no reason. */
  predicate Spares(t: Table, s: Step)
    requires Sized(t)
  {
    (s.AddCount? ==> AddSpares(t)) && (s.RemoveDone? ==> RemoveSpares(t))
  }

  lemma StepHungry(t: Table, s: Step)
    requires Inv(t) && HungryBlocked(t) && Enabled(t, s) && OnRing(t, s) && Spares(t, s)
    ensures HungryBlocked(Next(t, s))
  {
    var r := Next(t, s);
    if s.AddCount? {
      AddingKeepsHungryBlockedExactlyWhen(t);
    } else if s.RemoveDone? {
      RemovingKeepsHungryBlockedExactlyWhen(t);
    } else {
      forall i | 0 <= i < r.count
        ensures HungryOk(r, i)
      {
        if s.PickTest? || s.LookLeft? || s.LookRight? {
          SectionHungry(t, s, i);
        } else if s.PickEnter? || s.PickLeave? || s.PutEnter? || s.PutLeave? {
          EdgeHungry(t, s, i);
        } else {
          OtherHungry(t, s, i);
        }
      }
    }
  }

  ghost predicate SparingRun(t: Table, steps: seq<Step>)
    requires Sized(t)
    decreases |steps|
  {
    steps == [] ||
    (Enabled(t, steps[0]) && OnRing(t, steps[0]) && Spares(t, steps[0]) && SparingRun(Next(t, steps[0]), steps[1..]))
  }

  lemma {:induction false} RunHungry(t: Table, steps: seq<Step>)
    requires Inv(t) && HungryBlocked(t) && SparingRun(t, steps)
    ensures Possible(t, steps) && Inv(Run(t, steps)) && HungryBlocked(Run(t, steps))
    decreases |steps|
  {
    if steps != [] {
      StepKeeps(t, steps[0]);
      StepHungry(t, steps[0]);
      RunHungry(Next(t, steps[0]), steps[1..]);
    }
  }

  /** From the empty table on, while philosophers come and go and every change of the table spares those it
      concerns: whenever the global semaphore is free everyone hungry is next to someone who is eating. */
  lemma HungryMeansBlocked(steps: seq<Step>, i: nat)
    requires SparingRun(Start(), steps) && Possible(Start(), steps) && i < Run(Start(), steps).count
    requires Run(Start(), steps).lock.Nobody? && Run(Start(), steps).moods[i] == Hungry
    ensures NextToEater(Run(Start(), steps), i)
  {
    StartIsOk();
    RunHungry(Start(), steps);
    assert HungryOk(Run(Start(), steps), i);
  }

  // ---------------------------------------------------------------- the guard of a removal

  // The table without its last place.
  function Shrunk(t: Table): Table
    requires Sized(t) && t.count > 0
  {
    SetMood(t, t.count - 1, None).(count := t.count - 1)
  }

  /** Taking the last place away keeps neighbours apart exactly when the two who become neighbours are not
      both eating, which is what the keeper waits for. */
  lemma ShrinkingIsSafeExactlyWhen(t: Table)
    requires Sized(t) && Exclusive(t) && t.count >= 3
    ensures Exclusive(Shrunk(t)) <==> !BothSidesEat(t)
  {
    var n := t.count;
    var r := Shrunk(t);
    if BothSidesEat(t) {
      assert !Apart(r, n - 2);
    } else {
      forall j | 0 <= j < r.count
        ensures Apart(r, j)
      {
        assert Apart(t, j);
      }
    }
  }
}
