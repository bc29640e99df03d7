/** Runs from the empty table after which somebody is hungry although neither neighbour eats: one adds a
    place, the other takes one away. */
module PhilosopherExamples {
  import opened Philosophers
  import opened PhilosopherProofs

  /** A run from the empty table leads to t. */
  ghost predicate Leads(steps: seq<Step>, t: Table) {
    Sized(t) && forall more :: Possible(t, more) ==> Possible(Start(), steps + more) && Run(Start(), steps + more) == Run(t, more)
  }

  lemma LeadsThere(steps: seq<Step>, t: Table)
    requires Leads(steps, t)
    ensures Possible(Start(), steps) && Run(Start(), steps) == t
  {
    assert Possible(t, []) && steps + [] == steps;
  }

  lemma RunHead(t: Table, s: Step, steps: seq<Step>, all: seq<Step>, r: Table)
    requires Sized(t) && Enabled(t, s) && OnRing(t, s) && r == Next(t, s) && all == [s] + steps && Possible(r, steps)
    ensures Possible(t, all) && Run(t, all) == Run(r, steps)
  {
    assert all[0] == s && all[1..] == steps;
  }

  lemma LeadsOn(steps: seq<Step>, t: Table, s: Step, r: Table)
    requires Leads(steps, t) && Enabled(t, s) && OnRing(t, s) && r == Next(t, s)
    ensures Leads(steps + [s], r)
  {
    forall more | Possible(r, more)
      ensures Possible(Start(), steps + [s] + more) && Run(Start(), steps + [s] + more) == Run(r, more)
    {
      RunHead(t, s, more, [s] + more, r);
      assert steps + [s] + more == steps + ([s] + more);
    }
  }

  // Nobody is in a critical section, and n philosophers are at the table.
  predicate Calm(t: Table, n: nat) {
    Sized(t) && t.lock == Nobody && t.keeper == Idle && t.count == n
  }

  // Philosopher i stands somewhere, in some mood, without a token.
  predicate Stands(t: Table, i: nat, mood: Mood, pc: Pc)
    requires Sized(t) && i < MAX_PHILOSOPHERS
  {
    t.moods[i] == mood && t.pcs[i] == pc && t.tokens[i] == 0
  }

  predicate OthersStay(t: Table, r: Table, i: nat)
    requires Sized(t) && Sized(r)
  {
    forall j :: 0 <= j < MAX_PHILOSOPHERS && j != i ==> r.moods[j] == t.moods[j] && r.pcs[j] == t.pcs[j] && r.tokens[j] == t.tokens[j]
  }

  function Seating(n: nat): seq<Step> { [AddEnter, AddSpawn, AddCount, Join(n)] }

  /** A philosopher is added and sits down. */
  lemma Seat(steps: seq<Step>, t: Table, n: nat) returns (r: Table)
    requires Leads(steps, t) && Calm(t, n) && n < MAX_PHILOSOPHERS
    ensures Leads(steps + Seating(n), r) && Calm(r, n + 1) && Stands(r, n, Thinking, AtEase) && OthersStay(t, r, n)
  {
    var t1 := Next(t, AddEnter);
    LeadsOn(steps, t, AddEnter, t1);
    var t2 := Next(t1, AddSpawn);
    LeadsOn(steps + [AddEnter], t1, AddSpawn, t2);
    var t3 := Next(t2, AddCount);
    LeadsOn(steps + [AddEnter] + [AddSpawn], t2, AddCount, t3);
    r := Next(t3, Join(n));
    LeadsOn(steps + [AddEnter] + [AddSpawn] + [AddCount], t3, Join(n), r);
    assert steps + [AddEnter] + [AddSpawn] + [AddCount] + [Join(n)] == steps + Seating(n);
  }

  function Picking(i: nat): seq<Step> { [PickEnter(i), PickTest(i), PickLeave(i)] }

  /** A philosopher picks up, and eats exactly when neither neighbour does. */
  lemma Pick(steps: seq<Step>, t: Table, i: nat) returns (r: Table)
    requires Leads(steps, t) && Calm(t, t.count) && i < t.count && t.count > 1 && Stands(t, i, Thinking, AtEase)
    ensures Leads(steps + Picking(i), r) && Calm(r, t.count) && OthersStay(t, r, i)
    ensures if NextToEater(t, i) then Stands(r, i, Hungry, Waiting) else r.moods[i] == Eating
  {
    var t1 := Next(t, PickEnter(i));
    LeadsOn(steps, t, PickEnter(i), t1);
    var t2 := Next(t1, PickTest(i));
    LeadsOn(steps + [PickEnter(i)], t1, PickTest(i), t2);
    r := Next(t2, PickLeave(i));
    LeadsOn(steps + [PickEnter(i)] + [PickTest(i)], t2, PickLeave(i), r);
    assert steps + [PickEnter(i)] + [PickTest(i)] + [PickLeave(i)] == steps + Picking(i);
  }

  function Three(): seq<Step> { Seating(0) + Seating(1) + Seating(2) }

  predicate AtEaseThree(t: Table)
    requires Sized(t)
  {
    Stands(t, 0, Thinking, AtEase) && Stands(t, 1, Thinking, AtEase) && Stands(t, 2, Thinking, AtEase)
  }

  lemma ThreeSitDown() returns (t: Table)
    ensures Leads(Three(), t) && Calm(t, 3) && AtEaseThree(t)
  {
    assert forall more: seq<Step> :: [] + more == more;
    assert Leads([], Start());
    var t1 := Seat([], Start(), 0);
    assert [] + Seating(0) == Seating(0);
    var t2 := Seat(Seating(0), t1, 1);
    t := Seat(Seating(0) + Seating(1), t2, 2);
  }

  // Philosopher i eats, and j next to it goes hungry.
  lemma OneEats(steps: seq<Step>, t: Table, i: nat, j: nat) returns (r: Table)
    requires Leads(steps, t) && Calm(t, 3) && AtEaseThree(t) && ((i == 0 && j == 2) || (i == 2 && j == 0))
    ensures Leads(steps + Picking(i) + Picking(j), r) && Calm(r, 3) && r.moods[i] == Eating
    ensures Stands(r, j, Hungry, Waiting) && Stands(r, 1, Thinking, AtEase)
  {
    var t1 := Pick(steps, t, i);
    assert Stands(t1, 1, Thinking, AtEase) && Stands(t1, j, Thinking, AtEase);
    r := Pick(steps + Picking(i), t1, j);
  }

  /** Of three at the table one eats and one is hungry; a fourth place is added between them, and the
      hungry one has no neighbour who eats any more. */
  lemma AddedPlaceStarves() returns (r: Table)
    ensures var steps := Three() + Picking(0) + Picking(2) + Seating(3); Possible(Start(), steps) && r == Run(Start(), steps)
    ensures r.lock == Nobody && r.count == 4 && r.moods[2] == Hungry && r.pcs[2] == Waiting && !NextToEater(r, 2)
  {
    var t := ThreeSitDown();
    var t1 := OneEats(Three(), t, 0, 2);
    r := Seat(Three() + Picking(0) + Picking(2), t1, 3);
    LeadsThere(Three() + Picking(0) + Picking(2) + Seating(3), r);
  }

  function Removal(): seq<Step> { [RemoveEnter, RemoveTest, RemoveDone] }

  /** The last of three eats and is taken away: the first stays hungry next to nobody who eats. */
  lemma RemovedEaterStarves() returns (r: Table)
    ensures var steps := Three() + Picking(2) + Picking(0) + Removal(); Possible(Start(), steps) && r == Run(Start(), steps)
    ensures r.lock == Nobody && r.count == 2 && r.moods[0] == Hungry && r.pcs[0] == Waiting && !NextToEater(r, 0)
  {
    var t := ThreeSitDown();
    var t1 := OneEats(Three(), t, 2, 0);
    r := Remove(Three() + Picking(2) + Picking(0), t1);
    LeadsThere(Three() + Picking(2) + Picking(0) + Removal(), r);
  }

  lemma Remove(steps: seq<Step>, t: Table) returns (r: Table)
    requires Leads(steps, t) && Calm(t, 3) && t.moods[1] == Thinking
    ensures Leads(steps + Removal(), r) && Calm(r, 2) && OthersStay(t, r, 2)
  {
    var t1 := Next(t, RemoveEnter);
    LeadsOn(steps, t, RemoveEnter, t1);
    var t2 := Next(t1, RemoveTest);
    LeadsOn(steps + [RemoveEnter], t1, RemoveTest, t2);
    r := Next(t2, RemoveDone);
    LeadsOn(steps + [RemoveEnter] + [RemoveTest], t2, RemoveDone, r);
    assert steps + [RemoveEnter] + [RemoveTest] + [RemoveDone] == steps + Removal();
  }
}
