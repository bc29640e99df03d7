/** The shared arrays of the philosophers and the critical sections over them, as they are written. */
module PhilosopherTable {
  import P = Philosophers
  import PhilosopherProofs

  class Shared {
    const moods: array<P.Mood>
    const tokens: array<nat>
    var count: nat
    ghost var lock: P.Lock
    ghost var pcs: seq<P.Pc>
    ghost var keeper: P.Keeper

    ghost function Abs(): P.Table
      reads this, moods, tokens
    {
      P.Table(moods[..], tokens[..], count, lock, pcs, keeper)
    }

    ghost predicate Valid()
      reads this, moods, tokens
    {
      PhilosopherProofs.Inv(Abs())
    }

    constructor ()
      ensures Valid() && Abs() == P.Start() && fresh(moods) && fresh(tokens)
    {
      moods := new P.Mood[P.MAX_PHILOSOPHERS](_ => P.None);
      tokens := new nat[P.MAX_PHILOSOPHERS](_ => 0);
      count := 0;
      lock, pcs, keeper := P.Nobody, seq(P.MAX_PHILOSOPHERS, _ => P.Absent), P.Idle;
      new;
      assert moods[..] == P.Start().moods && tokens[..] == P.Start().tokens;
      PhilosopherProofs.StartIsOk();
    }

    // A neighbour is given the forks if it is hungry and its other neighbour does not eat.
    method Offer(i: nat, j: nat)
      requires P.Sized(Abs()) && i < P.MAX_PHILOSOPHERS && j < P.MAX_PHILOSOPHERS
      modifies moods, tokens
      ensures Abs() == P.Offer(old(Abs()), i, j)
    {
      if moods[i] == P.Hungry && moods[j] != P.Eating {
        moods[i] := P.Eating;
        tokens[i] := tokens[i] + 1;
        assert moods[..] == old(moods[..])[i := P.Eating];
        assert tokens[..] == old(tokens[..])[i := old(tokens[i]) + 1];
      }
    }

    // put_down_forks(i)
    method PutDownForks(i: nat)
      requires Valid() && P.Enabled(Abs(), P.PutEnter(i))
      modifies this, moods, tokens
      ensures Valid() && i < old(count) && Abs() == AfterPutDown(old(Abs()), i)
    {
      ghost var t := Abs();
      PhilosopherProofs.StepKeeps(t, P.PutEnter(i));
      assert PhilosopherProofs.PlaceOk(t, i);
      moods[i] := P.Thinking;
      lock, pcs := P.Held(i), pcs[i := P.PutLeft];
      assert moods[..] == old(moods[..])[i := P.Thinking];
      assert Abs() == P.Next(t, P.PutEnter(i));
      ghost var t1 := Abs();
      Offer(P.LeftOf(i, count), P.LeftOf(P.LeftOf(i, count), count));
      pcs := pcs[i := P.PutRight];
      assert Abs() == P.Next(t1, P.LookLeft(i));
      PhilosopherProofs.StepKeeps(t1, P.LookLeft(i));
      ghost var t2 := Abs();
      Offer(P.RightOf(i, count), P.RightOf(P.RightOf(i, count), count));
      pcs := pcs[i := P.PutDone];
      assert Abs() == P.Next(t2, P.LookRight(i));
      PhilosopherProofs.StepKeeps(t2, P.LookRight(i));
      ghost var t3 := Abs();
      lock, pcs := P.Nobody, pcs[i := P.AtEase];
      PhilosopherProofs.StepKeeps(t3, P.PutLeave(i));
    }

    // pick_up_forks(i), up to the wait on its own semaphore
    method PickUpForks(i: nat)
      requires Valid() && P.Enabled(Abs(), P.PickEnter(i)) && i < count
      modifies this, moods, tokens
      ensures Valid() && Abs() == AfterPickUp(old(Abs()), i)
    {
      ghost var t := Abs();
      PhilosopherProofs.StepKeeps(t, P.PickEnter(i));
      moods[i] := P.Hungry;
      lock, pcs := P.Held(i), pcs[i := P.Picking];
      assert moods[..] == old(moods[..])[i := P.Hungry];
      ghost var t1 := Abs();
      assert t1 == P.Next(t, P.PickEnter(i));
      if moods[P.LeftOf(i, count)] != P.Eating && moods[P.RightOf(i, count)] != P.Eating {
        moods[i] := P.Eating;
        tokens[i] := tokens[i] + 1;
        assert moods[..] == t1.moods[i := P.Eating] && tokens[..] == t1.tokens[i := t1.tokens[i] + 1];
      }
      pcs := pcs[i := P.Picked];
      assert Abs() == P.Next(t1, P.PickTest(i));
      PhilosopherProofs.StepKeeps(t1, P.PickTest(i));
      ghost var t2 := Abs();
      lock, pcs := P.Nobody, pcs[i := P.Waiting];
      PhilosopherProofs.StepKeeps(t2, P.PickLeave(i));
    }

    // create_philosopher(philosopher_count), with the global semaphore taken, given whether the semaphore and
    // the process were obtained
    method CreatePhilosopher(obtained: bool) returns (r: int)
      requires Valid() && keeper.Adding?
      modifies this, moods, tokens
      ensures Valid() && r == if obtained then 0 else -1
      ensures var t := old(Abs());
        Abs() == if obtained then P.Next(P.Next(t, P.AddSpawn), P.AddCount) else P.Next(t, P.AddFail)
    {
      ghost var t := Abs();
      if !obtained {
        PhilosopherProofs.StepKeeps(t, P.AddFail);
        lock, keeper := P.Nobody, P.Idle;
        return -1;
      }
      PhilosopherProofs.StepKeeps(t, P.AddSpawn);
      tokens[count] := 0;
      assert tokens[..] == old(tokens[..])[count := 0];
      ghost var t1 := P.Next(t, P.AddSpawn);
      PhilosopherProofs.StepKeeps(t1, P.AddCount);
      pcs := pcs[count := P.Joining];
      count := count + 1;
      lock, keeper := P.Nobody, P.Idle;
      assert Abs() == P.Next(t1, P.AddCount);
      r := 0;
    }

    // remove_philosopher(philosopher_count - 1) from where it holds the global semaphore: the test of its
    // loop, and the removal when the test fails
    method RemovePhilosopher() returns (removed: bool)
      requires Valid() && keeper.Removing?
      modifies this, moods, tokens
      ensures Valid() && removed == !PhilosopherProofs.BothSidesEat(old(Abs()))
      ensures var t := old(Abs());
        Abs() == if removed then P.Next(P.Next(t, P.RemoveTest), P.RemoveDone) else P.Next(t, P.RemoveTest)
    {
      ghost var t := Abs();
      PhilosopherProofs.StepKeeps(t, P.RemoveTest);
      var i := count - 1;
      if moods[P.LeftOf(i, count)] == P.Eating && moods[P.RightOf(i, count)] == P.Eating {
        lock, keeper := P.Nobody, P.AwaitToken;
        return false;
      }
      ghost var t1 := P.Next(t, P.RemoveTest);
      PhilosopherProofs.StepKeeps(t1, P.RemoveDone);
      pcs := pcs[i := P.Absent];
      moods[i] := P.None;
      tokens[i] := 0;
      count := count - 1;
      lock, keeper := P.Nobody, P.Idle;
      assert moods[..] == old(moods[..])[i := P.None] && tokens[..] == old(tokens[..])[i := 0];
      assert Abs() == P.Next(t1, P.RemoveDone);
      removed := true;
    }
  }

  // The steps of put_down_forks in a row.
  function AfterPutDown(t: P.Table, i: nat): P.Table
    requires P.Sized(t) && P.Enabled(t, P.PutEnter(i)) && i < t.count
  {
    P.Next(P.Next(P.Next(P.Next(t, P.PutEnter(i)), P.LookLeft(i)), P.LookRight(i)), P.PutLeave(i))
  }

  function AfterPickUp(t: P.Table, i: nat): P.Table
    requires P.Sized(t) && P.Enabled(t, P.PickEnter(i)) && i < t.count
  {
    P.Next(P.Next(P.Next(t, P.PickEnter(i)), P.PickTest(i)), P.PickLeave(i))
  }
}
