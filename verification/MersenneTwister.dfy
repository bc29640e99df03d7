/** The 64-bit Mersenne Twister of Kernel/kernel-libs/random.c.
    The generator regenerates its 312 words in place; it is proved against the
    linear recurrence of mt19937_64 (sections 26.5.3.2 and 26.5.5 of ISO/IEC 14882:2011). */
module MersenneTwister {

  type Word = bv64

  const STATE_SIZE: nat := 312
  const MIDDLE: nat := 156
  const LOWER_MASK: Word := 0x7fffffff
  const UPPER_MASK: Word := 0xffffffff80000000
  const TWIST_MASK: Word := 0xb5026f5aa96619e9
  const INIT_FACT: Word := 6364136223846793005
  const MASK1: Word := 0x5555555555555555
  const MASK2: Word := 0x71d67fffeda60000
  const MASK3: Word := 0xfff7eee000000000

  // ---------------------------------------------------------------- the recurrence

  function Scrambled(previous: Word): Word { INIT_FACT * (previous ^ (previous >> 62)) }

  function Counter(i: nat): Word { (i % 0x1_0000_0000_0000_0000) as Word }

  function Add(a: Word, b: Word): Word { a + b }

  function SeedStep(previous: Word, i: nat): Word { Add(Scrambled(previous), Counter(i)) }

  // The high bits of one word joined to the low bits of the next.
  function Joined(high: Word, low: Word): Word { (high & UPPER_MASK) | (low & LOWER_MASK) }

  // A word times the matrix of the generator.
  function Turned(y: Word): Word { (y >> 1) ^ (if y & 1 == 1 then TWIST_MASK else 0) }

  function Twisted(high: Word, low: Word): Word { Turned(Joined(high, low)) }

  function NextTerm(middle: Word, high: Word, low: Word): Word { middle ^ Twisted(high, low) }

  const Next: (Word, Word, Word) -> Word := (middle: Word, high: Word, low: Word) => NextTerm(middle, high, low)
  const Step: (Word, nat) -> Word := (previous: Word, n: nat) => SeedStep(previous, n)

  // 312 terms, each stepped from the one before it, then a three-term recurrence.
  function Term<W>(first: W, step: (W, nat) -> W, next: (W, W, W) -> W, n: nat): W {
    if n == 0 then first
    else if n < STATE_SIZE then step(Term(first, step, next, n - 1), n)
    else next(Term(first, step, next, n - STATE_SIZE + MIDDLE),
              Term(first, step, next, n - STATE_SIZE),
              Term(first, step, next, n - STATE_SIZE + 1))
  }

  // x(n) of mt19937_64 for a seed.
  function X(seed: Word, n: nat): Word { Term(seed, Step, Next, n) }

  // ---------------------------------------------------------------- tempering

  // Tempering is four stages; each one mixes a word with a masked shift of itself.
  function Xor(a: Word, b: Word): Word { a ^ b }

  function Mix(f: Word -> Word, y: Word): Word { Xor(y, f(y)) }

  const Shift1: Word -> Word := (y: Word) => (y >> 29) & MASK1
  const Shift2: Word -> Word := (y: Word) => (y << 17) & MASK2
  const Shift3: Word -> Word := (y: Word) => (y << 37) & MASK3
  const Shift4: Word -> Word := (y: Word) => y >> 43

  function Temper(y: Word): Word { Mix(Shift4, Mix(Shift3, Mix(Shift2, Mix(Shift1, y)))) }

  // Iterating a stage undoes it.
  function Unmix(f: Word -> Word, y: Word): Word { Xor(y, f(Xor(y, f(Xor(y, f(y)))))) }

  function Untemper(y: Word): Word { Unmix(Shift1, Unmix(Shift2, Unmix(Shift3, Unmix(Shift4, y)))) }

  predicate LinearAt(f: Word -> Word, a: Word, b: Word) { f(Xor(a, b)) == Xor(f(a), f(b)) }

  predicate VanishesAt(f: Word -> Word, a: Word) { f(f(f(f(a)))) == 0 }

  /** A masked shift is linear over exclusive-or and pushes every bit out within four applications. */
  ghost predicate LinearNilpotent(f: Word -> Word) {
    && (forall a, b :: LinearAt(f, a, b))
    && (forall a :: VanishesAt(f, a))
  }

  lemma XorCancels(y: Word, a: Word, b: Word)
    ensures Xor(Xor(y, a), Xor(a, b)) == Xor(y, b)
  {
  }

  lemma XorUndone(y: Word, a: Word)
    ensures Xor(Xor(y, a), a) == y && Xor(a, 0) == a
  {
  }

  lemma UnmixAfterMix(f: Word -> Word, y: Word)
    requires LinearNilpotent(f)
    ensures Unmix(f, Mix(f, y)) == y
  {
    var m1 := f(y);
    var m2 := f(m1);
    var m3 := f(m2);
    assert LinearAt(f, y, m1) && LinearAt(f, y, m2) && LinearAt(f, y, m3) && VanishesAt(f, y);
    XorCancels(y, m1, m2);
    XorCancels(y, m1, m3);
    XorUndone(y, m1);
  }

  lemma MixAfterUnmix(f: Word -> Word, y: Word)
    requires LinearNilpotent(f)
    ensures Mix(f, Unmix(f, y)) == y
  {
    var m1 := f(y);
    var m2 := f(m1);
    var m3 := f(m2);
    assert LinearAt(f, y, m1) && LinearAt(f, y, Xor(m1, m2)) && LinearAt(f, y, Xor(m1, Xor(m2, m3))) && VanishesAt(f, y);
    assert LinearAt(f, m1, m2) && LinearAt(f, m1, Xor(m2, m3)) && LinearAt(f, m2, m3);
    XorUndone(y, m3);
    XorUndone(y, Xor(m1, Xor(m2, m3)));
  }

  lemma UnmixUndoesMix(f: Word -> Word, y: Word)
    requires LinearNilpotent(f)
    ensures Unmix(f, Mix(f, y)) == y && Mix(f, Unmix(f, y)) == y
  {
    UnmixAfterMix(f, y);
    MixAfterUnmix(f, y);
  }

  lemma StagesLinearNilpotent()
    ensures LinearNilpotent(Shift1) && LinearNilpotent(Shift2)
    ensures LinearNilpotent(Shift3) && LinearNilpotent(Shift4)
  {
  }

  /** Tempering is a bijection on words: no two states of a word give the same output. */
  lemma TemperBijective(y: Word)
    ensures Untemper(Temper(y)) == y && Temper(Untemper(y)) == y
  {
    StagesLinearNilpotent();
    UnmixUndoesMix(Shift1, y);
    UnmixUndoesMix(Shift2, Mix(Shift1, y));
    UnmixUndoesMix(Shift3, Mix(Shift2, Mix(Shift1, y)));
    UnmixUndoesMix(Shift4, Mix(Shift3, Mix(Shift2, Mix(Shift1, y))));
    UnmixUndoesMix(Shift4, y);
    UnmixUndoesMix(Shift3, Unmix(Shift4, y));
    UnmixUndoesMix(Shift2, Unmix(Shift3, Unmix(Shift4, y)));
    UnmixUndoesMix(Shift1, Unmix(Shift2, Unmix(Shift3, Unmix(Shift4, y))));
  }

  // ---------------------------------------------------------------- the state array

  ghost predicate RecursAt<W>(next: (W, W, W) -> W, x: nat -> W, n: nat) {
    x(n + STATE_SIZE) == next(x(n + MIDDLE), x(n), x(n + 1))
  }

  /** x satisfies the three-term recurrence that regenerates the state. */
  ghost predicate Recurrence<W>(next: (W, W, W) -> W, x: nat -> W) {
    forall n: nat :: RecursAt(next, x, n)
  }

  ghost predicate SeedsAt<W>(step: (W, nat) -> W, x: nat -> W, n: nat) {
    0 < n < STATE_SIZE ==> x(n) == step(x(n - 1), n)
  }

  /** Terms base .. base + 311 of x, in order. */
  ghost predicate IsBlock<W>(words: seq<W>, x: nat -> W, base: nat) {
    && |words| == STATE_SIZE
    && forall j :: 0 <= j < STATE_SIZE ==> words[j] == x(base + j)
  }

  /** Regenerating a block in place, where late entries read entries already overwritten,
      still yields the next block of the recurrence. */
  method RegenerateInPlace<W>(state: array<W>, next: (W, W, W) -> W, ghost x: nat -> W, ghost base: nat)
    requires Recurrence(next, x) && IsBlock(state[..], x, base)
    modifies state
    ensures IsBlock(state[..], x, base + STATE_SIZE)
  {
    for i := 0 to STATE_SIZE
      invariant forall j :: 0 <= j < i ==> state[j] == x(base + STATE_SIZE + j)
      invariant forall j :: i <= j < STATE_SIZE ==> state[j] == x(base + j)
    {
      assert state[(i + 1) % STATE_SIZE] == x(base + i + 1);
      assert state[(i + MIDDLE) % STATE_SIZE] == x(base + i + MIDDLE);
      assert RecursAt(next, x, base + i);
      state[i] := next(state[(i + MIDDLE) % STATE_SIZE], state[i], state[(i + 1) % STATE_SIZE]);
    }
  }

  /** x is the sequence that the recurrence and the seeding rule determine. */
  ghost predicate Follows<W>(x: nat -> W, first: W, step: (W, nat) -> W, next: (W, W, W) -> W) {
    && x(0) == first
    && (forall n: nat :: SeedsAt(step, x, n))
    && Recurrence(next, x)
  }

  lemma TermsFollow<W>(first: W, step: (W, nat) -> W, next: (W, W, W) -> W)
    ensures Follows((n: nat) => Term(first, step, next, n), first, step, next)
  {
  }

  /** Seeding and recurrence leave no freedom: every sequence that follows them is Term. */
  lemma {:induction false} FollowingIsUnique<W>(x: nat -> W, first: W, step: (W, nat) -> W, next: (W, W, W) -> W, n: nat)
    requires Follows(x, first, step, next)
    ensures x(n) == Term(first, step, next, n)
    decreases n
  {
    if 0 < n < STATE_SIZE {
      FollowingIsUnique(x, first, step, next, n - 1);
      assert SeedsAt(step, x, n);
    } else if n >= STATE_SIZE {
      FollowingIsUnique(x, first, step, next, n - STATE_SIZE + MIDDLE);
      FollowingIsUnique(x, first, step, next, n - STATE_SIZE);
      FollowingIsUnique(x, first, step, next, n - STATE_SIZE + 1);
      assert RecursAt(next, x, n - STATE_SIZE);
    }
  }

  /** Seeding: the first block, each word from the one before it. */
  method FillFromSeed<W>(state: array<W>, first: W, step: (W, nat) -> W, ghost next: (W, W, W) -> W)
    returns (ghost x: nat -> W)
    requires state.Length == STATE_SIZE
    modifies state
    ensures Follows(x, first, step, next) && IsBlock(state[..], x, 0)
  {
    x := (n: nat) => Term(first, step, next, n);
    TermsFollow(first, step, next);
    state[0] := first;
    for i := 1 to STATE_SIZE
      invariant forall j :: 0 <= j < i ==> state[j] == x(j)
    {
      assert SeedsAt(step, x, i);
      state[i] := step(state[i - 1], i);
    }
  }

  /** The state array and its index, for any seeding step and any three-term recurrence. */
  class Engine<W(0)> {
    const state: array<W>
    const step: (W, nat) -> W
    const next: (W, W, W) -> W
    const temper: W -> W
    var index: nat
    ghost var first: W        // the seed
    ghost var terms: nat -> W // the sequence the seed determines
    ghost var rounds: nat     // how often the state has been regenerated
    ghost var drawn: nat      // how many words have been taken

    ghost predicate Seeded() reads this { index <= STATE_SIZE }

    // The array always holds one block of consecutive terms of the recurrence.
    ghost predicate Valid()
      reads this, state
    {
      && state.Length == STATE_SIZE
      && index <= STATE_SIZE + 1
      && (!Seeded() ==> drawn == 0)
      && (Seeded() ==>
        && Follows(terms, first, step, next)
        && drawn + STATE_SIZE == STATE_SIZE * rounds + index
        && IsBlock(state[..], terms, STATE_SIZE * rounds))
    }

    constructor (step: (W, nat) -> W, next: (W, W, W) -> W, temper: W -> W, ghost w: W)
      ensures Valid() && !Seeded() && drawn == 0 && fresh(state)
      ensures this.step == step && this.next == next && this.temper == temper
    {
      state := new W[STATE_SIZE];
      index := STATE_SIZE + 1;
      this.step, this.next, this.temper := step, next, temper;
      first, rounds, drawn := w, 0, 0;
      terms := (n: nat) => w;
    }

    method Seed(s: W)
      requires Valid()
      modifies this, state
      ensures Valid() && index == STATE_SIZE && first == s && drawn == 0
    {
      index := STATE_SIZE;
      first, rounds, drawn := s, 0, 0;
      terms := FillFromSeed(state, s, step, next);
    }

    /** Replaces the block of terms in the array by the next one, in place. */
    method Twist()
      requires Valid() && index == STATE_SIZE
      modifies state, this`index, this`rounds
      ensures Valid() && index == 0
    {
      RegenerateInPlace(state, next, terms, STATE_SIZE * rounds);
      index := 0;
      rounds := rounds + 1;
    }

    /** The i-th word taken, counting from 0. */
    ghost function Output(i: nat): W
      reads this
    {
      temper(Term(first, step, next, STATE_SIZE + i))
    }

    // Makes sure a word is left, seeding the state on first use and regenerating it when used up.
    method Refill(seedWord: W)
      requires Valid()
      modifies this, state
      ensures Valid() && index < STATE_SIZE && drawn == old(drawn)
      ensures first == if old(Seeded()) then old(first) else seedWord
    {
      if index >= STATE_SIZE {
        if index > STATE_SIZE {
          Seed(seedWord);
        }
        Twist();
      }
    }

    // The first word left is the term that is due.
    lemma WordIsDue()
      requires Valid() && index < STATE_SIZE
      ensures temper(state[index]) == Output(drawn)
    {
      assert state[..][index] == terms(STATE_SIZE * rounds + index);
      FollowingIsUnique(terms, first, step, next, STATE_SIZE + drawn);
    }

    /** Takes the next word, whatever has been drawn before. */
    method NextWord(seedWord: W) returns (y: W)
      requires Valid()
      modifies this, state
      ensures Valid() && Seeded() && drawn == old(drawn) + 1
      ensures first == if old(Seeded()) then old(first) else seedWord
      ensures y == Output(old(drawn))
    {
      Refill(seedWord);
      WordIsDue();
      y := temper(state[index]);
      index := index + 1;
      drawn := drawn + 1;
    }
  }

  // ---------------------------------------------------------------- the generator

  // The wall clock read on first use; the fields are C chars, and the arithmetic is unsigned 32-bit.
  datatype Clock = Clock(hour: int, min: int, sec: int)

  function Wrap32(n: int): nat { n % 0x1_0000_0000 }

  function ClockSeed(t: Clock): Word {
    var s0 := Wrap32(t.hour * 3600 + t.min * 60 + t.sec);
    var s1 := Wrap32(s0 * 1103515245 + Wrap32(12345 * t.sec));
    var s2 := Wrap32(s1 + t.min);
    ((Wrap32(s2 * 7) / 65536) % 32768) as Word
  }

  class Generator {
    const engine: Engine<Word>

    ghost predicate Valid()
      reads this, engine, engine.state
    {
      engine.Valid() && engine.step == Step && engine.next == Next && engine.temper == Temper
    }

    constructor ()
      ensures Valid() && !engine.Seeded() && engine.drawn == 0 && fresh(engine) && fresh(engine.state)
    {
      engine := new Engine<Word>(Step, Next, Temper, 0);
    }

    /** Whatever has been drawn before, output i is the tempered term x(312 + i) of the seed. */
    lemma OutputIsTemperedTerm(i: nat)
      requires Valid()
      ensures engine.Output(i) == Temper(X(engine.first, STATE_SIZE + i))
    {
    }

    /** Returns the next output of the recurrence, started from the clock's seed on first use. */
    method Random(clock: Clock) returns (y: Word)
      requires Valid()
      modifies engine, engine.state
      ensures Valid() && engine.Seeded() && engine.drawn == old(engine.drawn) + 1
      ensures engine.first == if old(engine.Seeded()) then old(engine.first) else ClockSeed(clock)
      ensures y == engine.Output(old(engine.drawn))
    {
      var s := ClockSeed(clock);
      y := engine.NextWord(s);
    }

    /** The next output modulo the number of values between the two bounds, counted from the lower one,
        whichever way round they are given. */
    method RandInt(izq: int, der: int, clock: Clock) returns (r: int)
      requires Valid()
      requires -0x7fff_fffe <= izq - der <= 0x7fff_fffe
      modifies engine, engine.state
      ensures Valid() && engine.drawn == old(engine.drawn) + 1
      ensures var lo, hi := if izq <= der then izq else der, if izq <= der then der else izq;
        lo <= r <= hi && r - lo == engine.Output(old(engine.drawn)) as int % (hi - lo + 1)
      ensures engine.first == if old(engine.Seeded()) then old(engine.first) else ClockSeed(clock)
    {
      var lo, hi := izq, der;
      if lo > hi {
        lo, hi := hi, lo;
      }
      var diff := hi - lo + 1;
      var y := Random(clock);
      r := (y as int) % diff + lo;
    }
  }
}
