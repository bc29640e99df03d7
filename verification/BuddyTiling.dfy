/** Power-of-two arithmetic and tilings of the managed region by buddy blocks
    (Kernel/memory-manager/buddymm.c). Addresses are offsets from MEMORY_START. */
module BuddyTiling {

  const MIN_LEVEL: nat := 5
  const TOP: nat := 21       // max_order: the managed region is 2^21 bytes
  const LISTS: nat := 25     // MAX_ORDER, the number of free lists

  // ---------------------------------------------------------------- powers of two

  function Pow2(k: nat): (r: nat)
    ensures r > 0
  {
    if k == 0 then 1 else 2 * Pow2(k - 1)
  }

  function RegionEnd(): nat { Pow2(TOP) }

  // a is a multiple of 2^k
  predicate Aligned(a: nat, k: nat) {
    k == 0 || (a % 2 == 0 && Aligned(a / 2, k - 1))
  }

  lemma {:induction false} AlignedIsMultiple(a: nat, k: nat)
    ensures Aligned(a, k) <==> a % Pow2(k) == 0
  {
    if k > 0 {
      AlignedIsMultiple(a / 2, k - 1);
      HalfRemainder(a, Pow2(k - 1));
    }
  }

  lemma HalfRemainder(a: nat, p: nat)
    requires p > 0
    ensures a % (2 * p) == 2 * ((a / 2) % p) + a % 2
  {
    var q, r := (a / 2) / p, (a / 2) % p;
    assert a / 2 == p * q + r;
    assert 2 * (p * q) == (2 * p) * q;
    RemainderUnique(a, 2 * p, q, 2 * r + a % 2);
  }

  lemma RemainderUnique(a: nat, d: nat, q: nat, r: nat)
    requires d > 0 && a == d * q + r && r < d
    ensures a % d == r
  {
    var q', r' := a / d, a % d;
    assert a == d * q' + r';
    assert d * (q - q') == r' - r;
    NonzeroMultiple(d, q - q');
  }

  lemma NonzeroMultiple(d: nat, x: int)
    ensures x == 0 || d * x >= d || d * x <= -(d as int)
  {
    if x >= 1 {
      assert d * x == d + d * (x - 1);
    } else if x <= -1 {
      assert d * x == -(d as int) - d * (-x - 1);
    }
  }

  lemma {:induction false} PowMonotone(j: nat, k: nat)
    requires j <= k
    ensures Pow2(j) <= Pow2(k) && (j < k ==> 2 * Pow2(j) <= Pow2(k))
    decreases k
  {
    if j < k {
      PowMonotone(j, k - 1);
    }
  }

  lemma {:induction false} AlignedWeaken(a: nat, j: nat, k: nat)
    requires j <= k && Aligned(a, k)
    ensures Aligned(a, j)
  {
    if j > 0 {
      AlignedWeaken(a / 2, j - 1, k - 1);
    }
  }

  // Two multiples of 2^k are at least 2^k apart.
  lemma {:induction false} AlignedApart(a: nat, c: nat, k: nat)
    requires Aligned(a, k) && Aligned(c, k) && a < c
    ensures a + Pow2(k) <= c
  {
    if k > 0 {
      AlignedApart(a / 2, c / 2, k - 1);
    }
  }

  lemma {:induction false} AlignedZero(k: nat)
    ensures Aligned(0, k)
  {
    if k > 0 {
      AlignedZero(k - 1);
    }
  }

  lemma {:induction false} AlignedPow(j: nat, k: nat)
    requires k <= j
    ensures Aligned(Pow2(j), k)
  {
    if k > 0 {
      AlignedPow(j - 1, k - 1);
    }
  }

  lemma {:induction false} AlignedAdd(a: nat, c: nat, k: nat)
    requires Aligned(a, k) && Aligned(c, k)
    ensures Aligned(a + c, k) && (a <= c ==> Aligned(c - a, k))
  {
    if k > 0 {
      AlignedAdd(a / 2, c / 2, k - 1);
      assert (a + c) / 2 == a / 2 + c / 2;
      assert a <= c ==> (c - a) / 2 == c / 2 - a / 2;
    }
  }

  // Stepping by 2^k flips whether a multiple of 2^k is a multiple of 2^(k+1).
  lemma {:induction false} AlignedFlip(a: nat, k: nat)
    requires Aligned(a, k)
    ensures Aligned(a + Pow2(k), k)
    ensures Aligned(a + Pow2(k), k + 1) <==> !Aligned(a, k + 1)
    ensures !Aligned(a, k + 1) ==> a >= Pow2(k) && Aligned(a - Pow2(k), k + 1)
  {
    if k > 0 {
      AlignedFlip(a / 2, k - 1);
      assert (a + Pow2(k)) / 2 == a / 2 + Pow2(k - 1);
      assert a >= Pow2(k) ==> (a - Pow2(k)) / 2 == a / 2 - Pow2(k - 1);
    }
  }

  // ---------------------------------------------------------------- buddies

  // Bitwise exclusive or.
  function Xor(a: nat, b: nat): nat
    decreases a + b
  {
    if a == 0 then b
    else if b == 0 then a
    else 2 * Xor(a / 2, b / 2) + (if a % 2 == b % 2 then 0 else 1)
  }

  // The other half of the enclosing block of order k + 1.
  function Buddy(a: nat, k: nat): nat {
    if Aligned(a, k + 1) then a + Pow2(k) else if a >= Pow2(k) then a - Pow2(k) else 0
  }

  /** The exclusive or of the C code computes the buddy of every multiple of the block size. */
  lemma {:induction false} BuddyIsXor(a: nat, k: nat)
    requires Aligned(a, k)
    ensures Buddy(a, k) == Xor(a, Pow2(k))
    ensures !Aligned(a, k + 1) ==> a >= Pow2(k)
  {
    if a == 0 {
      AlignedZero(k + 1);
    } else if k == 0 {
      assert Pow2(0) == 1 && Xor(a / 2, 0) == a / 2;
      assert Xor(a, 1) == 2 * Xor(a / 2, 1 / 2) + (if a % 2 == 1 % 2 then 0 else 1);
      assert Aligned(a, 1) <==> a % 2 == 0;
    } else {
      BuddyIsXor(a / 2, k - 1);
      assert Pow2(k) / 2 == Pow2(k - 1) && Pow2(k) % 2 == 0;
    }
  }

  lemma BuddySymmetric(a: nat, k: nat)
    requires Aligned(a, k)
    ensures Aligned(Buddy(a, k), k) && Buddy(Buddy(a, k), k) == a && Buddy(a, k) != a
    ensures Aligned(Buddy(a, k), k + 1) <==> !Aligned(a, k + 1)
  {
    AlignedFlip(a, k);
    if !Aligned(a, k + 1) {
      AlignedWeaken(a - Pow2(k), k, k + 1);
    }
  }

  // ---------------------------------------------------------------- tilings

  // Live blocks: address to order.
  type Blocks = map<nat, nat>

  function EndOf(b: Blocks, a: nat): nat
    requires a in b
  {
    a + Pow2(b[a])
  }

  ghost predicate BlockOk(b: Blocks, a: nat)
    requires a in b
  {
    && MIN_LEVEL <= b[a] <= TOP
    && a < RegionEnd()
    && Aligned(a, b[a])
    && (EndOf(b, a) == RegionEnd() || EndOf(b, a) in b)
  }

  ghost predicate Disjoint(b: Blocks, a: nat, c: nat)
    requires a in b && c in b
  {
    a < c ==> EndOf(b, a) <= c
  }

  /** The blocks tile the region exactly: they start at 0, each is followed by the next one or by
      the end of the region, none overlap, and a block of order k sits at a multiple of 2^k. */
  ghost predicate Tiling(b: Blocks) {
    && 0 in b
    && (forall a {:trigger BlockOk(b, a)} :: a in b ==> BlockOk(b, a))
    && (forall a, c {:trigger Disjoint(b, a, c)} :: a in b && c in b ==> Disjoint(b, a, c))
  }

  // Every byte of the region lies in some block.
  lemma {:induction false} Covered(b: Blocks, x: nat) returns (c: nat)
    requires Tiling(b) && x < RegionEnd()
    ensures c in b && c <= x < EndOf(b, c)
  {
    if x == 0 {
      c := 0;
    } else {
      c := Covered(b, x - 1);
      if x == EndOf(b, c) {
        assert BlockOk(b, c);
        c := x;
      }
    }
  }

  lemma EndInRegion(b: Blocks, a: nat)
    requires Tiling(b) && a in b
    ensures EndOf(b, a) <= RegionEnd()
  {
    assert BlockOk(b, a);
    if EndOf(b, a) in b {
      assert BlockOk(b, EndOf(b, a));
    }
  }

  // A block that starts before the left half of a pair and reaches into it covers the right half too.
  lemma Straddles(c: nat, j: nat, p: nat, k: nat)
    requires Aligned(c, j) && Aligned(p, k + 1) && c < p < c + Pow2(j)
    ensures c + Pow2(j) > p + Pow2(k)
  {
    if j <= k {
      AlignedWeaken(p, j, k + 1);
      AlignedApart(c, p, j);
    } else {
      AlignedWeaken(c, k + 1, j);
      AlignedPow(j, k + 1);
      AlignedAdd(c, Pow2(j), k + 1);
      AlignedApart(p, c + Pow2(j), k + 1);
    }
  }

  lemma RightBuddyIsLive(b: Blocks, a: nat)
    requires Tiling(b) && a in b && b[a] < TOP && Aligned(a, b[a] + 1)
    ensures a + Pow2(b[a]) in b && b[a + Pow2(b[a])] <= b[a]
  {
    var k := b[a];
    var p := a + Pow2(k);
    assert BlockOk(b, a);
    AlignedPow(TOP, k + 1);
    AlignedApart(a, RegionEnd(), k + 1);
    assert p in b;
    assert BlockOk(b, p);
    if b[p] > k {
      AlignedWeaken(p, k + 1, b[p]);
      AlignedFlip(a, k);
    }
  }

  lemma LeftBuddyIsLive(b: Blocks, a: nat)
    requires Tiling(b) && a in b && b[a] < TOP && !Aligned(a, b[a] + 1)
    ensures a >= Pow2(b[a]) && a - Pow2(b[a]) in b && b[a - Pow2(b[a])] <= b[a]
  {
    var k := b[a];
    assert BlockOk(b, a);
    AlignedFlip(a, k);
    var p := a - Pow2(k);
    var c := Covered(b, p);
    assert BlockOk(b, c) && Disjoint(b, c, a);
    if c < p {
      Straddles(c, b[c], p, k);
    }
    if b[c] > k {
      PowMonotone(k + 1, b[c]);
    }
  }

  /** The buddy of a block that is not the whole region is itself the start of a block,
      and that block is not larger. */
  lemma BuddyIsLive(b: Blocks, a: nat)
    requires Tiling(b) && a in b && b[a] < TOP
    ensures Buddy(a, b[a]) in b && b[Buddy(a, b[a])] <= b[a]
  {
    if Aligned(a, b[a] + 1) {
      RightBuddyIsLive(b, a);
    } else {
      LeftBuddyIsLive(b, a);
    }
  }

  // ---------------------------------------------------------------- splitting and merging

  function SplitBlocks(b: Blocks, a: nat): Blocks
    requires a in b && b[a] > 0
  {
    b[a + Pow2(b[a] - 1) := b[a] - 1][a := b[a] - 1]
  }

  lemma SplitKeepsTiling(b: Blocks, a: nat)
    requires Tiling(b) && a in b && b[a] > MIN_LEVEL
    ensures Tiling(SplitBlocks(b, a))
    ensures a + Pow2(b[a] - 1) !in b && Buddy(a, b[a] - 1) == a + Pow2(b[a] - 1)
    ensures Buddy(a + Pow2(b[a] - 1), b[a] - 1) == a
  {
    var k := b[a];
    var m := a + Pow2(k - 1);
    var s := SplitBlocks(b, a);
    assert BlockOk(b, a);
    AlignedWeaken(a, k - 1, k);
    AlignedFlip(a, k - 1);
    assert m in b ==> Disjoint(b, a, m);
    EndInRegion(b, a);
    assert EndOf(s, m) == EndOf(b, a) && EndOf(s, a) == m;
    forall x | x in s
      ensures BlockOk(s, x)
    {
      if x != a && x != m {
        assert BlockOk(b, x);
        assert EndOf(s, x) == EndOf(b, x);
      }
    }
    forall x, y | x in s && y in s
      ensures Disjoint(s, x, y)
    {
      SplitDisjoint(b, a, x, y);
    }
  }

  lemma SplitDisjoint(b: Blocks, a: nat, x: nat, y: nat)
    requires Tiling(b) && a in b && b[a] > MIN_LEVEL
    requires x in SplitBlocks(b, a) && y in SplitBlocks(b, a)
    ensures Disjoint(SplitBlocks(b, a), x, y)
  {
    var m := a + Pow2(b[a] - 1);
    var x0 := if x == m then a else x;
    var y0 := if y == m then a else y;
    assert EndOf(b, a) == m + Pow2(b[a] - 1);
    assert Disjoint(b, x0, y0);
    assert Disjoint(b, y0, x0);
  }

  function MergeBlocks(b: Blocks, a: nat, p: nat): Blocks
    requires a in b
  {
    (b - {a, p})[if a < p then a else p := b[a] + 1]
  }

  // Merging two adjacent blocks into one.
  lemma JoinKeepsTiling(b: Blocks, left: nat, right: nat)
    requires Tiling(b) && left in b && right in b && right == EndOf(b, left)
    requires b[right] == b[left] < TOP && Aligned(left, b[left] + 1)
    ensures Tiling((b - {left, right})[left := b[left] + 1])
  {
    var s := (b - {left, right})[left := b[left] + 1];
    assert BlockOk(b, left) && BlockOk(b, right);
    assert EndOf(s, left) == EndOf(b, right);
    forall x | x in s
      ensures BlockOk(s, x)
    {
      if x != left {
        assert BlockOk(b, x) && EndOf(s, x) == EndOf(b, x);
        assert Disjoint(b, x, left) && Disjoint(b, left, x);
      }
    }
    forall x, y | x in s && y in s
      ensures Disjoint(s, x, y)
    {
      var x0 := if x == left then right else x;
      assert Disjoint(b, x0, y) && Disjoint(b, x, y) && Disjoint(b, left, y);
    }
  }

  lemma MergeKeepsTiling(b: Blocks, a: nat)
    requires Tiling(b) && a in b && b[a] < TOP
    requires Buddy(a, b[a]) in b && b[Buddy(a, b[a])] == b[a]
    ensures Tiling(MergeBlocks(b, a, Buddy(a, b[a])))
  {
    var k := b[a];
    var p := Buddy(a, k);
    assert BlockOk(b, a);
    BuddySymmetric(a, k);
    AlignedFlip(a, k);
    if Aligned(a, k + 1) {
      JoinKeepsTiling(b, a, p);
    } else {
      JoinKeepsTiling(b, p, a);
      assert b - {a, p} == b - {p, a};
    }
  }
}
