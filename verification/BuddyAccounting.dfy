/** What the buddy allocator reports about its memory. */
module BuddyAccounting {
  import opened BuddyTiling
  import opened BuddyHeap
  import opened BuddyProofs

  /** The bytes of the blocks in s that start below n. */
  ghost function Bytes(b: Blocks, s: set<nat>, n: nat): nat {
    if n == 0 then 0 else Bytes(b, s, n - 1) + (if n - 1 in s && n - 1 in b then Pow2(b[n - 1]) else 0)
  }

  // In a tiling the blocks that start at or before a byte end where the block of that byte ends.
  lemma {:induction false} BytesReachBlockEnd(b: Blocks, x: nat, c: nat)
    requires Tiling(b) && x < RegionEnd() && c in b && c <= x < EndOf(b, c)
    ensures Bytes(b, b.Keys, x + 1) == EndOf(b, c)
  {
    if x == 0 {
      assert Bytes(b, b.Keys, 1) == Bytes(b, b.Keys, 0) + Pow2(b[0]);
    } else {
      var d := Covered(b, x - 1);
      BytesReachBlockEnd(b, x - 1, d);
      assert BlockOk(b, d) && Disjoint(b, c, d) && Disjoint(b, d, c);
      if x in b {
        assert Disjoint(b, x, c) && Disjoint(b, c, x) && Disjoint(b, d, x);
      }
    }
  }

  lemma TilingBytes(b: Blocks, n: nat)
    requires Tiling(b) && n == RegionEnd()
    ensures Bytes(b, b.Keys, n) == n
  {
    var c := Covered(b, n - 1);
    BytesReachBlockEnd(b, n - 1, c);
    EndInRegion(b, c);
  }

  lemma {:induction false} BytesSplit(b: Blocks, s: set<nat>, t: set<nat>, n: nat)
    requires s !! t
    ensures Bytes(b, s + t, n) == Bytes(b, s, n) + Bytes(b, t, n)
  {
    if n > 0 {
      BytesSplit(b, s, t, n - 1);
    }
  }

  lemma {:induction false} BytesNone(b: Blocks, n: nat)
    ensures Bytes(b, {}, n) == 0
  {
    if n > 0 {
      BytesNone(b, n - 1);
    }
  }

  lemma {:induction false} BytesOne(b: Blocks, a: nat, n: nat)
    requires a in b
    ensures Bytes(b, {a}, n) == if a < n then Pow2(b[a]) else 0
  {
    if n > 0 {
      BytesOne(b, a, n - 1);
    }
  }

  function Elements(l: seq<nat>): set<nat> { set x | x in l }

  /** A list of order k accounts for one block size per element. */
  lemma {:induction false} BytesOfList(b: Blocks, l: seq<nat>, k: nat, n: nat)
    requires Distinct(l)
    requires forall i :: 0 <= i < |l| ==> l[i] in b && b[l[i]] == k && l[i] < n
    ensures Bytes(b, Elements(l), n) == |l| * Pow2(k)
  {
    if l == [] {
      BytesNone(b, n);
      assert Elements(l) == {};
    } else {
      BytesOfList(b, l[1..], k, n);
      BytesOne(b, l[0], n);
      assert Elements(l) == {l[0]} + Elements(l[1..]);
      BytesSplit(b, {l[0]}, Elements(l[1..]), n);
    }
  }

  /** Bytes on the lists lo to hi - 1, as memory_state_get adds them up. */
  function ListBytes(lists: seq<seq<nat>>, lo: nat, hi: nat): nat
    requires hi <= |lists|
    decreases hi
  {
    if hi <= lo then 0 else ListBytes(lists, lo, hi - 1) + |lists[hi - 1]| * Pow2(hi - 1)
  }

  // The blocks on lists lo to hi - 1.
  ghost function OnLists(h: Heap, lo: nat, hi: nat): set<nat> {
    set a | a in h.blocks && Listed(h, a) && lo <= h.blocks[a] < hi
  }

  lemma {:induction false} BytesOnLists(h: Heap, lo: nat, hi: nat, n: nat)
    requires HeapInv(h, {}) && hi <= LISTS && n == RegionEnd()
    ensures Bytes(h.blocks, OnLists(h, lo, hi), n) == ListBytes(h.lists, lo, hi)
    decreases hi
  {
    if hi <= lo {
      BytesNone(h.blocks, n);
      assert OnLists(h, lo, hi) == {};
    } else {
      BytesOnLists(h, lo, hi - 1, n);
      var l := h.lists[hi - 1];
      assert ListOk(h, hi - 1);
      forall i | 0 <= i < |l|
        ensures l[i] in h.blocks && h.blocks[l[i]] == hi - 1 && l[i] < n
      {
        assert BlockOk(h.blocks, l[i]);
      }
      BytesOfList(h.blocks, l, hi - 1, n);
      assert OnLists(h, lo, hi) == OnLists(h, lo, hi - 1) + Elements(l);
      BytesSplit(h.blocks, OnLists(h, lo, hi - 1), Elements(l), n);
    }
  }

  /** memory_state_get, which adds up every list but the last, reports as free exactly the bytes that are
      not in allocated blocks, except that it reports nothing free when the heap is one free block. */
  lemma ReportedFree(h: Heap)
    requires HeapInv(h, {})
    ensures var n := RegionEnd(); var reported := ListBytes(h.lists, MIN_LEVEL, TOP);
      && (h.lists[TOP] == [] ==> reported + Bytes(h.blocks, Allocated(h), n) == n)
      && (h.lists[TOP] != [] ==> reported == 0 && h.blocks == map[0 := TOP] && Allocated(h) == {})
  {
    var n := RegionEnd();
    TilingBytes(h.blocks, n);
    BytesOnLists(h, MIN_LEVEL, TOP, n);
    if h.lists[TOP] == [] {
      forall a | a in h.blocks && Listed(h, a)
        ensures a in OnLists(h, MIN_LEVEL, TOP)
      {
        assert BlockOk(h.blocks, a);
      }
      assert h.blocks.Keys == OnLists(h, MIN_LEVEL, TOP) + Allocated(h);
      BytesSplit(h.blocks, OnLists(h, MIN_LEVEL, TOP), Allocated(h), n);
    } else {
      OneFreeBlock(h);
      BytesNone(h.blocks, n);
      assert OnLists(h, MIN_LEVEL, TOP) == {};
    }
  }

  lemma OneFreeBlock(h: Heap)
    requires HeapInv(h, {}) && h.lists[TOP] != []
    ensures h.blocks == map[0 := TOP] && Allocated(h) == {}
  {
    var a := h.lists[TOP][0];
    assert ListOk(h, TOP);
    assert BlockOk(h.blocks, a);
    assert Listed(h, a);
    AlignedZero(TOP);
    if a > 0 {
      AlignedApart(0, a, TOP);
    }
    forall x | x in h.blocks
      ensures x == 0
    {
      assert Disjoint(h.blocks, 0, x) && BlockOk(h.blocks, x);
    }
  }
}
