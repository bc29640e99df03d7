/** Kernel/memory-manager/buddymm.c on its own data: headers at byte offsets of the managed region,
    linked through their next fields, and an array of list heads. Every operation is proved equal to
    the corresponding function of BuddyHeap. */
module BuddyManager {
  import opened BuddyTiling
  import opened BuddyHeap
  import opened BuddyProofs
  import opened BuddyAccounting

  const FREE: int := 1
  const OCCUPIED: int := 0
  const NULL: int := -1  // pointers are offsets from MEMORY_START

  datatype Header = Header(order: nat, status: int, next: int)

  // ---------------------------------------------------------------- the linked representation

  // What points to element i of a list, or to the end of the list.
  function Link(l: seq<nat>, i: nat): int { if i < |l| then l[i] else NULL }

  // The header of a live block.
  ghost predicate HeaderOk(h: Heap, hdr: seq<Header>, a: nat) {
    a in h.blocks ==>
      && a < |hdr|
      && h.blocks[a] < LISTS
      && hdr[a].order == h.blocks[a]
      && (hdr[a].status == FREE <==> a in h.free)
  }

  ghost predicate NodeOk(l: seq<nat>, hdr: seq<Header>, i: nat)
    requires i < |l|
  {
    l[i] < |hdr| && hdr[l[i]].next == Link(l, i + 1)
  }

  ghost predicate Linked(l: seq<nat>, hdr: seq<Header>, head: int) {
    && head == Link(l, 0)
    && forall i {:trigger NodeOk(l, hdr, i)} :: 0 <= i < |l| ==> NodeOk(l, hdr, i)
  }

  ghost predicate ListLinked(h: Heap, hdr: seq<Header>, heads: seq<int>, k: nat)
    requires k < |h.lists| && k < |heads|
  {
    ListOk(h, k) && Linked(h.lists[k], hdr, heads[k])
  }

  /** The header memory and the heads hold the abstract heap; bytes inside blocks are unconstrained. */
  ghost predicate Represents(h: Heap, hdr: seq<Header>, heads: seq<int>) {
    && |hdr| == RegionEnd() && |heads| == LISTS && |h.lists| == LISTS
    && (forall k {:trigger ListLinked(h, hdr, heads, k)} :: 0 <= k < LISTS ==> ListLinked(h, hdr, heads, k))
    && (forall a {:trigger HeaderOk(h, hdr, a)} :: HeaderOk(h, hdr, a))
  }

  // A list none of whose nodes is overwritten stays linked.
  lemma LinkedFrame(l: seq<nat>, hdr: seq<Header>, head: int, a: nat, x: Header)
    requires Linked(l, hdr, head) && a < |hdr| && (a in l ==> x.next == hdr[a].next)
    ensures Linked(l, hdr[a := x], head)
  {
    var hdr' := hdr[a := x];
    forall i | 0 <= i < |l|
      ensures NodeOk(l, hdr', i)
    {
      assert NodeOk(l, hdr, i);
    }
  }

  lemma LinkedPush(l: seq<nat>, hdr: seq<Header>, head: int, a: nat, x: Header)
    requires Linked(l, hdr, head) && a < |hdr| && a !in l && x.next == head
    ensures Linked([a] + l, hdr[a := x], a)
  {
    var m, hdr' := [a] + l, hdr[a := x];
    forall i | 0 <= i < |m|
      ensures NodeOk(m, hdr', i)
    {
      if i > 0 {
        assert NodeOk(l, hdr, i - 1);
      }
    }
  }

  // Element i leaves the list: the link to it is redirected to its successor.
  lemma LinkedDrop(l: seq<nat>, hdr: seq<Header>, head: int, i: nat)
    requires Linked(l, hdr, head) && i < |l| && Distinct(l)
    ensures i == 0 ==> NodeOk(l, hdr, 0) && Linked(Dropped(l, 0), hdr, hdr[l[0]].next)
    ensures i > 0 ==> forall x: Header :: l[i - 1] < |hdr| && (x.next == Link(l, i + 1) ==> Linked(Dropped(l, i), hdr[l[i - 1] := x], head))
  {
    var m := Dropped(l, i);
    if i == 0 {
      assert NodeOk(l, hdr, 0);
      forall j | 0 <= j < |m|
        ensures NodeOk(m, hdr, j)
      {
        assert NodeOk(l, hdr, j + 1);
      }
    } else {
      assert NodeOk(l, hdr, i - 1);
      forall x: Header | x.next == Link(l, i + 1)
        ensures Linked(m, hdr[l[i - 1] := x], head)
      {
        var hdr' := hdr[l[i - 1] := x];
        forall j | 0 <= j < |m|
          ensures NodeOk(m, hdr', j)
        {
          assert NodeOk(l, hdr, if j < i then j else j + 1);
        }
      }
    }
  }

  lemma CreateRepresented(h: Heap, hdr: seq<Header>, heads: seq<int>, a: nat, k: nat)
    requires Represents(h, hdr, heads) && a < RegionEnd() && k < LISTS && !Listed(h, a)
    ensures Represents(Create(h, a, k), hdr[a := Header(k, FREE, heads[k])], heads[k := a])
  {
    var g := Create(h, a, k);
    var x := Header(k, FREE, heads[k]);
    var hdr', heads' := hdr[a := x], heads[k := a];
    forall j | 0 <= j < LISTS
      ensures ListLinked(g, hdr', heads', j)
    {
      assert ListLinked(h, hdr, heads, j);
      if j == k {
        LinkedPush(h.lists[k], hdr, heads[k], a, x);
      } else {
        LinkedFrame(h.lists[j], hdr, heads[j], a, x);
      }
    }
    forall y
      ensures HeaderOk(g, hdr', y)
    {
      assert HeaderOk(h, hdr, y);
    }
  }

  // The block at the head of its list is unlinked.
  lemma RemoveHeadRepresented(h: Heap, hdr: seq<Header>, heads: seq<int>, a: nat, k: nat)
    requires Represents(h, hdr, heads) && k < LISTS && h.lists[k] != [] && h.lists[k][0] == a
    requires a in h.blocks && a < |hdr| && h.blocks[a] == k
    ensures Represents(Remove(h, a), hdr[a := hdr[a].(status := OCCUPIED)], heads[k := hdr[a].next])
  {
    var g := Remove(h, a);
    var x := hdr[a].(status := OCCUPIED);
    var hdr', heads' := hdr[a := x], heads[k := hdr[a].next];
    assert IndexOf(h.lists[k], a) == 0;
    forall j | 0 <= j < LISTS
      ensures ListLinked(g, hdr', heads', j)
    {
      assert ListLinked(h, hdr, heads, j);
      if j == k {
        LinkedDrop(h.lists[k], hdr, heads[k], 0);
        RemoveFromList(h.lists[k], 0);
        LinkedFrame(g.lists[k], hdr, hdr[a].next, a, x);
      } else {
        LinkedFrame(h.lists[j], hdr, heads[j], a, x);
      }
    }
    forall y
      ensures HeaderOk(g, hdr', y)
    {
      assert HeaderOk(h, hdr, y);
    }
  }

  // A block further down its list is unlinked; its predecessor is the one marked OCCUPIED.
  lemma RemoveInnerRepresented(h: Heap, hdr: seq<Header>, heads: seq<int>, k: nat, i: nat, x: Header)
    requires Represents(h, hdr, heads) && k < LISTS && 0 < i < |h.lists[k]|
    requires h.lists[k][i] in h.blocks && h.blocks[h.lists[k][i]] == k
    requires h.lists[k][i - 1] < |hdr| && x == Header(hdr[h.lists[k][i - 1]].order, OCCUPIED, Link(h.lists[k], i + 1))
    ensures Represents(Remove(h, h.lists[k][i]), hdr[h.lists[k][i - 1] := x], heads)
  {
    var a, p := h.lists[k][i], h.lists[k][i - 1];
    var g := Remove(h, a);
    var hdr' := hdr[p := x];
    assert ListLinked(h, hdr, heads, k);
    assert IndexOf(h.lists[k], a) == i;
    forall j | 0 <= j < LISTS
      ensures ListLinked(g, hdr', heads, j)
    {
      assert ListLinked(h, hdr, heads, j);
      if j == k {
        LinkedDrop(h.lists[k], hdr, heads[k], i);
        RemoveFromList(h.lists[k], i);
      } else {
        LinkedFrame(h.lists[j], hdr, heads[j], p, x);
      }
    }
    forall y
      ensures HeaderOk(g, hdr', y)
    {
      assert HeaderOk(h, hdr, y);
    }
  }

  // Merging: the buddy is off its list and the left half becomes the header of the pair.
  lemma MergeRepresented(h: Heap, hdr: seq<Header>, heads: seq<int>, a: nat, p: nat, x: Header)
    requires Represents(h, hdr, heads) && a in h.blocks && p in h.blocks && a != p
    requires !Listed(h, a) && !Listed(h, p) && h.blocks[a] + 1 < LISTS
    requires Left(a, p) < |hdr| && x.order == h.blocks[a] + 1 && x.status == FREE
    ensures Represents(Heap(MergeBlocks(h.blocks, a, p), (h.free - {a, p}) + {Left(a, p)}, h.lists), hdr[Left(a, p) := x], heads)
  {
    var left := Left(a, p);
    var g := Heap(MergeBlocks(h.blocks, a, p), (h.free - {a, p}) + {left}, h.lists);
    var hdr' := hdr[left := x];
    forall j | 0 <= j < LISTS
      ensures ListLinked(g, hdr', heads, j)
    {
      assert ListLinked(h, hdr, heads, j);
      forall i | 0 <= i < |h.lists[j]|
        ensures h.lists[j][i] != a && h.lists[j][i] != p
      {
        assert Listed(h, h.lists[j][i]);
      }
      LinkedFrame(h.lists[j], hdr, heads[j], left, x);
    }
    forall y
      ensures HeaderOk(g, hdr', y)
    {
      assert HeaderOk(h, hdr, y);
    }
  }

  lemma MarkRepresented(h: Heap, hdr: seq<Header>, heads: seq<int>, a: nat, status: int)
    requires Represents(h, hdr, heads) && a in h.blocks && a < |hdr| && (status == FREE || status == OCCUPIED)
    ensures Represents(if status == FREE then MarkFree(h, a) else h.(free := h.free - {a}),
                       hdr[a := hdr[a].(status := status)], heads)
  {
    var x := hdr[a].(status := status);
    var g := if status == FREE then MarkFree(h, a) else h.(free := h.free - {a});
    var hdr' := hdr[a := x];
    forall j | 0 <= j < LISTS
      ensures ListLinked(g, hdr', heads, j)
    {
      assert ListLinked(h, hdr, heads, j);
      LinkedFrame(h.lists[j], hdr, heads[j], a, x);
    }
    forall y
      ensures HeaderOk(g, hdr', y)
    {
      assert HeaderOk(h, hdr, y);
    }
  }

  /** A client may write anything into memory that holds no live header. */
  lemma PayloadUnconstrained(h: Heap, hdr: seq<Header>, heads: seq<int>, a: nat, x: Header)
    requires Represents(h, hdr, heads) && a < |hdr| && a !in h.blocks
    ensures Represents(h, hdr[a := x], heads)
  {
    var hdr' := hdr[a := x];
    forall j | 0 <= j < LISTS
      ensures ListLinked(h, hdr', heads, j)
    {
      assert ListLinked(h, hdr, heads, j);
      LinkedFrame(h.lists[j], hdr, heads[j], a, x);
    }
    forall y
      ensures HeaderOk(h, hdr', y)
    {
      assert HeaderOk(h, hdr, y);
    }
  }

  // ---------------------------------------------------------------- the allocator

  // Splitting the head of a list: off its list, then both halves on the next one.
  function SplitHead(h: Heap, a: nat): Heap
    requires Shaped(h) && a in h.blocks && h.blocks[a] > 0
  {
    var k := h.blocks[a] - 1;
    Create(Create(Remove(h, a), a + Pow2(k), k), a, k)
  }

  /** Listing the left half only to take it off again at the next split is the same as keeping it in hand. */
  lemma SplitIsHalve(h: Heap, a: nat)
    requires Shaped(h) && a in h.blocks && h.blocks[a] > 0
    requires h.lists[h.blocks[a]] != [] && h.lists[h.blocks[a]][0] == a
    requires a !in Remove(h, a).free && a + Pow2(h.blocks[a] - 1) !in h.blocks
    ensures var g := SplitHead(h, a);
      && Shaped(g) && a in g.blocks && g.blocks[a] == h.blocks[a] - 1
      && g.lists[g.blocks[a]] != [] && g.lists[g.blocks[a]][0] == a
      && Remove(g, a) == Halve(Remove(h, a), a)
  {
    var k := h.blocks[a] - 1;
    var m := a + Pow2(k);
    var r := Remove(h, a);
    var g := SplitHead(h, a);
    assert g.lists[k] == [a] + ([m] + r.lists[k]);
    assert IndexOf(g.lists[k], a) == 0;
    assert Dropped(g.lists[k], 0) == [m] + r.lists[k];
    assert g.free - {a} == r.free + {m};
  }

  function NoLists(): seq<seq<nat>> { seq(LISTS, _ => []) }

  lemma RegionSize()
    ensures Pow2(TOP) == 0x200000
  {
    assert Pow2(10) == 1024 && Pow2(21) == 2048 * Pow2(10);
  }

  lemma FirstBlock()
    ensures Create(Heap(map[], {}, NoLists()), 0, TOP) == Init()
  {
    var g := Create(Heap(map[], {}, NoLists()), 0, TOP);
    assert g.lists[TOP] == [0] + NoLists()[TOP] == [0];
    assert |g.lists| == |Init().lists|;
    forall k | 0 <= k < LISTS
      ensures g.lists[k] == Init().lists[k]
    {
    }
  }

  lemma EmptyRepresented(h: Heap, hdr: seq<Header>, heads: seq<int>)
    requires h == Heap(map[], {}, NoLists())
    requires |hdr| == RegionEnd() && |heads| == LISTS && forall k :: 0 <= k < LISTS ==> heads[k] == NULL
    ensures Represents(h, hdr, heads)
  {
    forall k | 0 <= k < LISTS
      ensures ListLinked(h, hdr, heads, k)
    {
    }
  }

  lemma CarveStep(h: Heap, a: nat, k: nat)
    requires Shaped(h) && a in h.blocks && 0 < k <= h.blocks[a]
    ensures Carve(h, a, k - 1) == Halve(Carve(h, a, k), a)
    decreases h.blocks[a]
  {
    if h.blocks[a] > k {
      CarveStep(Halve(h, a), a, k);
    } else {
      assert Carve(Halve(h, a), a, k - 1) == Halve(h, a);
    }
  }

  lemma NoListAboveTop(h: Heap)
    requires HeapInv(h, {})
    ensures forall k :: TOP < k < LISTS ==> h.lists[k] == []
  {
    forall k | TOP < k < LISTS
      ensures h.lists[k] == []
    {
      assert ListOk(h, k);
      assert h.lists[k] != [] ==> BlockOk(h.blocks, h.lists[k][0]);
    }
  }

  lemma {:induction false} FirstListIs(lists: seq<seq<nat>>, i: nat, j: nat)
    requires |lists| == LISTS && i <= j <= LISTS && (j < LISTS ==> lists[j] != [])
    requires forall k :: i <= k < j ==> lists[k] == []
    ensures FirstList(lists, i) == j
    decreases j - i
  {
    if i < j {
      FirstListIs(lists, i + 1, j);
    }
  }

  // The first power of two that holds the request, raised to the minimum order.
  lemma OrderIs(size: nat, order: nat)
    requires 1 <= order && size + HEADER_SIZE <= Pow2(order) && (order > 1 ==> Pow2(order - 1) < size + HEADER_SIZE)
    ensures OrderFor(size) == if MIN_LEVEL > order then MIN_LEVEL else order
  {
    var least := OrderFor(size);
    if order < least {
      PowMonotone(order, least - 1);
    } else if least < order {
      PowMonotone(least, order - 1);
    }
  }

  // c heads its list, and taking it off leaves r, in which c is not marked FREE.
  ghost predicate HeadInHand(h: Heap, r: Heap, c: nat, k: nat) {
    && Shaped(h) && c in h.blocks && h.blocks[c] == k && h.lists[k] != [] && h.lists[k][0] == c
    && Remove(h, c) == r && c !in r.free && r.blocks == h.blocks
  }

  lemma SplitFits(h: Heap, r: Heap, c: nat, k: nat)
    requires HeapInv(r, {c}) && MIN_LEVEL < k && HeadInHand(h, r, c, k)
    ensures c + Pow2(k - 1) < RegionEnd() && c + Pow2(k - 1) !in h.blocks
  {
    SplitKeepsTiling(h.blocks, c);
    EndInRegion(h.blocks, c);
  }

  lemma SplitInHand(h: Heap, r: Heap, c: nat, k: nat)
    requires Shaped(r) && 0 < k && HeadInHand(h, r, c, k) && c + Pow2(k - 1) !in h.blocks
    requires c !in Halve(r, c).free
    ensures HeadInHand(SplitHead(h, c), Halve(r, c), c, k - 1)
  {
    SplitIsHalve(h, c);
  }

  lemma SplitContinues(h: Heap, r0: Heap, c: nat, k: nat)
    requires Shaped(r0) && HeapInv(r0, {c}) && c in r0.blocks && !Listed(r0, c) && c !in r0.free
    requires MIN_LEVEL < k <= r0.blocks[c] && HeadInHand(h, Carve(r0, c, k), c, k)
    ensures c + Pow2(k - 1) < RegionEnd() && c + Pow2(k - 1) !in h.blocks
    ensures HeadInHand(SplitHead(h, c), Carve(r0, c, k - 1), c, k - 1)
  {
    CarveKeeps(r0, c, k);
    CarveStep(r0, c, k);
    SplitFits(h, Carve(r0, c, k), c, k);
    CarveKeeps(r0, c, k - 1);
    SplitInHand(h, Carve(r0, c, k), c, k);
  }

  class Manager {
    const hdr: array<Header>
    const freeBlocks: array<int>
    ghost var h: Heap

    ghost predicate Valid()
      reads this, hdr, freeBlocks
    {
      Represents(h, hdr[..], freeBlocks[..])
    }

    lemma LiveHeader(a: nat)
      requires Valid() && a in h.blocks
      ensures a < hdr.Length && hdr[a].order == h.blocks[a] < LISTS && (hdr[a].status == FREE <==> a in h.free)
    {
      assert HeaderOk(h, hdr[..], a);
    }

    /** memory_manager_init: one free block covers the region. */
    constructor ()
      ensures Valid() && h == Init() && HeapInv(h, {}) && fresh(hdr) && fresh(freeBlocks)
    {
      hdr := new Header[RegionEnd()](_ => Header(0, OCCUPIED, NULL));
      freeBlocks := new int[LISTS];
      h := Heap(map[], {}, NoLists());
      new;
      var currentSize, level := 2, 1;
      while currentSize < 0x200000
        invariant h == Heap(map[], {}, NoLists())
        invariant 1 <= level <= TOP && currentSize == Pow2(level)
        decreases TOP - level
      {
        RegionSize();
        level := level + 1;
        currentSize := currentSize * 2;
      }
      RegionSize();
      if level < TOP {
        PowMonotone(level, TOP - 1);
      }
      for i := 0 to LISTS
        invariant h == Heap(map[], {}, NoLists())
        invariant forall k :: 0 <= k < i ==> freeBlocks[k] == NULL
      {
        freeBlocks[i] := NULL;
      }
      EmptyRepresented(h, hdr[..], freeBlocks[..]);
      CreateBlock(0, level);
      FirstBlock();
      InitOk();
    }

    method CreateBlock(a: nat, k: nat)
      requires Valid() && a < RegionEnd() && k < LISTS && !Listed(h, a)
      modifies this, hdr, freeBlocks
      ensures Valid() && h == Create(old(h), a, k)
    {
      CreateRepresented(h, hdr[..], freeBlocks[..], a, k);
      hdr[a] := Header(k, FREE, freeBlocks[k]);
      freeBlocks[k] := a;
      h := Create(h, a, k);
      assert hdr[..] == old(hdr[..])[a := Header(k, FREE, old(freeBlocks[k]))];
      assert freeBlocks[..] == old(freeBlocks[..])[k := a];
    }

    method RemoveBlock(a: nat)
      requires Valid() && a in h.blocks
      modifies this, hdr, freeBlocks
      ensures Valid() && old(h.blocks[a]) < LISTS
      ensures h == Remove(old(h), a)
    {
      LiveHeader(a);
      var k := hdr[a].order;
      ghost var l := h.lists[k];
      assert ListLinked(h, hdr[..], freeBlocks[..], k);
      var curr := freeBlocks[k];
      if curr == NULL {
        return;
      }
      if curr == a {
        RemoveHeadRepresented(h, hdr[..], freeBlocks[..], a, k);
        hdr[curr] := hdr[curr].(status := OCCUPIED);
        freeBlocks[k] := hdr[curr].next;
        h := Remove(h, a);
        assert hdr[..] == old(hdr[..])[a := old(hdr[a]).(status := OCCUPIED)];
        assert freeBlocks[..] == old(freeBlocks[..])[k := old(hdr[a]).next];
        return;
      }
      ghost var i := 0;
      assert NodeOk(l, hdr[..], 0);
      while hdr[curr].next != NULL && hdr[curr].next != a
        invariant 0 <= i < |l| && curr == l[i] && curr < hdr.Length && a !in l[..i + 1]
        invariant NodeOk(l, hdr[..], i)
        decreases |l| - i
      {
        curr := hdr[curr].next;
        i := i + 1;
        assert NodeOk(l, hdr[..], i);
      }
      if hdr[curr].next == NULL {
        return;
      }
      assert l[i + 1] == a;
      assert NodeOk(l, hdr[..], i + 1);
      ghost var x := Header(hdr[curr].order, OCCUPIED, Link(l, i + 2));
      RemoveInnerRepresented(h, hdr[..], freeBlocks[..], k, i + 1, x);
      hdr[curr] := hdr[curr].(next := hdr[hdr[curr].next].next);
      hdr[curr] := hdr[curr].(status := OCCUPIED);
      h := Remove(h, a);
      assert hdr[..] == old(hdr[..])[curr := x];
    }

    method SplitBlock(k: nat)
      requires Valid() && 0 < k < LISTS && h.lists[k] != [] && h.lists[k][0] in h.blocks && h.blocks[h.lists[k][0]] == k
      requires h.lists[k][0] + Pow2(k - 1) < RegionEnd() && h.lists[k][0] + Pow2(k - 1) !in h.blocks && Shaped(h)
      modifies this, hdr, freeBlocks
      ensures Valid() && h == SplitHead(old(h), old(h.lists[k][0]))
    {
      assert ListLinked(h, hdr[..], freeBlocks[..], k);
      ghost var l := h.lists[k];
      var block := freeBlocks[k];
      assert NodeOk(l, hdr[..], 0);
      RemoveBlock(block);
      assert Dropped(l, 0) == l[1..];
      var buddy := block + Pow2(k - 1);
      assert !Listed(h, buddy);
      CreateBlock(buddy, k - 1);
      assert !Listed(h, block);
      CreateBlock(block, k - 1);
    }

    /** memory_alloc: NULL, or the address just past the header of the block taken. */
    method MemoryAlloc(size: nat) returns (p: int)
      requires Valid() && HeapInv(h, {})
      modifies this, hdr, freeBlocks
      ensures Valid() && HeapInv(h, {}) && h == Alloc(old(h), size).1
      ensures p == match Alloc(old(h), size).0 case None => NULL case Some(a) => a + HEADER_SIZE
    {
      if size <= 0 || size > RegionEnd() {
        return NULL;
      }
      AllocCorrect(h, size);
      InvShaped(h, {});
      var order := LeastOrder(size);
      ghost var j := FirstList(h.lists, order);
      assert ListLinked(h, hdr[..], freeBlocks[..], order);
      if freeBlocks[order] == NULL {
        var approx := FirstNonempty(order);
        if approx == 0 {
          return NULL;
        }
        SplitDown(approx, order);
      } else {
        TakeHead(h, order);
      }
      assert ListLinked(h, hdr[..], freeBlocks[..], order);
      var block := freeBlocks[order];
      RemoveBlock(block);
      ghost var g := h;
      LiveHeader(block);
      MarkRepresented(h, hdr[..], freeBlocks[..], block, OCCUPIED);
      hdr[block] := hdr[block].(status := OCCUPIED);
      assert g.free - {block} == g.free;
      return block + HEADER_SIZE;
    }

    // The doubling loop that sizes a request.
    method LeastOrder(size: nat) returns (order: nat)
      requires 0 < size <= RegionEnd()
      ensures order == OrderFor(size) && order < LISTS
    {
      order := 1;
      var blockSize := 2;
      while blockSize < size + HEADER_SIZE
        invariant 1 <= order <= TOP + 1 && blockSize == Pow2(order)
        invariant order == TOP + 1 ==> blockSize == 2 * Pow2(TOP)
        invariant order > 1 ==> Pow2(order - 1) < size + HEADER_SIZE
        decreases TOP + 1 - order
      {
        order := order + 1;
        blockSize := blockSize * 2;
      }
      OrderIs(size, order);
      order := if MIN_LEVEL > order then MIN_LEVEL else order;
    }

    // The first list above the given one that has a block, or 0.
    method FirstNonempty(order: nat) returns (approx: nat)
      requires Valid() && HeapInv(h, {}) && order < LISTS && h.lists[order] == []
      ensures approx == 0 <==> FirstList(h.lists, order) == LISTS
      ensures approx != 0 ==> approx == FirstList(h.lists, order) && order < approx
    {
      approx := 0;
      var i := order + 1;
      while i <= TOP && approx == 0
        invariant order < i
        invariant approx == 0 ==> forall k :: order <= k < i && k < LISTS ==> h.lists[k] == []
        invariant approx != 0 ==> order < approx < LISTS && h.lists[approx] != [] && forall k :: order <= k < approx ==> h.lists[k] == []
        decreases TOP + 1 - i
      {
        assert ListLinked(h, hdr[..], freeBlocks[..], i);
        if freeBlocks[i] != NULL {
          approx := i;
        }
        i := i + 1;
      }
      NoListAboveTop(h);
      FirstListIs(h.lists, order, if approx == 0 then LISTS else approx);
    }

    // Splits heads until the list of the given order has the block to hand out at its head.
    method SplitDown(approx: nat, order: nat)
      requires Valid() && HeapInv(h, {}) && MIN_LEVEL <= order <= approx < LISTS && h.lists[approx] != []
      modifies this, hdr, freeBlocks
      ensures var c := old(h.lists[approx][0]);
        && Valid() && old(c in h.blocks && h.blocks[c] == approx) && Shaped(Remove(old(h), c))
        && HeadInHand(h, Carve(Remove(old(h), c), c, order), c, order)
    {
      ghost var h0 := h;
      ghost var c := h.lists[approx][0];
      TakeHead(h, approx);
      InvShaped(h, {});
      ghost var r0 := Remove(h0, c);
      assert Carve(r0, c, approx) == r0;
      var k := approx;
      while k > order
        invariant Valid() && order <= k <= approx
        invariant HeadInHand(h, Carve(r0, c, k), c, k)
      {
        SplitContinues(h, r0, c, k);
        SplitBlock(k);
        k := k - 1;
      }
    }

    /** memory_free of NULL, of a block that is already marked FREE, or of an allocated block. */
    method MemoryFree(p: int) returns (result: int)
      requires Valid() && HeapInv(h, {})
      requires p != NULL ==> HEADER_SIZE <= p && (p - HEADER_SIZE in Allocated(h) || p - HEADER_SIZE in h.free)
      modifies this, hdr, freeBlocks
      ensures Valid() && HeapInv(h, {})
      ensures result == 0 <==> p != NULL && p - HEADER_SIZE in old(Allocated(h))
      ensures result == 0 ==> old(Shaped(h)) && h == Free(old(h), p - HEADER_SIZE)
      ensures result != 0 ==> result == -1 && h == old(h)
    {
      if p == NULL {
        return -1;
      }
      var block: nat := p - HEADER_SIZE;
      LiveHeader(block);
      assert FreeOk(h, {}, block);
      if hdr[block].status == FREE {
        return -1;
      }
      FreeCorrect(h, block);
      ghost var h0 := h;
      MarkRepresented(h, hdr[..], freeBlocks[..], block, FREE);
      hdr[block] := hdr[block].(status := FREE);
      h := MarkFree(h, block);
      InHandAfterMark(h0, block);
      Coalesce(block, h0);
      return 0;
    }

    // The merging loop of memory_free, and the push that ends it.
    method Coalesce(a: nat, ghost h0: Heap)
      requires Valid() && Shaped(h) && HeapInv(h, {a}) && a in h.blocks && a in h.free && !Listed(h, a)
      requires Shaped(h0) && a in h0.blocks && FreeLoop(h, a) == Free(h0, a)
      modifies this, hdr, freeBlocks
      ensures Valid() && h == Free(h0, a)
    {
      var block := a;
      BuddyInMemory(block);
      var buddy := Xor(block, Pow2(hdr[block].order));
      while hdr[block].order < TOP && hdr[buddy].status == FREE && hdr[buddy].order == hdr[block].order
        invariant Valid() && Shaped(h) && HeapInv(h, {block}) && block in h.blocks && block in h.free && !Listed(h, block)
        invariant FreeLoop(h, block) == Free(h0, a)
        invariant block < hdr.Length && hdr[block].order == h.blocks[block] < LISTS
        invariant buddy == Twin(h, block)
        invariant hdr[block].order < TOP ==> buddy in h.blocks && buddy < hdr.Length
        decreases LISTS - hdr[block].order
      {
        LiveHeader(buddy);
        MergeKeeps(h, block);
        block := MergeBuddies(block, buddy);
        BuddyInMemory(block);
        buddy := Xor(block, Pow2(hdr[block].order));
      }
      if h.blocks[block] < TOP {
        LiveHeader(buddy);
      }
      assert BlockOk(h.blocks, block);
      CreateBlock(block, hdr[block].order);
    }

    // Where the loop looks for the buddy there is a live header, except for a block of the whole region.
    lemma BuddyInMemory(a: nat)
      requires Valid() && HeapInv(h, {a}) && a in h.blocks
      ensures a < hdr.Length && hdr[a].order == h.blocks[a] < LISTS
      ensures Xor(a, Pow2(hdr[a].order)) == Twin(h, a)
      ensures hdr[a].order < TOP ==> Twin(h, a) in h.blocks && Twin(h, a) < hdr.Length
    {
      LiveHeader(a);
      assert BlockOk(h.blocks, a);
      BuddyIsXor(a, h.blocks[a]);
      if h.blocks[a] < TOP {
        BuddyIsLive(h.blocks, a);
        LiveHeader(Twin(h, a));
      }
    }

    /** merge: the buddy leaves its list and the left half becomes the header of both. */
    method MergeBuddies(a: nat, p: nat) returns (left: nat)
      requires Valid() && Shaped(h) && HeapInv(h, {a}) && a in h.blocks && !Listed(h, a) && HasFreeTwin(h, a) && p == Twin(h, a)
      modifies this, hdr, freeBlocks
      ensures Valid() && left == Left(a, p) && h == MergeStep(old(h), a)
    {
      TwinIsListed(h, a);
      RemoveLists(h, {a}, p);
      left := if a < p then a else p;
      RemoveBlock(p);
      LiveHeader(left);
      LiveHeader(a);
      ghost var x := hdr[left].(order := hdr[left].order + 1, status := FREE);
      MergeRepresented(h, hdr[..], freeBlocks[..], a, p, x);
      ghost var before := hdr[..];
      hdr[left] := hdr[left].(order := hdr[left].order + 1);
      hdr[left] := hdr[left].(status := FREE);
      h := MergeStep(old(h), a);
      assert hdr[..] == before[left := x];
    }

    /** memory_state_get: the free bytes are those on the lists below the maximum order. */
    method MemoryStateGet() returns (total: nat, used: nat, free: nat)
      requires Valid() && HeapInv(h, {})
      ensures total == RegionEnd() && used + free == total
      ensures free == ListBytes(h.lists, MIN_LEVEL, TOP)
      ensures h.lists[TOP] == [] ==> used == Bytes(h.blocks, Allocated(h), total)
      ensures h.lists[TOP] != [] ==> free == 0
    {
      free := 0;
      for i := MIN_LEVEL to TOP
        invariant free == ListBytes(h.lists, MIN_LEVEL, i)
      {
        assert ListLinked(h, hdr[..], freeBlocks[..], i);
        ghost var l, n := h.lists[i], 0;
        var current := freeBlocks[i];
        while current != NULL
          invariant 0 <= n <= |l| && current == Link(l, n)
          invariant free == ListBytes(h.lists, MIN_LEVEL, i) + n * Pow2(i)
          decreases |l| - n
        {
          assert NodeOk(l, hdr[..], n);
          assert (n + 1) * Pow2(i) == n * Pow2(i) + Pow2(i);
          free := free + Pow2(i);
          current := hdr[current].next;
          n := n + 1;
        }
      }
      ReportedFree(h);
      total := RegionEnd();
      used := total - free;
    }
  }
}
