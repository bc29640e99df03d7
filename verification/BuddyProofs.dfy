/** What every step of the buddy allocator keeps, and what its operations promise. */
module BuddyProofs {
  import opened BuddyTiling
  import opened BuddyHeap

  // ---------------------------------------------------------------- steps keep the invariant

  lemma RemoveFromList(l: seq<nat>, i: nat)
    requires i < |l| && Distinct(l)
    ensures Distinct(Dropped(l, i))
    ensures forall z :: z in Dropped(l, i) <==> z in l && z != l[i]
  {
    var m := Dropped(l, i);
    forall z
      ensures z in m <==> z in l && z != l[i]
    {
      if z in l && z != l[i] {
        var j :| 0 <= j < |l| && l[j] == z;
        assert m[if j < i then j else j - 1] == z;
      }
    }
  }

  lemma RemoveLists(h: Heap, exempt: set<nat>, a: nat)
    requires HeapInv(h, exempt) && Listed(h, a)
    ensures Remove(h, a).blocks == h.blocks && Remove(h, a).free <= h.free
    ensures |Remove(h, a).lists| == LISTS
    ensures forall k :: 0 <= k < LISTS ==> ListOk(Remove(h, a), k)
    ensures forall x :: Listed(Remove(h, a), x) <==> Listed(h, x) && x != a
  {
    var k := h.blocks[a];
    var g := Remove(h, a);
    assert ListOk(h, k);
    RemoveFromList(h.lists[k], IndexOf(h.lists[k], a));
    forall j | 0 <= j < LISTS
      ensures ListOk(g, j)
    {
      assert ListOk(h, j);
    }
  }

  lemma RemoveKeeps(h: Heap, exempt: set<nat>, a: nat)
    requires HeapInv(h, exempt) && Listed(h, a)
    ensures HeapInv(Remove(h, a), exempt + {a})
    ensures Remove(h, a).blocks == h.blocks && Remove(h, a).free <= h.free
    ensures forall x :: Listed(Remove(h, a), x) <==> Listed(h, x) && x != a
  {
    RemoveLists(h, exempt, a);
    var g := Remove(h, a);
    forall x
      ensures FreeOk(g, exempt + {a}, x)
    {
      assert FreeOk(h, exempt, x);
    }
  }

  lemma CreateKeeps(h: Heap, exempt: set<nat>, a: nat)
    requires HeapInv(h, exempt) && a in h.blocks && h.blocks[a] < LISTS && !Listed(h, a)
    ensures HeapInv(Create(h, a, h.blocks[a]), exempt + {a})
    ensures Create(h, a, h.blocks[a]).blocks == h.blocks
    ensures forall x :: Listed(Create(h, a, h.blocks[a]), x) <==> Listed(h, x) || x == a
  {
    var k := h.blocks[a];
    var g := Create(h, a, k);
    assert g.blocks == h.blocks;
    forall j | 0 <= j < LISTS
      ensures ListOk(g, j)
    {
      assert ListOk(h, j);
    }
    forall x
      ensures FreeOk(g, exempt + {a}, x)
    {
      assert FreeOk(h, exempt, x);
    }
  }

  // A block stops being exempt once it is in order itself.
  lemma DropExempt(h: Heap, exempt: set<nat>, a: nat)
    requires HeapInv(h, exempt + {a})
    requires a in h.free ==> Listed(h, a) && (HasFreeTwin(h, a) ==> Twin(h, a) in exempt)
    ensures HeapInv(h, exempt)
  {
    forall x
      ensures FreeOk(h, exempt, x)
    {
      assert FreeOk(h, exempt + {a}, x);
      if x in h.free && x !in exempt && x != a && HasFreeTwin(h, x) && Twin(h, x) == a {
        assert BlockOk(h.blocks, x);
        BuddySymmetric(x, h.blocks[x]);
      }
    }
  }

  // Splitting the header of a block that is on no list, before its right half is listed.
  lemma SplitHeaderKeeps(h: Heap, exempt: set<nat>, a: nat)
    requires HeapInv(h, exempt) && a in exempt && a in h.blocks && !Listed(h, a) && h.blocks[a] > MIN_LEVEL
    ensures HeapInv(h.(blocks := SplitBlocks(h.blocks, a)), exempt)
  {
    SplitKeepsTiling(h.blocks, a);
    var s := h.(blocks := SplitBlocks(h.blocks, a));
    forall j | 0 <= j < LISTS
      ensures ListOk(s, j)
    {
      assert ListOk(h, j);
    }
    forall x
      ensures FreeOk(s, exempt, x)
    {
      assert FreeOk(h, exempt, x);
      if x in s.free && x !in exempt && HasFreeTwin(s, x) && !HasFreeTwin(h, x) {
        assert Twin(s, x) == a;
      }
    }
  }

  lemma HalveIsSplitAndCreate(h: Heap, a: nat)
    requires Shaped(h) && a in h.blocks && h.blocks[a] > 0
    ensures Halve(h, a) == Create(h.(blocks := SplitBlocks(h.blocks, a)), a + Pow2(h.blocks[a] - 1), h.blocks[a] - 1)
  {
    var k := h.blocks[a] - 1;
    var m := a + Pow2(k);
    assert h.blocks[m := k][a := k] == SplitBlocks(h.blocks, a);
    assert SplitBlocks(h.blocks, a)[m := k] == SplitBlocks(h.blocks, a);
  }

  // Halving a block that is on no list keeps everything but the promise about that block.
  lemma HalveKeeps(h: Heap, exempt: set<nat>, a: nat)
    requires Shaped(h) && HeapInv(h, exempt) && a in exempt
    requires a in h.blocks && !Listed(h, a) && a !in h.free && h.blocks[a] > MIN_LEVEL
    ensures HeapInv(Halve(h, a), exempt)
    ensures a !in Halve(h, a).free && !Listed(Halve(h, a), a)
    ensures forall x :: x in Allocated(h) <==> x in Allocated(Halve(h, a))
    ensures forall x :: x in h.blocks && x != a ==> x in Halve(h, a).blocks && Halve(h, a).blocks[x] == h.blocks[x]
  {
    var k := h.blocks[a] - 1;
    var m := a + Pow2(k);
    SplitKeepsTiling(h.blocks, a);
    SplitHeaderKeeps(h, exempt, a);
    HalveIsSplitAndCreate(h, a);
    var s := h.(blocks := SplitBlocks(h.blocks, a));
    assert !Listed(s, m) && !Listed(s, a) by { assert ListOk(h, k); }
    CreateKeeps(s, exempt, m);
    DropExempt(Halve(h, a), exempt, m);
  }

  lemma {:induction false} CarveKeeps(h: Heap, a: nat, k: nat)
    requires Shaped(h) && HeapInv(h, {a}) && a in h.blocks && !Listed(h, a) && a !in h.free
    requires MIN_LEVEL <= k <= h.blocks[a]
    ensures HeapInv(Carve(h, a, k), {a})
    ensures a !in Carve(h, a, k).free && !Listed(Carve(h, a, k), a)
    ensures forall x :: x in Allocated(h) <==> x in Allocated(Carve(h, a, k))
    ensures forall x :: x in h.blocks && x != a ==> x in Carve(h, a, k).blocks && Carve(h, a, k).blocks[x] == h.blocks[x]
    decreases h.blocks[a]
  {
    if h.blocks[a] > k {
      HalveKeeps(h, {a}, a);
      CarveKeeps(Halve(h, a), a, k);
    }
  }

  /** Removing the head of a list takes that block out of use by the allocator and marks it OCCUPIED. */
  lemma TakeHead(h: Heap, j: nat)
    requires HeapInv(h, {}) && j < LISTS && h.lists[j] != []
    ensures h.lists[j][0] in h.blocks && h.blocks[h.lists[j][0]] == j
    ensures var a := h.lists[j][0]; var g := Remove(h, a);
      && Shaped(g) && HeapInv(g, {a}) && a in g.blocks && g.blocks[a] == j && MIN_LEVEL <= j <= TOP
      && a !in g.free && !Listed(g, a) && a !in Allocated(h)
      && (forall x :: x in Allocated(g) <==> x in Allocated(h) || x == a)
      && g.blocks == h.blocks
      && g == Heap(h.blocks, h.free - {a}, h.lists[j := h.lists[j][1..]])
  {
    var a := h.lists[j][0];
    assert ListOk(h, j);
    assert Listed(h, a);
    assert BlockOk(h.blocks, a);
    RemoveKeeps(h, {}, a);
    InvShaped(h, {});
    var g := Remove(h, a);
    assert {} + {a} == {a};
    assert IndexOf(h.lists[j], a) == 0;
    assert Dropped(h.lists[j], 0) == h.lists[j][1..];
  }

  /** memory_alloc keeps the heap in order, hands out a block that was not allocated, of the least
      order that holds the request and the header, and leaves every other allocated block alone.
      A request is refused exactly when it is empty, too large, or no list from that order on has a block. */
  lemma AllocCorrect(h: Heap, size: nat)
    requires HeapInv(h, {})
    ensures var (p, g) := Alloc(h, size);
      && HeapInv(g, {})
      && (p.None? <==> size == 0 || size > RegionEnd() || forall k :: OrderFor(size) <= k < LISTS ==> h.lists[k] == [])
      && (p.None? ==> g == h)
      && (p.Some? ==>
        && p.value !in Allocated(h) && Allocated(g) == Allocated(h) + {p.value}
        && g.blocks[p.value] == OrderFor(size)
        && size + HEADER_SIZE <= Pow2(g.blocks[p.value])
        && (forall x :: x in Allocated(h) ==> g.blocks[x] == h.blocks[x]))
  {
    var (p, g) := Alloc(h, size);
    var j := FirstList(h.lists, OrderFor(size));
    if j < LISTS && 0 < size <= RegionEnd() {
      TakeHead(h, j);
      var a := h.lists[j][0];
      CarveKeeps(Remove(h, a), a, OrderFor(size));
      DropExempt(g, {}, a) by { assert {} + {a} == {a}; }
      assert Allocated(g) == Allocated(h) + {a};
    }
  }

  // ---------------------------------------------------------------- freeing

  lemma TwinIsListed(h: Heap, a: nat)
    requires HeapInv(h, {a}) && a in h.blocks && HasFreeTwin(h, a)
    ensures Listed(h, Twin(h, a)) && Twin(h, a) != a
  {
    assert BlockOk(h.blocks, a);
    BuddySymmetric(a, h.blocks[a]);
    assert FreeOk(h, {a}, Twin(h, a));
  }

  /** One merge keeps the heap in order around the block in hand. */
  lemma MergeKeeps(h: Heap, a: nat)
    requires Shaped(h) && HeapInv(h, {a}) && a in h.blocks && !Listed(h, a) && HasFreeTwin(h, a)
    ensures var g := MergeStep(h, a); var left := Left(a, Twin(h, a));
      && HeapInv(g, {left}) && !Listed(g, left)
      && Allocated(g) - {left} == Allocated(h) - {a} && left !in Allocated(h) - {a}
      && (forall x :: x in Allocated(h) && x != a ==> x in g.blocks && g.blocks[x] == h.blocks[x])
  {
    var k := h.blocks[a];
    var p := Twin(h, a);
    var left := Left(a, p);
    TwinIsListed(h, a);
    RemoveKeeps(h, {a}, p);
    var r := Remove(h, p);
    var g := MergeStep(h, a);
    MergeKeepsTiling(h.blocks, a);
    assert BlockOk(h.blocks, a);
    MergeLists(h, a);
    forall x
      ensures FreeOk(g, {left}, x)
    {
      assert FreeOk(r, {a} + {p}, x);
      if x in g.free && x != left {
        if HasFreeTwin(g, x) && Twin(g, x) != left {
          assert HasFreeTwin(r, x);
        }
      }
    }
  }

  lemma MergeLists(h: Heap, a: nat)
    requires Shaped(h) && HeapInv(h, {a}) && a in h.blocks && !Listed(h, a) && HasFreeTwin(h, a)
    ensures var g := MergeStep(h, a);
      && (forall k :: 0 <= k < LISTS ==> ListOk(g, k))
      && (forall x :: Listed(g, x) <==> Listed(h, x) && x != Twin(h, a))
  {
    var p := Twin(h, a);
    TwinIsListed(h, a);
    RemoveLists(h, {a}, p);
    var r := Remove(h, p);
    var g := MergeStep(h, a);
    forall k | 0 <= k < LISTS
      ensures ListOk(g, k)
    {
      assert ListOk(r, k);
      forall i | 0 <= i < |g.lists[k]|
        ensures g.lists[k][i] in g.blocks && g.blocks[g.lists[k][i]] == k
      {
        assert Listed(r, r.lists[k][i]);
      }
    }
    forall x
      ensures Listed(g, x) <==> Listed(r, x)
    {
      if Listed(g, x) {
        assert ListOk(r, g.blocks[x]);
      }
    }
  }

  lemma {:induction false} FreeLoopKeeps(h: Heap, a: nat)
    requires Shaped(h) && HeapInv(h, {a}) && a in h.blocks && !Listed(h, a)
    ensures HeapInv(FreeLoop(h, a), {})
    ensures Allocated(FreeLoop(h, a)) == Allocated(h) - {a}
    ensures forall x :: x in Allocated(h) && x != a ==> x in FreeLoop(h, a).blocks && FreeLoop(h, a).blocks[x] == h.blocks[x]
    decreases LISTS - h.blocks[a]
  {
    if HasFreeTwin(h, a) {
      MergeKeeps(h, a);
      var left := Left(a, Twin(h, a));
      FreeLoopKeeps(MergeStep(h, a), left);
    } else {
      CreateKeeps(h, {a}, a);
      var g := FreeLoop(h, a);
      assert BlockOk(h.blocks, a);
      BuddySymmetric(a, h.blocks[a]);
      assert {a} + {a} == {} + {a};
      DropExempt(g, {}, a);
    }
  }

  // An allocated block that has just been marked FREE, before it is merged and listed.
  lemma InHandAfterMark(h: Heap, a: nat)
    requires HeapInv(h, {}) && a in Allocated(h)
    ensures Shaped(h) && Shaped(MarkFree(h, a)) && HeapInv(MarkFree(h, a), {a}) && !Listed(MarkFree(h, a), a)
  {
    InvShaped(h, {});
    var m := MarkFree(h, a);
    forall k | 0 <= k < LISTS
      ensures ListOk(m, k)
    {
      assert ListOk(h, k);
    }
    forall x
      ensures FreeOk(m, {a}, x)
    {
      assert FreeOk(h, {}, x);
    }
  }

  /** memory_free of an allocated block keeps the heap in order, takes exactly that block out of the
      allocated ones and leaves the others alone. */
  lemma FreeCorrect(h: Heap, a: nat)
    requires HeapInv(h, {}) && a in Allocated(h)
    ensures Shaped(h)
    ensures HeapInv(Free(h, a), {})
    ensures Allocated(Free(h, a)) == Allocated(h) - {a}
    ensures forall x :: x in Allocated(h) && x != a ==> x in Free(h, a).blocks && Free(h, a).blocks[x] == h.blocks[x]
  {
    InHandAfterMark(h, a);
    var m := MarkFree(h, a);
    assert Allocated(m) == Allocated(h);
    FreeLoopKeeps(m, a);
  }

  // ---------------------------------------------------------------- runs

  function Init(): Heap { Heap(map[0 := TOP], {0}, seq(LISTS, i => if i == TOP then [0] else [])) }

  lemma InitOk()
    ensures HeapInv(Init(), {}) && Allocated(Init()) == {}
  {
    AlignedZero(TOP);
    var h := Init();
    assert BlockOk(h.blocks, 0);
    forall a, c | a in h.blocks && c in h.blocks
      ensures Disjoint(h.blocks, a, c)
    {
    }
    forall k | 0 <= k < LISTS
      ensures ListOk(h, k)
    {
    }
    forall x
      ensures FreeOk(h, {}, x)
    {
    }
  }

  datatype Event = DoAlloc(size: nat) | DoFree(block: nat)

  // A request may be of any size; only a block that is allocated may be freed.
  ghost predicate Legal(h: Heap, e: Event) {
    HeapInv(h, {}) && (e.DoFree? ==> e.block in Allocated(h))
  }

  ghost function Apply(h: Heap, e: Event): (g: Heap)
    requires Legal(h, e)
    ensures HeapInv(g, {})
  {
    match e
    case DoAlloc(size) => AllocCorrect(h, size); Alloc(h, size).1
    case DoFree(a) => FreeCorrect(h, a); Free(h, a)
  }

  /** The blocks a client holds: those returned to it and not yet freed. */
  ghost function Held(h: Heap, held: set<nat>, e: Event): set<nat>
    requires Legal(h, e)
  {
    match e
    case DoAlloc(size) => held + (if Alloc(h, size).0.Some? then {Alloc(h, size).0.value} else {})
    case DoFree(a) => held - {a}
  }

  ghost predicate LegalRun(h: Heap, es: seq<Event>)
    requires HeapInv(h, {})
    decreases |es|
  {
    es == [] || (Legal(h, es[0]) && LegalRun(Apply(h, es[0]), es[1..]))
  }

  ghost function Run(h: Heap, held: set<nat>, es: seq<Event>): (r: (Heap, set<nat>))
    requires HeapInv(h, {}) && LegalRun(h, es)
    decreases |es|
  {
    if es == [] then (h, held) else Run(Apply(h, es[0]), Held(h, held, es[0]), es[1..])
  }

  /** After any run of requests and frees of held blocks the lists and the held blocks tile the region
      exactly, with no overlap and every block aligned to its size, every FREE header is listed and no two
      equal buddies are FREE; and the allocated blocks are the ones the client holds. */
  lemma {:induction false} RunKeepsInvariant(h: Heap, held: set<nat>, es: seq<Event>)
    requires HeapInv(h, {}) && LegalRun(h, es) && held == Allocated(h)
    ensures HeapInv(Run(h, held, es).0, {})
    ensures Run(h, held, es).1 == Allocated(Run(h, held, es).0)
    decreases |es|
  {
    if es != [] {
      match es[0] {
        case DoAlloc(size) => AllocCorrect(h, size);
        case DoFree(a) => FreeCorrect(h, a);
      }
      RunKeepsInvariant(Apply(h, es[0]), Held(h, held, es[0]), es[1..]);
    }
  }

  /** Two held blocks never share a byte, and each lies inside the region at a multiple of its size. */
  lemma HeldBlocksDisjoint(es: seq<Event>, a: nat, c: nat)
    requires HeapInv(Init(), {}) && LegalRun(Init(), es)
    requires a in Run(Init(), {}, es).1 && c in Run(Init(), {}, es).1 && a != c
    ensures var b := Run(Init(), {}, es).0.blocks;
      && a in b && c in b
      && (a + Pow2(b[a]) <= c || c + Pow2(b[c]) <= a)
      && a + Pow2(b[a]) <= RegionEnd() && a % Pow2(b[a]) == 0
  {
    InitOk();
    RunKeepsInvariant(Init(), {}, es);
    var b := Run(Init(), {}, es).0.blocks;
    assert Disjoint(b, a, c) && Disjoint(b, c, a) && BlockOk(b, a);
    EndInRegion(b, a);
    AlignedIsMultiple(a, b[a]);
  }
}
