/** Exact undo, coalescing and accounting of the buddy allocator. */
module BuddyTheorems {
  import opened BuddyTiling
  import opened BuddyHeap
  import opened BuddyProofs

  // ---------------------------------------------------------------- exact undo

  lemma MergeOfSplit(b: Blocks, a: nat)
    requires a in b && b[a] > 0 && a + Pow2(b[a] - 1) !in b
    ensures MergeBlocks(SplitBlocks(b, a), a, a + Pow2(b[a] - 1)) == b
  {
  }

  lemma TwinAfterHalve(h: Heap, a: nat)
    requires Shaped(h) && HeapInv(h, {a}) && a in h.blocks && h.blocks[a] > MIN_LEVEL
    ensures HasFreeTwin(MarkFree(Halve(h, a), a), a)
    ensures Twin(MarkFree(Halve(h, a), a), a) == a + Pow2(h.blocks[a] - 1)
    ensures a + Pow2(h.blocks[a] - 1) !in h.blocks
  {
    SplitKeepsTiling(h.blocks, a);
    assert BlockOk(h.blocks, a);
    HalvesAreTwins(h, a, h.blocks[a] - 1, Halve(h, a));
  }

  lemma HalvesAreTwins(h: Heap, a: nat, k: nat, g: Heap)
    requires Shaped(h) && a in h.blocks && h.blocks[a] == k + 1 && k + 1 <= TOP && g == Halve(h, a) && Buddy(a, k) == a + Pow2(k)
    ensures HasFreeTwin(MarkFree(g, a), a) && Twin(MarkFree(g, a), a) == a + Pow2(k)
  {
    assert g.blocks == h.blocks[a + Pow2(k) := k][a := k] && a + Pow2(k) in g.free;
  }

  lemma RemoveAfterHalve(h: Heap, a: nat)
    requires Shaped(h) && a in h.blocks && h.blocks[a] > 0
    requires a + Pow2(h.blocks[a] - 1) !in h.blocks && h.free <= h.blocks.Keys
    ensures Remove(MarkFree(Halve(h, a), a), a + Pow2(h.blocks[a] - 1)) == Heap(SplitBlocks(h.blocks, a), h.free + {a}, h.lists)
  {
    var k := h.blocks[a] - 1;
    var m := a + Pow2(k);
    HalveIsSplitAndCreate(h, a);
    var g := MarkFree(Halve(h, a), a);
    assert g.lists[k] == [m] + h.lists[k];
    assert IndexOf(g.lists[k], m) == 0;
    assert Dropped(g.lists[k], 0) == h.lists[k];
    assert (h.free + {m} + {a}) - {m} == h.free + {a};
  }

  /** Merging a just-halved block back restores the state before the halving. */
  lemma MergeUndoesHalve(h: Heap, a: nat)
    requires Shaped(h) && HeapInv(h, {a}) && a in h.blocks && !Listed(h, a) && a !in h.free && h.blocks[a] > MIN_LEVEL
    ensures HasFreeTwin(MarkFree(Halve(h, a), a), a)
    ensures Left(a, Twin(MarkFree(Halve(h, a), a), a)) == a
    ensures MergeStep(MarkFree(Halve(h, a), a), a) == MarkFree(h, a)
  {
    var m := a + Pow2(h.blocks[a] - 1);
    TwinAfterHalve(h, a);
    RemoveAfterHalve(h, a);
    MergeOfSplit(h.blocks, a);
    assert (h.free + {a} - {a, m}) + {a} == h.free + {a};
  }

  lemma {:induction false} FreeUndoesCarve(h: Heap, a: nat, k: nat)
    requires Shaped(h) && HeapInv(h, {a}) && a in h.blocks && !Listed(h, a) && a !in h.free
    requires MIN_LEVEL <= k <= h.blocks[a]
    ensures FreeLoop(MarkFree(Carve(h, a, k), a), a) == FreeLoop(MarkFree(h, a), a)
    decreases h.blocks[a]
  {
    if h.blocks[a] > k {
      HalveKeeps(h, {a}, a);
      FreeUndoesCarve(Halve(h, a), a, k);
      MergeUndoesHalve(h, a);
    }
  }

  lemma {:induction false} FreeLoopFrame(h: Heap, a: nat, o: nat)
    requires Shaped(h) && a in h.blocks && o < h.blocks[a]
    ensures |FreeLoop(h, a).lists| == LISTS && FreeLoop(h, a).lists[o] == h.lists[o]
    decreases LISTS - h.blocks[a]
  {
    if HasFreeTwin(h, a) {
      FreeLoopFrame(MergeStep(h, a), Left(a, Twin(h, a)), o);
    }
  }

  ghost predicate HeadOfItsList(h: Heap, c: nat) {
    HeapInv(h, {}) && Shaped(h) && c in h.blocks && h.lists[h.blocks[c]] != [] && h.lists[h.blocks[c]][0] == c
  }

  lemma TakingKeepsTwin(h: Heap, c: nat)
    requires HeadOfItsList(h, c)
    ensures Shaped(MarkFree(Remove(h, c), c)) && Remove(h, c).blocks == h.blocks
    ensures HasFreeTwin(MarkFree(Remove(h, c), c), c) <==> HasFreeTwin(h, c)
    ensures Create(MarkFree(Remove(h, c), c), c, h.blocks[c]) == MarkFree(h, c)
  {
    var j := h.blocks[c];
    TakeHead(h, j);
    assert BlockOk(h.blocks, c);
    BuddySymmetric(c, j);
    assert [c] + h.lists[j][1..] == h.lists[j];
  }

  // Freeing the head that was just taken off its list.
  lemma PutHeadBack(h: Heap, c: nat)
    requires HeadOfItsList(h, c)
    ensures Shaped(MarkFree(Remove(h, c), c)) && Remove(h, c).blocks == h.blocks
    ensures var r := FreeLoop(MarkFree(Remove(h, c), c), c);
      && (r.lists == h.lists <==> !HasFreeTwin(h, c))
      && (!HasFreeTwin(h, c) ==> r == MarkFree(h, c))
      && (c in h.free ==> r == h)
  {
    TakingKeepsTwin(h, c);
    if HasFreeTwin(h, c) {
      TwinLosesItsPlace(h, c);
    }
    assert FreeOk(h, {}, c);
    assert c in h.free ==> h.free + {c} == h.free;
  }

  /** Freeing what was just allocated gives back every free list, through any depth of splitting, exactly
      when the block it was carved from had no FREE buddy of its own order; the state is then restored
      up to that block's header being FREE, and fully restored when it was marked FREE to begin with. */
  lemma FreeUndoesAlloc(h: Heap, size: nat)
    requires HeapInv(h, {}) && Alloc(h, size).0.Some?
    ensures var (p, g) := Alloc(h, size); var c := h.lists[FirstList(h.lists, OrderFor(size))][0];
      && p == Some(c) && Shaped(g) && c in g.blocks && c in h.blocks
      && (Free(g, c).lists == h.lists <==> !HasFreeTwin(h, c))
      && (!HasFreeTwin(h, c) ==> Free(g, c) == MarkFree(h, c))
      && (c in h.free ==> Free(g, c) == h)
  {
    var j := FirstList(h.lists, OrderFor(size));
    var c := h.lists[j][0];
    TakeHead(h, j);
    InvShaped(h, {});
    FreeUndoesCarve(Remove(h, c), c, OrderFor(size));
    PutHeadBack(h, c);
  }

  lemma TwinLosesItsPlace(h: Heap, c: nat)
    requires HeapInv(h, {}) && Shaped(h) && c in h.blocks && HasFreeTwin(h, c)
    requires h.lists[h.blocks[c]] != [] && h.lists[h.blocks[c]][0] == c
    ensures FreeLoop(MarkFree(Remove(h, c), c), c).lists != h.lists
  {
    var j := h.blocks[c];
    TakeHead(h, j);
    var m := MarkFree(Remove(h, c), c);
    assert BlockOk(h.blocks, c);
    BuddySymmetric(c, j);
    var t := Twin(h, c);
    assert FreeOk(h, {}, t);
    assert t in m.lists[j];
    assert |Remove(m, t).lists[j]| == |m.lists[j]| - 1;
    FreeLoopFrame(MergeStep(m, c), Left(c, t), j);
  }

  // ---------------------------------------------------------------- coalescing

  lemma {:induction false} LeastOrder(b: Blocks, a: nat) returns (c: nat)
    requires a in b
    ensures c in b && forall x :: x in b ==> b[c] <= b[x]
    decreases b[a]
  {
    if x :| x in b && b[x] < b[a] {
      c := LeastOrder(b, x);
    } else {
      c := a;
    }
  }

  lemma WholeRegionIsOnlyBlock(b: Blocks)
    requires Tiling(b) && b[0] == TOP
    ensures b == map[0 := TOP]
  {
    forall x | x in b
      ensures x == 0
    {
      assert Disjoint(b, 0, x) && BlockOk(b, x);
    }
  }

  lemma NoTwins(h: Heap, a: nat)
    requires HeapInv(h, {}) && a in h.free && a in h.blocks
    ensures !HasFreeTwin(h, a)
  {
    assert FreeOk(h, {}, a);
  }

  /** When every block is marked FREE the heap is the single block of the maximum order. */
  lemma AllFreeIsWhole(h: Heap)
    requires HeapInv(h, {}) && h.blocks.Keys <= h.free
    ensures h.blocks == map[0 := TOP]
  {
    var a := LeastOrder(h.blocks, 0);
    assert BlockOk(h.blocks, a);
    if h.blocks[a] < TOP {
      BuddyIsLive(h.blocks, a);
      assert HasFreeTwin(h, a);
      NoTwins(h, a);
    }
    assert BlockOk(h.blocks, 0);
    WholeRegionIsOnlyBlock(h.blocks);
  }

  // A heap that is one listed block has it marked FREE.
  ghost predicate TopFree(h: Heap) {
    0 in h.blocks && h.blocks[0] == TOP && Listed(h, 0) ==> 0 in h.free
  }

  lemma {:induction false} FreeLoopLeavesFree(h: Heap, a: nat)
    requires Shaped(h) && a in h.blocks
    ensures exists x :: x in FreeLoop(h, a).blocks && x in FreeLoop(h, a).free
    decreases LISTS - h.blocks[a]
  {
    if HasFreeTwin(h, a) {
      FreeLoopLeavesFree(MergeStep(h, a), Left(a, Twin(h, a)));
      assert FreeLoop(h, a) == FreeLoop(MergeStep(h, a), Left(a, Twin(h, a)));
    } else {
      assert a in FreeLoop(h, a).blocks && a in FreeLoop(h, a).free;
    }
  }

  lemma StepKeepsTopFree(h: Heap, e: Event)
    requires Legal(h, e) && TopFree(h)
    ensures TopFree(Apply(h, e))
  {
    var g := Apply(h, e);
    match e {
      case DoAlloc(size) =>
        AllocCorrect(h, size);
        var (p, _) := Alloc(h, size);
        if p.Some? && g.blocks[0] == TOP {
          WholeRegionIsOnlyBlock(g.blocks);
          assert p.value in Allocated(g);
        }
      case DoFree(a) =>
        FreeCorrect(h, a);
        FreeLoopLeavesFree(MarkFree(h, a), a);
        if g.blocks[0] == TOP {
          WholeRegionIsOnlyBlock(g.blocks);
        }
    }
  }

  lemma {:induction false} RunKeepsTopFree(h: Heap, held: set<nat>, es: seq<Event>)
    requires HeapInv(h, {}) && LegalRun(h, es) && TopFree(h)
    ensures TopFree(Run(h, held, es).0)
    decreases |es|
  {
    if es != [] {
      StepKeepsTopFree(h, es[0]);
      RunKeepsTopFree(Apply(h, es[0]), Held(h, held, es[0]), es[1..]);
    }
  }

  /** After any run that has given everything back, the heap is one maximal block again exactly when
      every listed block is still marked FREE. */
  lemma CoalescedExactlyWhen(es: seq<Event>)
    requires HeapInv(Init(), {}) && LegalRun(Init(), es) && Run(Init(), {}, es).1 == {}
    ensures var h := Run(Init(), {}, es).0;
      h.blocks == map[0 := TOP] <==> h.blocks.Keys <= h.free
  {
    InitOk();
    RunKeepsInvariant(Init(), {}, es);
    RunKeepsTopFree(Init(), {}, es);
    var h := Run(Init(), {}, es).0;
    if h.blocks.Keys <= h.free {
      AllFreeIsWhole(h);
    }
    if h.blocks == map[0 := TOP] {
      assert 0 !in Allocated(h);
    }
  }

  // ---------------------------------------------------------------- when marks are lost

  /** Every listed block is marked FREE. */
  ghost predicate AllMarked(h: Heap) {
    forall x {:trigger Listed(h, x)} :: Listed(h, x) ==> x in h.free
  }

  /** Every buddy that memory_free merges is the head of its list when it is taken off. */
  ghost predicate HeadMerges(h: Heap, a: nat)
    requires Shaped(h) && a in h.blocks
    decreases LISTS - h.blocks[a]
  {
    HasFreeTwin(h, a) ==>
      && h.lists[h.blocks[a]] != []
      && h.lists[h.blocks[a]][0] == Twin(h, a)
      && HeadMerges(MergeStep(h, a), Left(a, Twin(h, a)))
  }

  lemma AllocKeepsMarks(h: Heap, size: nat)
    requires HeapInv(h, {}) && AllMarked(h)
    ensures AllMarked(Alloc(h, size).1)
  {
    var (p, g) := Alloc(h, size);
    if p.Some? {
      var j := FirstList(h.lists, OrderFor(size));
      TakeHead(h, j);
      RemoveKeeps(h, {}, h.lists[j][0]) by { assert ListOk(h, j); }
      CarveKeepsMarks(Remove(h, h.lists[j][0]), h.lists[j][0], OrderFor(size));
    }
  }

  lemma {:induction false} CarveKeepsMarks(h: Heap, a: nat, k: nat)
    requires Shaped(h) && HeapInv(h, {a}) && a in h.blocks && !Listed(h, a) && a !in h.free
    requires MIN_LEVEL <= k <= h.blocks[a] && AllMarked(h)
    ensures AllMarked(Carve(h, a, k))
    decreases h.blocks[a]
  {
    if h.blocks[a] > k {
      HalveKeeps(h, {a}, a);
      HalveKeepsMarks(h, a);
      CarveKeepsMarks(Halve(h, a), a, k);
    }
  }

  lemma HalveKeepsMarks(h: Heap, a: nat)
    requires Shaped(h) && HeapInv(h, {a}) && a in h.blocks && !Listed(h, a) && h.blocks[a] > MIN_LEVEL && AllMarked(h)
    ensures AllMarked(Halve(h, a))
  {
    var g := Halve(h, a);
    var m := a + Pow2(h.blocks[a] - 1);
    assert ListOk(h, h.blocks[a] - 1);
    forall x | Listed(g, x)
      ensures x in g.free
    {
      if x != m && x != a {
        assert Listed(h, x);
      }
    }
  }

  lemma MergeMarks(h: Heap, a: nat)
    requires Shaped(h) && HeapInv(h, {a}) && a in h.blocks && !Listed(h, a) && HasFreeTwin(h, a) && AllMarked(h)
    ensures h.lists[h.blocks[a]] != []
    ensures AllMarked(MergeStep(h, a)) <==> h.lists[h.blocks[a]][0] == Twin(h, a)
  {
    var p := Twin(h, a);
    var k := h.blocks[a];
    var l := h.lists[k];
    TwinIsListed(h, a);
    RemoveLists(h, {a}, p);
    MergeLists(h, a);
    var g := MergeStep(h, a);
    var i := IndexOf(l, p);
    assert ListOk(h, k);
    if i > 0 {
      assert Listed(h, l[i - 1]) && l[i - 1] != p && l[i - 1] != a;
      assert Listed(g, l[i - 1]) && l[i - 1] !in g.free;
    } else {
      forall x | Listed(g, x)
        ensures x in g.free
      {
        assert Listed(h, x) && x != p && x != a;
      }
    }
  }

  // A listed block that is not marked FREE stays that way while a block is merged.
  lemma {:induction false} LostMarkStays(h: Heap, a: nat, x: nat)
    requires Shaped(h) && HeapInv(h, {a}) && a in h.blocks && !Listed(h, a) && Listed(h, x) && x !in h.free
    ensures Listed(FreeLoop(h, a), x) && x !in FreeLoop(h, a).free
    decreases LISTS - h.blocks[a]
  {
    if HasFreeTwin(h, a) {
      MergeKeeps(h, a);
      MergeLists(h, a);
      TwinIsListed(h, a);
      RemoveLists(h, {a}, Twin(h, a));
      LostMarkStays(MergeStep(h, a), Left(a, Twin(h, a)), x);
    } else {
      CreateKeeps(h, {a}, a);
    }
  }

  lemma {:induction false} FreeLoopMarks(h: Heap, a: nat)
    requires Shaped(h) && HeapInv(h, {a}) && a in h.blocks && !Listed(h, a) && AllMarked(h)
    ensures AllMarked(FreeLoop(h, a)) <==> HeadMerges(h, a)
    decreases LISTS - h.blocks[a]
  {
    if HasFreeTwin(h, a) {
      var g := MergeStep(h, a);
      var left := Left(a, Twin(h, a));
      TwinIsListed(h, a);
      MergeKeeps(h, a);
      MergeMarks(h, a);
      if AllMarked(g) {
        FreeLoopMarks(g, left);
      } else {
        var x :| Listed(g, x) && x !in g.free;
        LostMarkStays(g, left, x);
      }
    } else {
      CreateKeeps(h, {a}, a);
    }
  }

  /** Freeing a block keeps every listed block marked FREE exactly when each buddy it merges is the head
      of its list: the mark is lost in the branch of remove_block that walks past the head. */
  lemma FreeKeepsMarksExactlyWhen(h: Heap, a: nat)
    requires HeapInv(h, {}) && a in Allocated(h) && AllMarked(h)
    ensures Shaped(h) && (AllMarked(Free(h, a)) <==> HeadMerges(MarkFree(h, a), a))
  {
    InHandAfterMark(h, a);
    var m := MarkFree(h, a);
    forall x | Listed(m, x)
      ensures x in m.free
    {
      assert Listed(h, x);
    }
    FreeLoopMarks(m, a);
  }
}
