/** A run of the buddy allocator after which everything is free and yet not coalesced. */
module BuddyExample {
  import opened BuddyTiling
  import opened BuddyHeap
  import opened BuddyProofs

  // The four quarters of the region, and a request that fills one.
  const Q: nat := 524288
  const QUARTER: nat := 524272

  lemma Powers()
    ensures Pow2(18) == 262144 && Pow2(19) == Q && Pow2(20) == 2 * Q && Pow2(21) == 4 * Q
    ensures OrderFor(QUARTER) == 19
    ensures !Aligned(Q, 20) && Aligned(2 * Q, 20) && !Aligned(3 * Q, 20) && Aligned(0, 20)
    ensures Aligned(0, 21) && !Aligned(2 * Q, 21)
  {
    var k := OrderFor(QUARTER);
    assert Pow2(18) == 262144;
    if k < 19 {
      PowMonotone(k, 18);
    } else if k > 19 {
      PowMonotone(19, k - 1);
    }
    AlignedZero(20);
    AlignedZero(21);
    AlignedPow(19, 19);
    AlignedFlip(0, 19) by { AlignedZero(19); }
    AlignedFlip(Q, 19);
    AlignedFlip(2 * Q, 19) by { AlignedWeaken(2 * Q, 19, 20); }
    AlignedFlip(0, 20);
  }

  // The lists with the given orders 19, 20 and 21.
  function Lists(l19: seq<nat>, l20: seq<nat>, l21: seq<nat>): seq<seq<nat>> {
    seq(LISTS, i => if i == 19 then l19 else if i == 20 then l20 else if i == 21 then l21 else [])
  }

  lemma ListsUpdate(l19: seq<nat>, l20: seq<nat>, l21: seq<nat>, l: seq<nat>)
    ensures Lists(l19, l20, l21)[19 := l] == Lists(l, l20, l21)
    ensures Lists(l19, l20, l21)[20 := l] == Lists(l19, l, l21)
    ensures Lists(l19, l20, l21)[21 := l] == Lists(l19, l20, l)
  {
  }

  const Quarters: Blocks := map[0 := 19, Q := 19, 2 * Q := 19, 3 * Q := 19]

  function S1(): Heap { Heap(map[0 := 19, Q := 19, 2 * Q := 20], {Q, 2 * Q}, Lists([Q], [2 * Q], [])) }
  function S2(): Heap { Heap(map[0 := 19, Q := 19, 2 * Q := 20], {2 * Q}, Lists([], [2 * Q], [])) }
  function S3(): Heap { Heap(Quarters, {3 * Q}, Lists([3 * Q], [], [])) }
  function S4(): Heap { Heap(Quarters, {}, Lists([], [], [])) }
  function S5(): Heap { Heap(Quarters, {0}, Lists([0], [], [])) }
  function S6(): Heap { Heap(Quarters, {0, 2 * Q}, Lists([2 * Q, 0], [], [])) }
  function S7(): Heap { Heap(map[0 := 20, 2 * Q := 19, 3 * Q := 19], {0}, Lists([2 * Q], [0], [])) }
  function S8(): Heap { Heap(map[0 := 20, 2 * Q := 19, 3 * Q := 19], {0, 3 * Q}, Lists([3 * Q, 2 * Q], [0], [])) }

  // Halving moves along: one more header, one more FREE right half on its list.
  lemma HalveTo(h: Heap, a: nat, k: nat, g: Heap)
    requires Shaped(h) && a in h.blocks && h.blocks[a] == k + 1
    requires g.blocks == h.blocks[a + Pow2(k) := k][a := k] && g.free == h.free + {a + Pow2(k)}
    requires |g.lists| == LISTS && g.lists == h.lists[k := [a + Pow2(k)] + h.lists[k]]
    ensures Halve(h, a) == g
  {
  }

  lemma Alloc1()
    requires HeapInv(Init(), {})
    ensures Alloc(Init(), QUARTER) == (Some(0), S1())
  {
    Powers();
    var h := Init();
    assert h.lists == Lists([], [], [0]);
    assert FirstList(h.lists, 19) == 21;
    TakeHead(h, 21);
    ListsUpdate([], [], [0], []);
    assert Remove(h, 0) == Heap(map[0 := 21], {}, Lists([], [], []));
    Carve1();
  }

  lemma Carve1()
    ensures var r := Heap(map[0 := 21], {}, Lists([], [], [])); Shaped(r) && Carve(r, 0, 19) == S1()
  {
    Powers();
    ListsUpdate([], [], [], [2 * Q]);
    ListsUpdate([], [2 * Q], [], [Q]);
    var r := Heap(map[0 := 21], {}, Lists([], [], []));
    var r1 := Heap(map[0 := 20, 2 * Q := 20], {2 * Q}, Lists([], [2 * Q], []));
    assert [2 * Q] + [] == [2 * Q] && [Q] + [] == [Q];
    HalveTo(r, 0, 20, r1);
    HalveTo(r1, 0, 19, S1());
    assert Carve(S1(), 0, 19) == S1();
    assert Carve(r1, 0, 19) == Carve(S1(), 0, 19);
    assert Carve(r, 0, 19) == Carve(r1, 0, 19);
  }

  lemma Alloc2()
    requires HeapInv(S1(), {})
    ensures Alloc(S1(), QUARTER) == (Some(Q), S2())
  {
    Powers();
    TakeHead(S1(), 19);
    ListsUpdate([Q], [2 * Q], [], []);
    assert Remove(S1(), Q) == S2();
    assert Carve(S2(), Q, 19) == S2();
  }

  lemma Alloc3()
    requires HeapInv(S2(), {})
    ensures Alloc(S2(), QUARTER) == (Some((2 * Q) as nat), S3())
  {
    Powers();
    assert FirstList(S2().lists, 19) == 20;
    TakeHead(S2(), 20);
    ListsUpdate([], [2 * Q], [], []);
    ListsUpdate([], [], [], [3 * Q]);
    var r := Remove(S2(), 2 * Q);
    assert r == Heap(S2().blocks, {}, Lists([], [], []));
    assert [3 * Q] + [] == [3 * Q];
    HalveTo(r, 2 * Q, 19, S3());
    assert Carve(S3(), 2 * Q, 19) == S3();
    assert Carve(r, 2 * Q, 19) == Carve(S3(), 2 * Q, 19);
  }

  lemma Alloc4()
    requires HeapInv(S3(), {})
    ensures Alloc(S3(), QUARTER) == (Some((3 * Q) as nat), S4())
  {
    Powers();
    TakeHead(S3(), 19);
    ListsUpdate([3 * Q], [], [], []);
    assert Remove(S3(), 3 * Q) == S4();
    assert Carve(S4(), 3 * Q, 19) == S4();
  }

  lemma Free1()
    ensures Shaped(S4()) && Free(S4(), 0) == S5()
  {
    Powers();
    ListsUpdate([], [], [], [0]);
    assert [0] + [] == [0];
    var m := MarkFree(S4(), 0);
    assert Twin(m, 0) == Q;
    assert Create(m, 0, 19) == S5();
  }

  lemma Free2()
    ensures Shaped(S5()) && Free(S5(), 2 * Q) == S6()
  {
    Powers();
    ListsUpdate([0], [], [], [2 * Q, 0]);
    assert [2 * Q] + [0] == [2 * Q, 0];
    var m := MarkFree(S5(), 2 * Q);
    assert Twin(m, 2 * Q) == 3 * Q;
    assert Create(m, 2 * Q, 19) == S6();
  }

  // Here the buddy 0 is not the head of its list, so its predecessor 2 * Q loses its FREE mark.
  lemma Free3()
    ensures Shaped(S6()) && Free(S6(), Q) == S7()
  {
    Powers();
    ListsUpdate([2 * Q, 0], [], [], [2 * Q]);
    ListsUpdate([2 * Q], [], [], [0]);
    assert [0] + [] == [0];
    var m := MarkFree(S6(), Q);
    assert Twin(m, Q) == 0 && HasFreeTwin(m, Q);
    assert IndexOf([2 * Q, 0], 0) == 1;
    assert Dropped([2 * Q, 0], 1) == [2 * Q];
    var r := Remove(m, 0);
    assert r == Heap(Quarters, {0, Q}, Lists([2 * Q], [], []));
    var g := MergeStep(m, Q);
    assert g == Heap(S7().blocks, {0}, Lists([2 * Q], [], []));
    assert Twin(g, 0) == 2 * Q;
    assert Create(g, 0, 20) == S7();
    assert FreeLoop(g, 0) == S7();
  }

  lemma Free4()
    ensures Shaped(S7()) && Free(S7(), 3 * Q) == S8()
  {
    Powers();
    ListsUpdate([2 * Q], [0], [], [3 * Q, 2 * Q]);
    assert [3 * Q] + [2 * Q] == [3 * Q, 2 * Q];
    var m := MarkFree(S7(), 3 * Q);
    assert Twin(m, 3 * Q) == 2 * Q;
    assert Create(m, 3 * Q, 19) == S8();
  }

  // es is a legal run from h, holding held, that ends in the given heap with nothing held.
  ghost predicate EndsIn(h: Heap, held: set<nat>, es: seq<Event>, last: Heap) {
    HeapInv(h, {}) && Allocated(h) == held && LegalRun(h, es) && Run(h, held, es) == (last, {})
  }

  lemma AllocHolds(h: Heap, p: nat, g: Heap, held: set<nat>, after: set<nat>)
    requires HeapInv(h, {}) && Allocated(h) == held && Alloc(h, QUARTER) == (Some(p), g) && after == held + {p}
    ensures HeapInv(g, {}) && Allocated(g) == after
  {
    AllocCorrect(h, QUARTER);
  }

  lemma FreeHolds(h: Heap, a: nat, g: Heap, held: set<nat>, after: set<nat>)
    requires HeapInv(h, {}) && Allocated(h) == held && a in held && Shaped(h) && Free(h, a) == g && after == held - {a}
    ensures HeapInv(g, {}) && Allocated(g) == after
  {
    FreeCorrect(h, a);
  }

  lemma AllocRuns(h: Heap, p: nat, g: Heap, held: set<nat>, es: seq<Event>, last: Heap)
    requires HeapInv(h, {}) && Allocated(h) == held && Alloc(h, QUARTER) == (Some(p), g)
    requires EndsIn(g, held + {p}, es, last)
    ensures EndsIn(h, held, [DoAlloc(QUARTER)] + es, last)
  {
    AllocCorrect(h, QUARTER);
    assert ([DoAlloc(QUARTER)] + es)[1..] == es;
  }

  lemma FreeRuns(h: Heap, a: nat, g: Heap, held: set<nat>, es: seq<Event>, last: Heap)
    requires HeapInv(h, {}) && Allocated(h) == held && a in held && Shaped(h) && Free(h, a) == g
    requires EndsIn(g, held - {a}, es, last)
    ensures EndsIn(h, held, [DoFree(a)] + es, last)
  {
    FreeCorrect(h, a);
    assert ([DoFree(a)] + es)[1..] == es;
  }

  const Frees: seq<Event> := [DoFree(0)] + ([DoFree(2 * Q)] + ([DoFree(Q)] + ([DoFree(3 * Q)] + [])))

  const Example: seq<Event> :=
    [DoAlloc(QUARTER)] + ([DoAlloc(QUARTER)] + ([DoAlloc(QUARTER)] + ([DoAlloc(QUARTER)] + Frees)))

  lemma FreesRun(h4: Heap, h5: Heap, h6: Heap, h7: Heap, h8: Heap)
    requires HeapInv(h4, {}) && Allocated(h4) == {0, Q, 2 * Q, 3 * Q}
    requires Shaped(h4) && Free(h4, 0) == h5
    requires Shaped(h5) && 2 * Q in h5.blocks && Free(h5, 2 * Q) == h6
    requires Shaped(h6) && Q in h6.blocks && Free(h6, Q) == h7
    requires Shaped(h7) && 3 * Q in h7.blocks && Free(h7, 3 * Q) == h8
    ensures EndsIn(h4, {0, Q, 2 * Q, 3 * Q}, Frees, h8)
  {
    FreeHolds(h4, 0, h5, {0, Q, 2 * Q, 3 * Q}, {Q, 2 * Q, 3 * Q});
    FreeHolds(h5, 2 * Q, h6, {Q, 2 * Q, 3 * Q}, {Q, 3 * Q});
    FreeHolds(h6, Q, h7, {Q, 3 * Q}, {3 * Q});
    FreeHolds(h7, 3 * Q, h8, {3 * Q}, {});
    FreesEnd(h4, h5, h6, h7, h8);
  }

  lemma FreesEnd(h4: Heap, h5: Heap, h6: Heap, h7: Heap, h8: Heap)
    requires HeapInv(h4, {}) && Allocated(h4) == {0, Q, 2 * Q, 3 * Q}
    requires HeapInv(h5, {}) && Allocated(h5) == {Q, 2 * Q, 3 * Q}
    requires HeapInv(h6, {}) && Allocated(h6) == {Q, 3 * Q}
    requires HeapInv(h7, {}) && Allocated(h7) == {3 * Q}
    requires HeapInv(h8, {}) && Allocated(h8) == {}
    requires Shaped(h4) && Free(h4, 0) == h5
    requires Shaped(h5) && 2 * Q in h5.blocks && Free(h5, 2 * Q) == h6
    requires Shaped(h6) && Q in h6.blocks && Free(h6, Q) == h7
    requires Shaped(h7) && 3 * Q in h7.blocks && Free(h7, 3 * Q) == h8
    ensures EndsIn(h4, {0, Q, 2 * Q, 3 * Q}, Frees, h8)
  {
    assert EndsIn(h8, {}, [], h8);
    FreeRuns(h7, 3 * Q, h8, {3 * Q}, [], h8);
    FreeRuns(h6, Q, h7, {Q, 3 * Q}, [DoFree(3 * Q)] + [], h8);
    FreeRuns(h5, 2 * Q, h6, {Q, 2 * Q, 3 * Q}, [DoFree(Q)] + ([DoFree(3 * Q)] + []), h8);
    FreeRuns(h4, 0, h5, {0, Q, 2 * Q, 3 * Q}, [DoFree(2 * Q)] + ([DoFree(Q)] + ([DoFree(3 * Q)] + [])), h8);
  }

  lemma AllocsRun(h0: Heap, h1: Heap, h2: Heap, h3: Heap, h4: Heap, es: seq<Event>, last: Heap)
    requires HeapInv(h0, {}) && Allocated(h0) == {} && Alloc(h0, QUARTER) == (Some(0), h1)
    requires HeapInv(h1, {}) && Alloc(h1, QUARTER) == (Some(Q), h2)
    requires HeapInv(h2, {}) && Alloc(h2, QUARTER) == (Some((2 * Q) as nat), h3)
    requires HeapInv(h3, {}) && Alloc(h3, QUARTER) == (Some((3 * Q) as nat), h4)
    ensures HeapInv(h4, {}) && Allocated(h4) == {0, Q, 2 * Q, 3 * Q}
    ensures EndsIn(h4, {0, Q, 2 * Q, 3 * Q}, es, last) ==>
      EndsIn(h0, {}, [DoAlloc(QUARTER)] + ([DoAlloc(QUARTER)] + ([DoAlloc(QUARTER)] + ([DoAlloc(QUARTER)] + es))), last)
  {
    AllocHolds(h0, 0, h1, {}, {0});
    AllocHolds(h1, Q, h2, {0}, {0, Q});
    AllocHolds(h2, 2 * Q, h3, {0, Q}, {0, Q, 2 * Q});
    AllocHolds(h3, 3 * Q, h4, {0, Q, 2 * Q}, {0, Q, 2 * Q, 3 * Q});
    if EndsIn(h4, {0, Q, 2 * Q, 3 * Q}, es, last) {
      var es3 := [DoAlloc(QUARTER)] + es;
      AllocRuns(h3, 3 * Q, h4, {0, Q, 2 * Q}, es, last);
      AllocRuns(h2, 2 * Q, h3, {0, Q}, es3, last);
      AllocRuns(h1, Q, h2, {0}, [DoAlloc(QUARTER)] + es3, last);
      AllocRuns(h0, 0, h1, {}, [DoAlloc(QUARTER)] + ([DoAlloc(QUARTER)] + es3), last);
    }
  }

  /** Four quarter-size requests, freed in the order first, third, second, fourth, leave a heap with
      nothing allocated that is not one block again. */
  lemma FreedButNotCoalesced()
    ensures HeapInv(Init(), {}) && LegalRun(Init(), Example)
    ensures Run(Init(), {}, Example).1 == {}
    ensures Run(Init(), {}, Example).0.blocks != map[0 := TOP]
  {
    InitOk();
    Alloc1();
    AllocCorrect(Init(), QUARTER);
    Alloc2();
    AllocCorrect(S1(), QUARTER);
    Alloc3();
    AllocCorrect(S2(), QUARTER);
    Alloc4();
    AllocsRun(Init(), S1(), S2(), S3(), S4(), Frees, S8());
    Free1();
    Free2();
    Free3();
    Free4();
    FreesRun(S4(), S5(), S6(), S7(), S8());
    assert S8().blocks[0] == 20;
  }
}
