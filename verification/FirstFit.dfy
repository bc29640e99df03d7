/** The first-fit allocator over a growing table of fragments (Kernel/memory-manager/memory-manager.c). */
module FirstFit {

  const MEMORY_START: nat := 0x600000
  const MEMORY_END: nat := 0x800000
  const WORD: nat := 0x1_0000_0000_0000_0000

  // Addition and subtraction of 64-bit words.
  function Plus(x: nat, y: nat): (r: nat)
    requires x < WORD && y < WORD
    ensures r < WORD
  {
    if x + y < WORD then x + y else x + y - WORD
  }

  function Minus(x: nat, y: nat): (r: nat)
    requires x < WORD && y < WORD
    ensures r < WORD
  {
    if y <= x then x - y else x - y + WORD
  }

  /** Rounds up to a multiple of 8; the sum wraps around for the last few words. */
  function Align(x: nat): (r: nat)
    requires x < WORD
    ensures r % 8 == 0 && r < WORD && (x + 7 < WORD ==> x <= r < x + 8)
  {
    Plus(x, 7) / 8 * 8
  }

  datatype Fragment = Fragment(start: nat, size: nat, used: bool)

  /** The table, the start of the fragment it will grow by, and the count of bytes in use. */
  datatype Heap = Heap(frames: seq<Fragment>, next: nat, usedMemory: nat)

  predicate Words(h: Heap) {
    h.next < WORD && h.usedMemory < WORD && forall i :: 0 <= i < |h.frames| ==> h.frames[i].start < WORD && h.frames[i].size < WORD
  }

  function StartAt(h: Heap, i: nat): nat
    requires i <= |h.frames|
  {
    if i < |h.frames| then h.frames[i].start else h.next
  }

  // The search of memory_alloc from fragment i on: where it stops, or -1 past the end of memory.
  function Search(h: Heap, need: nat, i: nat): (r: int)
    requires i <= |h.frames|
    ensures -1 <= r <= |h.frames|
    decreases |h.frames| - i
  {
    if i < |h.frames| && h.frames[i].used then Search(h, need, i + 1)
    else if StartAt(h, i) > MEMORY_END then -1
    else if i == |h.frames| || h.frames[i].size >= need then i
    else Search(h, need, i + 1)
  }

  // The fragment moved up to a multiple of 8, at the cost of its size.
  function Realigned(f: Fragment): Fragment
    requires f.start < WORD && f.size < WORD
  {
    f.(start := Align(f.start), size := Minus(f.size, Minus(Align(f.start), f.start)))
  }

  function Take(h: Heap, i: nat): (r: (Heap, nat))
    requires i < |h.frames| && Words(h)
    ensures Words(r.0)
  {
    var f := if h.frames[i].start == Align(h.frames[i].start) then h.frames[i] else Realigned(h.frames[i]);
    (h.(frames := h.frames[i := f.(used := true)], usedMemory := Plus(h.usedMemory, f.size)), f.start)
  }

  // The table grows by a fragment, not yet in use.
  function Grow(h: Heap, need: nat): (r: Heap)
    requires Words(h) && need < WORD
    ensures Words(r)
  {
    var start := Align(h.next);
    Heap(h.frames + [Fragment(start, need, false)], Plus(start, need), h.usedMemory)
  }

  /** memory_alloc; 0 stands for NULL. */
  function Alloc(h: Heap, size: nat): (r: (Heap, nat))
    requires Words(h) && size < WORD
    ensures Words(r.0)
  {
    if size == 0 then (h, 0)
    else
      var i := Search(h, Align(size), 0);
      if i == -1 then (h, 0)
      else if i == |h.frames| then Take(Grow(h, Align(size)), i)
      else Take(h, i)
  }

  // The first fragment from i on that starts at ptr, or the size of the table.
  function Find(frames: seq<Fragment>, ptr: nat, i: nat): (r: nat)
    requires i <= |frames|
    ensures i <= r <= |frames| && (r < |frames| ==> frames[r].start == ptr)
    ensures forall j :: i <= j < r ==> frames[j].start != ptr
    decreases |frames| - i
  {
    if i == |frames| || frames[i].start == ptr then i else Find(frames, ptr, i + 1)
  }

  /** memory_free */
  function Free(h: Heap, ptr: nat): (r: (Heap, int))
    requires Words(h)
    ensures Words(r.0)
  {
    var i := Find(h.frames, ptr, 0);
    if ptr == 0 || i == |h.frames| then (h, -1)
    else (h.(frames := h.frames[i := h.frames[i].(used := false)], usedMemory := Minus(h.usedMemory, h.frames[i].size)), 0)
  }

  /** memory_manager_init, given where the managed memory starts. */
  function Init(managed: nat): Heap
    requires managed < WORD
  {
    Heap([], Align(managed), 0)
  }

  // ---------------------------------------------------------------- the invariant

  function UsedSum(frames: seq<Fragment>): nat {
    if frames == [] then 0 else (if frames[0].used then frames[0].size else 0) + UsedSum(frames[1..])
  }

  function LiveCount(frames: seq<Fragment>): (n: nat)
    ensures n <= |frames|
    ensures n == |frames| <==> forall i :: 0 <= i < |frames| ==> frames[i].used
  {
    if frames == [] then 0
    else
      assert frames == [frames[0]] + frames[1..];
      (if frames[0].used then 1 else 0) + LiveCount(frames[1..])
  }

  predicate FragmentOk(f: Fragment) {
    f.start % 8 == 0 && f.size % 8 == 0 && f.size > 0 && f.start <= MEMORY_END
  }

  // The fragment after i, or the one to come, starts where fragment i ends.
  predicate NoGap(h: Heap, i: nat)
    requires i < |h.frames|
  {
    StartAt(h, i + 1) == h.frames[i].start + h.frames[i].size
  }

  ghost predicate Contiguous(h: Heap) {
    forall i {:trigger NoGap(h, i)} :: 0 <= i < |h.frames| ==> NoGap(h, i)
  }

  /** Fragments follow each other without a gap, are aligned, not empty and inside the memory, and the bytes
      in use are counted. */
  ghost predicate Inv(h: Heap) {
    && Words(h) && Contiguous(h) && h.next % 8 == 0 && 0 < StartAt(h, 0)
    && (forall i :: 0 <= i < |h.frames| ==> FragmentOk(h.frames[i]))
    && h.usedMemory == UsedSum(h.frames)
  }

  lemma {:induction false} SumUpdate(frames: seq<Fragment>, i: nat, f: Fragment)
    requires i < |frames|
    ensures UsedSum(frames[i := f]) == UsedSum(frames) - (if frames[i].used then frames[i].size else 0) + (if f.used then f.size else 0)
    ensures LiveCount(frames[i := f]) == LiveCount(frames) - (if frames[i].used then 1 else 0) + (if f.used then 1 else 0)
    decreases |frames|
  {
    if i == 0 {
      assert frames[i := f][1..] == frames[1..];
    } else {
      assert frames[i := f][1..] == frames[1..][i - 1 := f];
      SumUpdate(frames[1..], i - 1, f);
    }
  }

  lemma {:induction false} SumAppend(frames: seq<Fragment>, f: Fragment)
    requires !f.used
    ensures UsedSum(frames + [f]) == UsedSum(frames) && LiveCount(frames + [f]) == LiveCount(frames)
    decreases |frames|
  {
    if frames != [] {
      assert (frames + [f])[1..] == frames[1..] + [f];
      SumAppend(frames[1..], f);
    } else {
      assert (frames + [f])[1..] == [];
    }
  }

  // The bytes in use among the first n fragments lie before the start of the next.
  lemma {:induction false} SumFits(h: Heap, n: nat)
    requires Contiguous(h) && n <= |h.frames|
    ensures UsedSum(h.frames[..n]) + StartAt(h, 0) <= StartAt(h, n)
    decreases n
  {
    if n > 0 {
      SumFits(h, n - 1);
      assert h.frames[..n] == h.frames[..n - 1] + [h.frames[n - 1]];
      SumLast(h.frames[..n - 1], h.frames[n - 1]);
      assert NoGap(h, n - 1);
    }
  }

  lemma {:induction false} SumLast(frames: seq<Fragment>, f: Fragment)
    ensures UsedSum(frames + [f]) == UsedSum(frames) + (if f.used then f.size else 0)
    decreases |frames|
  {
    if frames != [] {
      assert (frames + [f])[1..] == frames[1..] + [f];
      SumLast(frames[1..], f);
    } else {
      assert (frames + [f])[1..] == [];
    }
  }

  // Starts grow along the table.
  lemma {:induction false} StartsGrow(h: Heap, i: nat, j: nat)
    requires Contiguous(h) && i <= j <= |h.frames| && forall l :: 0 <= l < |h.frames| ==> h.frames[l].size > 0
    ensures StartAt(h, i) + (j - i) <= StartAt(h, j)
    decreases j - i
  {
    if i < j {
      StartsGrow(h, i, j - 1);
      assert NoGap(h, j - 1);
    }
  }

  // ---------------------------------------------------------------- allocation

  /** The search stops at the lowest fragment that is free and fits; it goes past the table only when none
      does, and gives up exactly when the table already reaches past the end of memory. */
  lemma {:induction false} SearchFinds(h: Heap, need: nat, i: nat)
    requires Inv(h) && i <= |h.frames|
    ensures var r := Search(h, need, i);
      && (forall j :: i <= j < (if r == -1 then |h.frames| else r) ==> h.frames[j].used || h.frames[j].size < need)
      && (r == -1 ==> h.next > MEMORY_END)
      && (0 <= r < |h.frames| ==> i <= r && !h.frames[r].used && h.frames[r].size >= need)
      && (r == |h.frames| ==> h.next <= MEMORY_END)
    decreases |h.frames| - i
  {
    if i < |h.frames| && (h.frames[i].used || h.frames[i].size < need) {
      SearchFinds(h, need, i + 1);
    }
  }

  lemma AlignedStays(x: nat)
    requires x < WORD && x % 8 == 0
    ensures Align(x) == x
  {
    assert x + 7 < WORD;
  }

  /** The table may grow by this much without running past the 64 bits of an address. */
  predicate CanGrow(h: Heap, need: nat) { h.next + need < WORD }

  /** Growing keeps the table contiguous exactly when the new end does not wrap around; no fragment is ever
      moved to be aligned. */
  lemma GrowKeepsContiguousExactlyWhen(h: Heap, need: nat)
    requires Inv(h) && need < WORD && need > 0 && need % 8 == 0
    ensures Contiguous(Grow(h, need)) <==> CanGrow(h, need)
    ensures Align(h.next) == h.next
  {
    var r := Grow(h, need);
    AlignedStays(h.next);
    assert StartAt(r, |h.frames| + 1) == Plus(h.next, need);
    if CanGrow(h, need) {
      forall i | 0 <= i < |r.frames|
        ensures NoGap(r, i)
      {
        assert i < |h.frames| ==> NoGap(h, i);
      }
    } else {
      assert !NoGap(r, |h.frames|);
    }
  }

  lemma GrowIs(h: Heap, need: nat)
    requires Inv(h) && 0 < need < WORD && need % 8 == 0 && CanGrow(h, need)
    ensures Grow(h, need) == Heap(h.frames + [Fragment(h.next, need, false)], h.next + need, h.usedMemory)
    ensures Contiguous(Grow(h, need))
  {
    AlignedStays(h.next);
    GrowKeepsContiguousExactlyWhen(h, need);
  }

  lemma GrowKeeps(h: Heap, need: nat, r: Heap)
    requires Inv(h) && 0 < need < WORD && need % 8 == 0 && CanGrow(h, need) && h.next <= MEMORY_END
    requires r == Heap(h.frames + [Fragment(h.next, need, false)], h.next + need, h.usedMemory) && Contiguous(r)
    ensures Inv(r) && Extends(h, r)
  {
    SumAppend(h.frames, Fragment(h.next, need, false));
    forall i | 0 <= i < |r.frames|
      ensures FragmentOk(r.frames[i])
    {
      assert i < |h.frames| ==> FragmentOk(h.frames[i]);
    }
  }

  lemma TakeIs(h: Heap, i: nat)
    requires Inv(h) && i < |h.frames| && !h.frames[i].used
    ensures var (r, p) := Take(h, i);
      p == h.frames[i].start && r.frames == h.frames[i := h.frames[i].(used := true)] && r.next == h.next
    ensures Take(h, i).0.usedMemory == Plus(h.usedMemory, h.frames[i].size)
  {
    assert FragmentOk(h.frames[i]);
    AlignedStays(h.frames[i].start);
  }

  // Marking a fragment keeps the invariant, if the count follows.
  lemma MarkKeeps(h: Heap, r: Heap, i: nat)
    requires Inv(h) && Words(r) && i < |h.frames| && r.next == h.next && |r.frames| == |h.frames|
    requires r.frames == h.frames[i := h.frames[i].(used := r.frames[i].used)] && r.usedMemory == UsedSum(r.frames)
    ensures Inv(r) && Extends(h, r)
  {
    MarkKeepsContiguous(h, r, i);
    forall j | 0 <= j < |r.frames|
      ensures FragmentOk(r.frames[j])
    {
      assert FragmentOk(h.frames[j]);
    }
  }

  /** Taking a free fragment changes nothing in the table but its mark. */
  lemma TakeKeeps(h: Heap, i: nat)
    requires Inv(h) && i < |h.frames| && !h.frames[i].used
    ensures Inv(Take(h, i).0) && Take(h, i).1 == h.frames[i].start
    ensures Take(h, i).0.frames == h.frames[i := h.frames[i].(used := true)] && Take(h, i).0.next == h.next
  {
    var r := Take(h, i).0;
    TakeIs(h, i);
    SumUpdate(h.frames, i, h.frames[i].(used := true));
    MarkKeepsContiguous(h, r, i);
    SumFits(r, |r.frames|);
    assert r.frames[..|r.frames|] == r.frames;
    MarkKeeps(h, r, i);
  }

  lemma MarkKeepsContiguous(h: Heap, r: Heap, i: nat)
    requires Contiguous(h) && i < |h.frames| && r.next == h.next && |r.frames| == |h.frames|
    requires r.frames == h.frames[i := h.frames[i].(used := r.frames[i].used)]
    ensures Contiguous(r)
  {
    forall j | 0 <= j < |r.frames|
      ensures NoGap(r, j)
    {
      assert NoGap(h, j);
    }
  }

  /** What a caller must not ask for: so much that the size, or the end of memory, wraps around. */
  predicate Sane(h: Heap, size: nat) { size + 7 < WORD && CanGrow(h, size + 7) }

  // The fragments of h, but for the marks, are the first of r.
  ghost predicate Extends(h: Heap, r: Heap) {
    |h.frames| <= |r.frames| && forall i :: 0 <= i < |h.frames| ==> r.frames[i].start == h.frames[i].start && r.frames[i].size == h.frames[i].size
  }

  /** An allocation takes the lowest free fragment that fits, or a new one when none does; it fails exactly
      for size 0, or when none fits and the table reaches past the end of memory. */
  lemma AllocIsFirstFit(h: Heap, size: nat)
    requires Inv(h) && size < WORD && (size > 0 ==> Sane(h, size))
    ensures var (r, p) := Alloc(h, size); Inv(r) && Extends(h, r)
    ensures var (r, p) := Alloc(h, size); var need := Align(size);
      p == 0 <==> size == 0 || (h.next > MEMORY_END && forall j :: 0 <= j < |h.frames| ==> h.frames[j].used || h.frames[j].size < need)
    ensures var (r, p) := Alloc(h, size); p == 0 ==> r == h
    ensures var (r, p) := Alloc(h, size); p != 0 ==> exists i: nat :: TakenAt(h, r, p, Align(size), i)
  {
    var need := Align(size);
    var i := Search(h, need, 0);
    SearchFinds(h, need, 0);
    StartsGrow(h, 0, |h.frames|);
    if size == 0 {
      assert Alloc(h, size) == (h, 0);
    } else if i == |h.frames| {
      GrowIs(h, need);
      GrowKeeps(h, need, Grow(h, need));
      TakeKeeps(Grow(h, need), i);
      assert TakenAt(h, Alloc(h, size).0, Alloc(h, size).1, need, i);
    } else if i != -1 {
      TakeKeeps(h, i);
      StartsGrow(h, 0, i);
      assert TakenAt(h, Alloc(h, size).0, Alloc(h, size).1, need, i);
    }
  }

  /** Fragment i was the first free one of at least need bytes, or was added because there was none. */
  ghost predicate TakenAt(h: Heap, r: Heap, p: nat, need: nat, i: nat) {
    && i < |r.frames| && r.frames[i].start == p && r.frames[i].used && r.frames[i].size >= need
    && (forall j :: 0 <= j < i && j < |h.frames| ==> h.frames[j].used || h.frames[j].size < need)
    && (i < |h.frames| ==> !h.frames[i].used && |r.frames| == |h.frames|)
    && (i >= |h.frames| ==> i == |h.frames| && |r.frames| == |h.frames| + 1 && r.frames[i].size == need)
    && (forall j :: 0 <= j < |h.frames| && j != i ==> r.frames[j] == h.frames[j])
  }

  /** Live blocks never overlap. */
  lemma LiveBlocksDisjoint(h: Heap, i: nat, j: nat)
    requires Inv(h) && i < j < |h.frames|
    ensures h.frames[i].start + h.frames[i].size <= h.frames[j].start
  {
    assert NoGap(h, i);
    StartsGrow(h, i + 1, j);
  }

  // ---------------------------------------------------------------- release

  /** Releasing a block in use gives back exactly that fragment. */
  lemma FreeReleases(h: Heap, i: nat)
    requires Inv(h) && i < |h.frames| && h.frames[i].used
    ensures var (r, code) := Free(h, h.frames[i].start);
      code == 0 && Inv(r) && Extends(h, r) && r.frames == h.frames[i := h.frames[i].(used := false)] && r.next == h.next
  {
    var p := h.frames[i].start;
    var k := Find(h.frames, p, 0);
    assert FragmentOk(h.frames[i]);
    StartsGrow(h, 0, i);
    if k < i {
      StartsGrow(h, k, i);
    }
    var r := Free(h, p).0;
    SumUpdate(h.frames, i, h.frames[i].(used := false));
    MarkKeeps(h, r, i);
  }

  /** A release keeps the count of bytes in use right exactly when its block was in use, or unknown. */
  lemma FreeCountsExactlyWhen(h: Heap, p: nat)
    requires Inv(h)
    ensures var i := Find(h.frames, p, 0); var r := Free(h, p).0;
      r.usedMemory == UsedSum(r.frames) <==> p == 0 || i == |h.frames| || h.frames[i].used
  {
    var i := Find(h.frames, p, 0);
    if p != 0 && i < |h.frames| {
      SumUpdate(h.frames, i, h.frames[i].(used := false));
    }
  }

  // ---------------------------------------------------------------- runs

  datatype Event = Request(size: nat) | Release(ptr: nat)

  /** Requests that do not wrap around, and releases of blocks in use. */
  ghost predicate Legal(h: Heap, e: Event)
    requires Words(h)
  {
    match e
    case Request(size) => size < WORD && (size > 0 ==> Sane(h, size))
    case Release(ptr) => exists i :: 0 <= i < |h.frames| && h.frames[i].start == ptr && h.frames[i].used
  }

  function Apply(h: Heap, e: Event): (r: Heap)
    requires Words(h) && (e.Request? ==> e.size < WORD)
    ensures Words(r)
  {
    match e
    case Request(size) => Alloc(h, size).0
    case Release(ptr) => Free(h, ptr).0
  }

  ghost predicate LegalRun(h: Heap, es: seq<Event>)
    requires Words(h)
    decreases |es|
  {
    es == [] || (Legal(h, es[0]) && LegalRun(Apply(h, es[0]), es[1..]))
  }

  ghost function Run(h: Heap, es: seq<Event>): (r: Heap)
    requires Words(h) && LegalRun(h, es)
    ensures Words(r)
    decreases |es|
  {
    if es == [] then h else Run(Apply(h, es[0]), es[1..])
  }

  lemma StepKeeps(h: Heap, e: Event)
    requires Inv(h) && Legal(h, e)
    ensures Inv(Apply(h, e)) && Extends(h, Apply(h, e))
  {
    match e {
      case Request(size) => AllocIsFirstFit(h, size);
      case Release(ptr) =>
        var i :| 0 <= i < |h.frames| && h.frames[i].start == ptr && h.frames[i].used;
        FreeReleases(h, i);
    }
  }

  /** Over any run fragments stay where they are, contiguous, aligned and apart, and the bytes in use are
      the sum of the sizes in use. */
  lemma {:induction false} RunKeeps(h: Heap, es: seq<Event>)
    requires Inv(h) && LegalRun(h, es)
    ensures Inv(Run(h, es)) && Extends(h, Run(h, es))
    decreases |es|
  {
    if es != [] {
      StepKeeps(h, es[0]);
      RunKeeps(Apply(h, es[0]), es[1..]);
    }
  }

  lemma InitIsOk(managed: nat)
    requires 0 < managed && managed + 7 < WORD
    ensures Inv(Init(managed))
  {
  }

  // ---------------------------------------------------------------- equal sizes

  ghost predicate AllOf(h: Heap, need: nat) {
    forall i :: 0 <= i < |h.frames| ==> h.frames[i].size == need
  }

  ghost predicate EqualRequests(es: seq<Event>, need: nat) {
    forall j :: 0 <= j < |es| && es[j].Request? ==> es[j].size < WORD && Align(es[j].size) == need
  }

  function Max(a: nat, b: nat): nat { if a >= b then a else b }

  /** The most blocks live at once in any state of the run. */
  ghost function Peak(h: Heap, es: seq<Event>): nat
    requires Words(h) && LegalRun(h, es)
    decreases |es|
  {
    if es == [] then LiveCount(h.frames) else Max(LiveCount(h.frames), Peak(Apply(h, es[0]), es[1..]))
  }

  // One step with requests of one size: the table grows only to the number of live blocks.
  lemma EqualStep(h: Heap, e: Event, need: nat)
    requires Inv(h) && AllOf(h, need) && Legal(h, e) && (e.Request? ==> Align(e.size) == need)
    ensures var r := Apply(h, e); AllOf(r, need) && |r.frames| == Max(|h.frames|, LiveCount(r.frames))
  {
    var r := Apply(h, e);
    match e {
      case Request(size) =>
        AllocIsFirstFit(h, size);
        SearchFinds(h, need, 0);
        if |r.frames| > |h.frames| {
          assert forall i :: 0 <= i < |r.frames| ==> r.frames[i].used;
        }
      case Release(ptr) => StepKeeps(h, e);
    }
  }

  lemma {:induction false} EqualRun(h: Heap, es: seq<Event>, need: nat)
    requires Inv(h) && AllOf(h, need) && LegalRun(h, es) && EqualRequests(es, need)
    ensures |Run(h, es).frames| == Max(|h.frames|, Peak(h, es))
    decreases |es|
  {
    if es != [] {
      EqualStep(h, es[0], need);
      StepKeeps(h, es[0]);
      EqualRun(Apply(h, es[0]), es[1..], need);
    }
  }

  /** With requests of one size the table is exactly as long as the most blocks that were live at once. */
  lemma EqualSizesNeverFragment(managed: nat, es: seq<Event>, need: nat)
    requires 0 < managed && managed + 7 < WORD && LegalRun(Init(managed), es) && EqualRequests(es, need)
    ensures |Run(Init(managed), es).frames| == Peak(Init(managed), es)
  {
    InitIsOk(managed);
    EqualRun(Init(managed), es, need);
  }

  /** The last block may reach past the end of memory: only its start is checked. */
  lemma LastBlockOverrunsExactlyWhen(h: Heap, size: nat)
    requires Inv(h) && 0 < size < WORD && Sane(h, size) && h.next <= MEMORY_END
    requires forall j :: 0 <= j < |h.frames| ==> h.frames[j].used || h.frames[j].size < Align(size)
    ensures var (r, p) := Alloc(h, size);
      p == h.next && (r.next > MEMORY_END <==> MEMORY_END - h.next < Align(size))
  {
    AllocIsFirstFit(h, size);
    SearchFinds(h, Align(size), 0);
    AlignedStays(h.next);
  }

  // ---------------------------------------------------------------- the manager

  /** The allocator as it is written: the table and its counters updated in place. */
  class Manager {
    var frames: seq<Fragment>
    var next: nat
    var usedMemory: nat

    ghost function Abs(): Heap
      reads this
    {
      Heap(frames, next, usedMemory)
    }

    constructor (managed: nat)
      requires managed < WORD
      ensures Abs() == Init(managed)
    {
      frames, next, usedMemory := [], Align(managed), 0;
    }

    // The search, which skips used fragments in an inner loop.
    method SearchFragment(need: nat) returns (r: int)
      ensures r == Search(Abs(), need, 0)
    {
      var i: nat := 0;
      while true
        invariant i <= |frames| && Search(Abs(), need, 0) == Search(Abs(), need, i)
        decreases |frames| - i
      {
        while i < |frames| && frames[i].used
          invariant i <= |frames| && Search(Abs(), need, 0) == Search(Abs(), need, i)
        {
          i := i + 1;
        }
        if (if i < |frames| then frames[i].start else next) > MEMORY_END {
          return -1;
        }
        if i == |frames| || frames[i].size >= need {
          return i;
        }
        i := i + 1;
      }
    }

    method MemoryAlloc(size: nat) returns (p: nat)
      requires Words(Abs()) && size < WORD
      modifies this
      ensures (Abs(), p) == Alloc(old(Abs()), size)
    {
      if size == 0 {
        return 0;
      }
      var need := Align(size);
      var i := SearchFragment(need);
      if i == -1 {
        return 0;
      }
      if i == |frames| {
        var start := Align(next);
        frames := frames + [Fragment(start, need, false)];
        next := Plus(start, need);
      }
      var f := frames[i];
      if Align(f.start) != f.start {
        f := f.(start := Align(f.start), size := Minus(f.size, Minus(Align(f.start), f.start)));
      }
      p := f.start;
      frames := frames[i := f.(used := true)];
      usedMemory := Plus(usedMemory, f.size);
    }

    method MemoryFree(ptr: nat) returns (r: int)
      requires Words(Abs())
      modifies this
      ensures (Abs(), r) == Free(old(Abs()), ptr)
    {
      if ptr == 0 {
        return -1;
      }
      var i := 0;
      while i < |frames|
        invariant i <= |frames| && Find(frames, ptr, 0) == Find(frames, ptr, i)
        invariant Abs() == old(Abs())
      {
        if frames[i].start == ptr {
          usedMemory := Minus(usedMemory, frames[i].size);
          frames := frames[i := frames[i].(used := false)];
          return 0;
        }
        i := i + 1;
      }
      r := -1;
    }

    /** memory_state_get: on legal runs the free bytes are the whole memory less the blocks in use. */
    method MemoryStateGet() returns (total: nat, used: nat, free: nat)
      requires Words(Abs())
      ensures total == MEMORY_END - MEMORY_START && used == usedMemory && free == Minus(total, used)
      ensures Inv(Abs()) && UsedSum(frames) <= total ==> free + UsedSum(frames) == total
    {
      total, used := MEMORY_END - MEMORY_START, usedMemory;
      free := Minus(total, used);
    }
  }
}
