/** The buddy allocator of Kernel/memory-manager/buddymm.c as functions on its abstract state:
    the live blocks, the set of those whose header says FREE, and the free lists. */
module BuddyHeap {
  import opened BuddyTiling

  const HEADER_SIZE: nat := 16

  datatype Heap = Heap(blocks: Blocks, free: set<nat>, lists: seq<seq<nat>>)

  datatype Option<+T> = None | Some(value: T)

  // ---------------------------------------------------------------- primitive steps

  function IndexOf(s: seq<nat>, a: nat): (i: nat)
    requires a in s
    ensures i < |s| && s[i] == a && a !in s[..i]
  {
    if s[0] == a then 0 else 1 + IndexOf(s[1..], a)
  }

  function Dropped(s: seq<nat>, i: nat): seq<nat>
    requires i < |s|
  {
    s[..i] + s[i + 1..]
  }

  ghost predicate Distinct(s: seq<nat>) {
    forall i, j :: 0 <= i < j < |s| ==> s[i] != s[j]
  }

  ghost predicate Shaped(h: Heap) {
    && |h.lists| == LISTS
    && forall a :: a in h.blocks ==> h.blocks[a] < LISTS
  }

  /** create_block: writes a FREE header and pushes the block on its list. */
  function Create(h: Heap, a: nat, k: nat): Heap
    requires k < |h.lists|
  {
    Heap(h.blocks[a := k], h.free + {a}, h.lists[k := [a] + h.lists[k]])
  }

  /** remove_block: unlinks the block; the header it marks OCCUPIED is the block's own when the block
      is the head of its list, and otherwise its predecessor's. */
  function Remove(h: Heap, a: nat): Heap
    requires a in h.blocks && h.blocks[a] < |h.lists|
  {
    var k := h.blocks[a];
    var l := h.lists[k];
    if a !in l then h
    else
      var i := IndexOf(l, a);
      h.(lists := h.lists[k := Dropped(l, i)],
         free := h.free - {if i == 0 then a else l[i - 1]})
  }

  /** The part of memory_free that merges the block a, which is on no list, with its FREE buddies. */
  function FreeLoop(h: Heap, a: nat): Heap
    requires Shaped(h) && a in h.blocks
    decreases LISTS - h.blocks[a]
  {
    if HasFreeTwin(h, a) then FreeLoop(MergeStep(h, a), Left(a, Twin(h, a)))
    else Create(h, a, h.blocks[a])
  }

  function Left(a: nat, p: nat): nat { if a < p then a else p }

  function Twin(h: Heap, a: nat): nat
    requires a in h.blocks
  {
    Buddy(a, h.blocks[a])
  }

  // The loop condition of memory_free.
  predicate HasFreeTwin(h: Heap, a: nat)
    requires a in h.blocks
  {
    h.blocks[a] < TOP && Twin(h, a) in h.free && Twin(h, a) in h.blocks && h.blocks[Twin(h, a)] == h.blocks[a]
  }

  function MergeStep(h: Heap, a: nat): (r: Heap)
    requires Shaped(h) && a in h.blocks && HasFreeTwin(h, a)
    ensures Shaped(r) && Left(a, Twin(h, a)) in r.blocks
    ensures r.blocks[Left(a, Twin(h, a))] == h.blocks[a] + 1
  {
    var p := Twin(h, a);
    var g := Remove(h, p);
    Heap(MergeBlocks(g.blocks, a, p), (g.free - {a, p}) + {Left(a, p)}, g.lists)
  }

  function MarkFree(h: Heap, a: nat): Heap { h.(free := h.free + {a}) }

  /** memory_free of an allocated block. */
  function Free(h: Heap, a: nat): Heap
    requires Shaped(h) && a in h.blocks
  {
    FreeLoop(MarkFree(h, a), a)
  }

  /** Halves the block a, which is on no list, and lists the right half. */
  function Halve(h: Heap, a: nat): (r: Heap)
    requires Shaped(h) && a in h.blocks && h.blocks[a] > 0
    ensures Shaped(r) && a in r.blocks && r.blocks[a] == h.blocks[a] - 1
  {
    var k := h.blocks[a] - 1;
    var g := Create(h, a + Pow2(k), k);
    g.(blocks := g.blocks[a := k])
  }

  function Carve(h: Heap, a: nat, k: nat): (r: Heap)
    requires Shaped(h) && a in h.blocks && k <= h.blocks[a]
    ensures Shaped(r) && a in r.blocks && r.blocks[a] == k
    decreases h.blocks[a]
  {
    if h.blocks[a] == k then h else Carve(Halve(h, a), a, k)
  }

  /** The least order, at least MIN_LEVEL and k, whose blocks hold need bytes. */
  function OrderFrom(need: nat, k: nat): (r: nat)
    ensures k <= r && need <= Pow2(r) && (r > k ==> Pow2(r - 1) < need)
    decreases need - Pow2(k)
  {
    if need <= Pow2(k) then k else OrderFrom(need, k + 1)
  }

  function OrderFor(size: nat): nat { OrderFrom(size + HEADER_SIZE, MIN_LEVEL) }

  /** The first list from i on that has a block, or LISTS when there is none. */
  function FirstList(lists: seq<seq<nat>>, i: nat): (r: nat)
    requires |lists| == LISTS
    ensures i <= LISTS ==> i <= r <= LISTS
    ensures r < LISTS ==> lists[r] != []
    ensures forall j :: i <= j < r && j < LISTS ==> lists[j] == []
    decreases LISTS - i
  {
    if i >= LISTS then LISTS
    else if lists[i] != [] then i
    else FirstList(lists, i + 1)
  }

  /** memory_alloc: the block taken and the state it leaves. */
  function Alloc(h: Heap, size: nat): (r: (Option<nat>, Heap))
    requires HeapInv(h, {})
  {
    var j := FirstList(h.lists, OrderFor(size));
    if size == 0 || size > RegionEnd() || j >= LISTS then (None, h)
    else
      InvShaped(h, {});
      assert ListOk(h, j);
      (Some(h.lists[j][0]), Carve(Remove(h, h.lists[j][0]), h.lists[j][0], OrderFor(size)))
  }

  // ---------------------------------------------------------------- the invariant

  predicate Listed(h: Heap, a: nat) {
    a in h.blocks && h.blocks[a] < |h.lists| && a in h.lists[h.blocks[a]]
  }

  ghost predicate ListOk(h: Heap, k: nat)
    requires k < |h.lists|
  {
    && (forall i :: 0 <= i < |h.lists[k]| ==> h.lists[k][i] in h.blocks && h.blocks[h.lists[k][i]] == k)
    && Distinct(h.lists[k])
  }

  // A FREE header is on its list, and its buddy of the same order is not FREE as well.
  ghost predicate FreeOk(h: Heap, exempt: set<nat>, a: nat) {
    a in h.free && a !in exempt ==>
      && Listed(h, a)
      && (HasFreeTwin(h, a) ==> Twin(h, a) in exempt)
  }

  /** The blocks tile the region; each list holds distinct blocks of its own order; outside the exempt
      blocks, whatever is marked FREE is listed and no two equal buddies are both marked FREE. */
  ghost predicate HeapInv(h: Heap, exempt: set<nat>) {
    && |h.lists| == LISTS
    && Tiling(h.blocks)
    && h.free <= h.blocks.Keys
    && (forall k {:trigger ListOk(h, k)} :: 0 <= k < LISTS ==> ListOk(h, k))
    && (forall a {:trigger FreeOk(h, exempt, a)} :: FreeOk(h, exempt, a))
  }

  lemma InvShaped(h: Heap, exempt: set<nat>)
    requires HeapInv(h, exempt)
    ensures Shaped(h)
  {
    forall a | a in h.blocks
      ensures h.blocks[a] < LISTS
    {
      assert BlockOk(h.blocks, a);
    }
  }

  function Allocated(h: Heap): set<nat> { set a | a in h.blocks && !Listed(h, a) }
}
