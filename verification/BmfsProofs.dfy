/** BMFS places files in the lowest gap, and files survive each other, exactly as long as deleted records
    and a full directory do not mislead it. */
module BmfsProofs {
  import opened Bmfs

  function EndOf(r: Record): nat { r.start + r.reserved }

  predicate Live(dir: seq<Record>, i: nat) {
    i < |dir| && i < End(dir) && !IsDeleted(dir[i])
  }

  predicate NameOk(name: string) { name != "" && name[0] != DELETED }

  /** The blocks of a record lie between the first and the last block of the disk, and hold its bytes. */
  predicate RecordOk(r: Record, blocks: nat) {
    1 <= r.start && 1 <= r.reserved && EndOf(r) + 1 <= blocks && r.size <= r.reserved * BLOCK
  }

  // Two files share no block and no name.
  predicate Apart(a: Record, b: Record) {
    (EndOf(a) <= b.start || EndOf(b) <= a.start) && a.name != b.name
  }

  /** All records are or were in bounds, and the files are pairwise disjoint and differently named. */
  ghost predicate FilesOk(dir: seq<Record>, blocks: nat) {
    && |dir| == ENTRIES
    && (forall i :: 0 <= i < End(dir) ==> RecordOk(dir[i], blocks))
    && (forall i, j {:trigger Live(dir, i), Live(dir, j)} :: 0 <= i < j && Live(dir, i) && Live(dir, j) ==> Apart(dir[i], dir[j]))
  }

  /** A file of so many blocks could start at s: the blocks are in bounds and no file has them. */
  ghost predicate FreeAt(dir: seq<Record>, blocks: nat, requested: nat, s: nat) {
    && 1 <= s && s + requested + 1 <= blocks
    && forall i {:trigger Live(dir, i)} :: 0 <= i && Live(dir, i) ==> s + requested <= dir[i].start || EndOf(dir[i]) <= s
  }

  ghost predicate SomeGap(dir: seq<Record>, blocks: nat, requested: nat) {
    exists s :: FreeAt(dir, blocks, requested, s)
  }

  ghost predicate LeastFree(dir: seq<Record>, blocks: nat, requested: nat, s: nat) {
    FreeAt(dir, blocks, requested, s) && forall t :: FreeAt(dir, blocks, requested, t) ==> s <= t
  }

  // ---------------------------------------------------------------- lookups

  lemma {:induction false} EndIsFrom(dir: seq<Record>, n: nat, i: nat)
    requires i <= n <= |dir| && (n < |dir| ==> IsEnd(dir[n])) && forall j :: i <= j < n ==> !IsEnd(dir[j])
    ensures EndFrom(dir, i) == n
    decreases |dir| - i
  {
    if i < n {
      EndIsFrom(dir, n, i + 1);
    }
  }

  lemma {:induction false} FindIsFrom(dir: seq<Record>, name: string, r: nat, i: nat)
    requires i <= r < EndFrom(dir, 0) && !IsDeleted(dir[r]) && dir[r].name == name
    requires forall j :: i <= j < r ==> IsDeleted(dir[j]) || dir[j].name != name
    ensures FindFrom(dir, name, i) == r
    decreases |dir| - i
  {
    if i < r {
      FindIsFrom(dir, name, r, i + 1);
    }
  }

  lemma {:induction false} FindStopsFrom(dir: seq<Record>, name: string, i: nat)
    requires i <= EndFrom(dir, 0)
    ensures FindFrom(dir, name, i) < |dir| ==> FindFrom(dir, name, i) < EndFrom(dir, 0)
    ensures FindFrom(dir, name, i) == |dir| ==> forall j :: i <= j < EndFrom(dir, 0) ==> IsDeleted(dir[j]) || dir[j].name != name
    decreases |dir| - i
  {
    if i < EndFrom(dir, 0) && !(!IsDeleted(dir[i]) && dir[i].name == name) {
      FindStopsFrom(dir, name, i + 1);
    }
  }

  /** findfile finds the live file of a name, if there is one. */
  lemma FindFinds(dir: seq<Record>, blocks: nat, name: string, i: nat)
    requires FilesOk(dir, blocks) && Live(dir, i) && dir[i].name == name
    ensures Find(dir, name) == i
  {
    forall j | 0 <= j < i
      ensures IsDeleted(dir[j]) || dir[j].name != name
    {
      assert !IsDeleted(dir[j]) ==> Live(dir, j);
    }
    FindIsFrom(dir, name, i, 0);
  }

  lemma FindIsLive(dir: seq<Record>, name: string)
    ensures Find(dir, name) < |dir| ==> Live(dir, Find(dir, name))
    ensures Find(dir, name) == |dir| ==> forall j {:trigger Live(dir, j)} :: 0 <= j && Live(dir, j) ==> dir[j].name != name
  {
    FindStopsFrom(dir, name, 0);
  }

  // ---------------------------------------------------------------- the scan over the gaps

  // A deleted record whose old end leaves enough blocks up to the last one.
  predicate StaleRoom(dir: seq<Record>, blocks: nat, requested: nat, j: nat) {
    j < |dir| && j < End(dir) && IsDeleted(dir[j]) && EndOf(dir[j]) + requested + 1 <= blocks
  }

  ghost predicate SomeStaleRoom(dir: seq<Record>, blocks: nat, requested: nat) {
    exists j: nat :: StaleRoom(dir, blocks, requested, j)
  }

  ghost predicate ScanOk(dir: seq<Record>, order: seq<nat>, i: nat, blocks: nat) {
    FilesOk(dir, blocks) && blocks < WORD && IsOrder(dir, End(dir), order) && i <= |order|
  }

  // The first i records in order are files, and prev is past them all and before all others.
  ghost predicate Passed(dir: seq<Record>, order: seq<nat>, i: nat, prev: nat, blocks: nat)
    requires ScanOk(dir, order, i, blocks)
  {
    && 1 <= prev && prev + 1 <= blocks
    && (forall k :: 0 <= k < i ==> !IsDeleted(dir[order[k]]) && EndOf(dir[order[k]]) <= prev)
    && (forall k :: i <= k < |order| && !IsDeleted(dir[order[k]]) ==> prev <= dir[order[k]].start)
  }

  lemma ScanWellFormed(dir: seq<Record>, order: seq<nat>, i: nat, blocks: nat)
    requires ScanOk(dir, order, i, blocks)
    ensures forall k :: 0 <= k < |order| ==> RecordOk(dir[order[k]], blocks)
  {
    forall k | 0 <= k < |order|
      ensures RecordOk(dir[order[k]], blocks)
    {
      assert order[k] < End(dir);
    }
  }

  lemma GapIsFree(dir: seq<Record>, order: seq<nat>, i: nat, prev: nat, blocks: nat, requested: nat)
    requires ScanOk(dir, order, i, blocks) && Passed(dir, order, i, prev, blocks)
    requires prev + requested <= (if i == |order| || IsDeleted(dir[order[i]]) then blocks - 1 else dir[order[i]].start)
    ensures FreeAt(dir, blocks, requested, prev)
  {
    ScanWellFormed(dir, order, i, blocks);
    forall j | 0 <= j && Live(dir, j)
      ensures prev + requested <= dir[j].start || EndOf(dir[j]) <= prev
    {
      assert j in order;
      var k :| 0 <= k < |order| && order[k] == j;
      if k > i {
        assert InOrder(dir[order[i]], dir[order[k]]);
      }
    }
  }

  // A file passes the i-th record: whatever starts at or after prev and is free starts after it.
  lemma NoGapBefore(dir: seq<Record>, order: seq<nat>, i: nat, prev: nat, blocks: nat, requested: nat)
    requires ScanOk(dir, order, i, blocks) && Passed(dir, order, i, prev, blocks) && requested >= 1
    requires i < |order| && !IsDeleted(dir[order[i]]) && prev + requested > dir[order[i]].start
    ensures Passed(dir, order, i + 1, EndOf(dir[order[i]]), blocks)
    ensures forall t :: FreeAt(dir, blocks, requested, t) && prev <= t ==> EndOf(dir[order[i]]) <= t
  {
    ScanWellFormed(dir, order, i, blocks);
    var r := dir[order[i]];
    assert Live(dir, order[i]);
    forall k | i + 1 <= k < |order| && !IsDeleted(dir[order[k]])
      ensures EndOf(r) <= dir[order[k]].start
    {
      assert Live(dir, order[k]) && order[k] != order[i];
      assert InOrder(dir[order[i]], dir[order[k]]);
      assert RecordOk(dir[order[k]], blocks);
    }
    forall t | FreeAt(dir, blocks, requested, t) && prev <= t
      ensures EndOf(r) <= t
    {
    }
  }

  /** The scan takes the lowest gap that holds the request; when there is none it goes on through the
      deleted records, and takes the end of one that seems to leave room. */
  lemma {:induction false} ScanTakesLowest(dir: seq<Record>, order: seq<nat>, i: nat, prev: nat, blocks: nat, requested: nat, r: nat)
    requires ScanOk(dir, order, i, blocks) && Passed(dir, order, i, prev, blocks) && 1 <= requested < WORD
    requires forall t :: FreeAt(dir, blocks, requested, t) ==> prev <= t
    requires (forall k :: 0 <= k < |order| ==> RecordOk(dir[order[k]], blocks)) && r == Scan(dir, order, i, prev, blocks, requested)
    ensures SomeGap(dir, blocks, requested) ==> LeastFree(dir, blocks, requested, r)
    ensures !SomeGap(dir, blocks, requested) ==> (r != 0 <==> SomeStaleRoom(dir, blocks, requested))
    ensures r != 0 ==> 1 <= r && r + requested + 1 <= blocks
    decreases |order| - i
  {
    var next := if i == |order| || IsDeleted(dir[order[i]]) then blocks - 1 else dir[order[i]].start;
    assert prev <= next;
    if prev + requested <= next {
      GapIsFree(dir, order, i, prev, blocks, requested);
    } else if i < |order| && !IsDeleted(dir[order[i]]) {
      NoGapBefore(dir, order, i, prev, blocks, requested);
      ScanTakesLowest(dir, order, i + 1, EndOf(dir[order[i]]), blocks, requested, r);
    } else {
      forall t
        ensures !FreeAt(dir, blocks, requested, t)
      {
      }
      StaleScan(dir, order, i, prev, blocks, requested, r);
      NoneStale(dir, order, i, blocks, requested);
    }
  }

  // Past the last file only deleted records are left.
  lemma {:induction false} StaleScan(dir: seq<Record>, order: seq<nat>, i: nat, prev: nat, blocks: nat, requested: nat, r: nat)
    requires ScanOk(dir, order, i, blocks) && 1 <= requested < WORD && 1 <= prev < WORD && prev + 1 <= blocks
    requires (forall k :: 0 <= k < |order| ==> RecordOk(dir[order[k]], blocks)) && r == Scan(dir, order, i, prev, blocks, requested)
    requires forall k :: i <= k < |order| ==> IsDeleted(dir[order[k]])
    ensures r != 0 <==> prev + requested + 1 <= blocks || exists k :: i <= k < |order| && StaleRoom(dir, blocks, requested, order[k])
    ensures r != 0 ==> 1 <= r && r + requested + 1 <= blocks
    decreases |order| - i
  {
    if prev + requested + 1 > blocks && i < |order| {
      StaleScan(dir, order, i + 1, EndOf(dir[order[i]]), blocks, requested, r);
      assert StaleRoom(dir, blocks, requested, order[i]) <==> EndOf(dir[order[i]]) + requested + 1 <= blocks;
    }
  }

  lemma NoneStale(dir: seq<Record>, order: seq<nat>, i: nat, blocks: nat, requested: nat)
    requires ScanOk(dir, order, i, blocks) && forall k :: 0 <= k < i ==> !IsDeleted(dir[order[k]])
    ensures SomeStaleRoom(dir, blocks, requested) <==> exists k :: i <= k < |order| && StaleRoom(dir, blocks, requested, order[k])
  {
    if j: nat :| StaleRoom(dir, blocks, requested, j) {
      assert j in order;
      var k :| 0 <= k < |order| && order[k] == j;
      assert i <= k;
    }
  }

  // ---------------------------------------------------------------- create

  // Record slot becomes r, and is live.
  lemma AddedIsLive(dir: seq<Record>, slot: nat, r: Record)
    requires |dir| == ENTRIES && slot == FreeFrom(dir, 0) < ENTRIES && End(dir) < ENTRIES && NameOk(r.name)
    ensures var d := AddRecord(dir, slot, r); d[slot] == r && Live(d, slot)
    ensures var d := AddRecord(dir, slot, r); forall i {:trigger Live(d, i)} :: 0 <= i && i != slot ==> (Live(d, i) <==> Live(dir, i))
    ensures var d := AddRecord(dir, slot, r); forall i :: 0 <= i < End(dir) && i != slot ==> d[i] == dir[i]
    ensures var d := AddRecord(dir, slot, r); End(d) == if slot == End(dir) then slot + 1 else End(dir)
    ensures !Live(dir, slot)
  {
    var d := AddRecord(dir, slot, r);
    var n := if slot == End(dir) then slot + 1 else End(dir);
    assert slot <= End(dir);
    EndIsFrom(d, n, 0);
  }

  /** A new file keeps all files in bounds, disjoint and differently named exactly when its place was free
      and its name new. */
  lemma AddKeepsExactlyWhen(dir: seq<Record>, blocks: nat, slot: nat, name: string, start: nat, requested: nat)
    requires FilesOk(dir, blocks) && End(dir) < ENTRIES && slot == FreeFrom(dir, 0) && NameOk(name) && requested >= 1
    requires Find(dir, name) == ENTRIES && 1 <= start
    ensures slot < ENTRIES
    ensures FilesOk(AddRecord(dir, slot, Record(name, start, requested, 0)), blocks) <==> FreeAt(dir, blocks, requested, start)
  {
    var r := Record(name, start, requested, 0);
    FreeIsWithin(dir, 0);
    AddedIsLive(dir, slot, r);
    FindIsLive(dir, name);
    var d := AddRecord(dir, slot, r);
    if FreeAt(dir, blocks, requested, start) {
      forall i | 0 <= i < End(d)
        ensures RecordOk(d[i], blocks)
      {
        if i != slot {
          assert RecordOk(dir[i], blocks);
        }
      }
      forall i, j | 0 <= i < j && Live(d, i) && Live(d, j)
        ensures Apart(d[i], d[j])
      {
        AddedApart(dir, d, blocks, slot, r, i, j);
      }
    } else {
      AddedClashes(dir, d, blocks, slot, r);
    }
  }

  lemma {:induction false} FreeIsWithin(dir: seq<Record>, i: nat)
    requires i <= EndFrom(dir, 0)
    ensures FreeFrom(dir, i) <= EndFrom(dir, 0)
    decreases |dir| - i
  {
    if i < EndFrom(dir, 0) && !IsDeleted(dir[i]) {
      FreeIsWithin(dir, i + 1);
    }
  }

  lemma AddedApart(dir: seq<Record>, d: seq<Record>, blocks: nat, slot: nat, r: Record, i: int, j: int)
    requires FilesOk(dir, blocks) && End(dir) < ENTRIES && |d| == |dir| && slot < |d| && d[slot] == r
    requires forall l {:trigger Live(d, l)} :: 0 <= l && l != slot ==> (Live(d, l) <==> Live(dir, l))
    requires forall l :: 0 <= l < End(dir) && l != slot ==> d[l] == dir[l]
    requires forall l {:trigger Live(dir, l)} :: 0 <= l && Live(dir, l) ==> dir[l].name != r.name
    requires FreeAt(dir, blocks, r.reserved, r.start) && 0 <= i < j && Live(d, i) && Live(d, j)
    ensures Apart(d[i], d[j])
  {
    if i != slot {
      assert Live(dir, i);
    }
    if j != slot {
      assert Live(dir, j);
    }
  }

  lemma AddedClashes(dir: seq<Record>, d: seq<Record>, blocks: nat, slot: nat, r: Record)
    requires |dir| == ENTRIES && End(dir) < ENTRIES && |d| == |dir| && slot < |d| && d[slot] == r && Live(d, slot) && r.start >= 1
    requires forall l {:trigger Live(d, l)} :: 0 <= l && l != slot ==> (Live(d, l) <==> Live(dir, l))
    requires forall l :: 0 <= l < End(dir) && l != slot ==> d[l] == dir[l]
    requires !Live(dir, slot) && !FreeAt(dir, blocks, r.reserved, r.start)
    ensures !FilesOk(d, blocks)
  {
    if r.start + r.reserved + 1 <= blocks {
      var i: int :| 0 <= i && Live(dir, i) && !(r.start + r.reserved <= dir[i].start || EndOf(dir[i]) <= r.start);
      assert Live(d, i) && d[i] == dir[i];
      if i < slot {
        assert !Apart(d[i], d[slot]);
      } else {
        assert !Apart(d[slot], d[i]);
      }
    } else {
      assert !RecordOk(d[slot], blocks);
    }
  }

  // A disk in order, with a record that marks the end of its directory.
  ghost predicate DiskOk(d: Disk) { Sized(d) && FilesOk(d.dir, d.blocks) }

  lemma CreateScans(d: Disk, mebibytes: nat, order: seq<nat>)
    requires DiskOk(d) && d.blocks >= 2 && End(d.dir) < ENTRIES && IsOrder(d.dir, UsedEntries(d.dir), order)
    requires 1 <= mebibytes && Blocks(mebibytes) < WORD
    ensures var r := Scan(d.dir, order, 0, 1, d.blocks, Blocks(mebibytes));
      && (SomeGap(d.dir, d.blocks, Blocks(mebibytes)) ==> LeastFree(d.dir, d.blocks, Blocks(mebibytes), r))
      && (!SomeGap(d.dir, d.blocks, Blocks(mebibytes)) ==> (r != 0 <==> SomeStaleRoom(d.dir, d.blocks, Blocks(mebibytes))))
  {
    ScanWellFormed(d.dir, order, 0, d.blocks);
    forall k | 0 <= k < |order| && !IsDeleted(d.dir[order[k]])
      ensures 1 <= d.dir[order[k]].start
    {
      assert RecordOk(d.dir[order[k]], d.blocks);
    }
    ScanTakesLowest(d.dir, order, 0, 1, d.blocks, Blocks(mebibytes), Scan(d.dir, order, 0, 1, d.blocks, Blocks(mebibytes)));
  }

  /** When some gap between the files holds the request, create takes the lowest such place and leaves all
      files in order, whatever order qsort gives to deleted records. */
  lemma CreateTakesLowestGap(d: Disk, name: string, mebibytes: nat, order: seq<nat>)
    requires DiskOk(d) && End(d.dir) < ENTRIES && IsOrder(d.dir, UsedEntries(d.dir), order)
    requires 1 <= mebibytes && Blocks(mebibytes) < WORD && NameOk(name) && Find(d.dir, name) == ENTRIES
    requires SomeGap(d.dir, d.blocks, Blocks(mebibytes))
    ensures var r := Create(d, name, mebibytes, order); r.Done? && FilesOk(r.disk.dir, d.blocks) && r.disk.bytes == d.bytes
    ensures var r := Create(d, name, mebibytes, order); var i := FreeFrom(d.dir, 0);
      i < ENTRIES && Live(r.disk.dir, i) && r.disk.dir[i].name == name && r.disk.dir[i].reserved == Blocks(mebibytes) && r.disk.dir[i].size == 0
      && LeastFree(d.dir, d.blocks, Blocks(mebibytes), r.disk.dir[i].start)
    ensures var r := Create(d, name, mebibytes, order); forall i {:trigger Live(d.dir, i)} :: 0 <= i && Live(d.dir, i) ==>
      Live(r.disk.dir, i) && r.disk.dir[i] == d.dir[i]
  {
    CreateScans(d, mebibytes, order);
    var start := Scan(d.dir, order, 0, 1, d.blocks, Blocks(mebibytes));
    var slot := FreeFrom(d.dir, 0);
    AddKeepsExactlyWhen(d.dir, d.blocks, slot, name, start, Blocks(mebibytes));
    AddedIsLive(d.dir, slot, Record(name, start, Blocks(mebibytes), 0));
  }

  /** A disk of fewer than two blocks has no room at all, but the number of its last block wraps around: create
      puts every file at block 1. */
  lemma TinyDiskOverruns(d: Disk, mebibytes: nat, order: seq<nat>)
    requires DiskOk(d) && d.blocks < 2 && IsOrder(d.dir, UsedEntries(d.dir), order) && 1 <= mebibytes && Blocks(mebibytes) < WORD
    ensures End(d.dir) == 0 && !SomeGap(d.dir, d.blocks, Blocks(mebibytes))
    ensures Blocks(mebibytes) < WORD - 1 ==> Scan(d.dir, order, 0, 1, d.blocks, Blocks(mebibytes)) == 1
    ensures Scan(d.dir, order, 0, 1, d.blocks, Blocks(mebibytes)) <= 1
  {
    assert End(d.dir) > 0 ==> RecordOk(d.dir[0], d.blocks);
  }

  /** create refuses for want of room exactly when the disk has two blocks or more, no gap holds the request
      and no deleted record's old end seems to leave room. */
  lemma CreateRefusesExactlyWhen(d: Disk, name: string, mebibytes: nat, order: seq<nat>)
    requires DiskOk(d) && End(d.dir) < ENTRIES && IsOrder(d.dir, UsedEntries(d.dir), order)
    requires 1 <= mebibytes && Blocks(mebibytes) < WORD - 1 && NameOk(name) && Find(d.dir, name) == ENTRIES
    ensures Create(d, name, mebibytes, order) == NoRoom <==>
      d.blocks >= 2 && !SomeGap(d.dir, d.blocks, Blocks(mebibytes)) && !SomeStaleRoom(d.dir, d.blocks, Blocks(mebibytes))
    ensures !Create(d, name, mebibytes, order).NoSlot?
  {
    if d.blocks >= 2 {
      CreateScans(d, mebibytes, order);
    } else {
      TinyDiskOverruns(d, mebibytes, order);
    }
    FreeIsWithin(d.dir, 0);
  }

  /** A file that was created keeps the files in order exactly when some gap held the request: with none,
      create puts it over other files, at the end of a deleted one, or past the end of a disk of fewer than
      two blocks. */
  lemma CreateKeepsFilesExactlyWhen(d: Disk, name: string, mebibytes: nat, order: seq<nat>)
    requires DiskOk(d) && End(d.dir) < ENTRIES && IsOrder(d.dir, UsedEntries(d.dir), order)
    requires 1 <= mebibytes && Blocks(mebibytes) < WORD && NameOk(name) && Create(d, name, mebibytes, order).Done?
    ensures FilesOk(Create(d, name, mebibytes, order).disk.dir, d.blocks) <==> SomeGap(d.dir, d.blocks, Blocks(mebibytes))
  {
    if d.blocks >= 2 {
      CreateScans(d, mebibytes, order);
    } else {
      TinyDiskOverruns(d, mebibytes, order);
    }
    var start := Scan(d.dir, order, 0, 1, d.blocks, Blocks(mebibytes));
    FindIsLive(d.dir, name);
    AddKeepsExactlyWhen(d.dir, d.blocks, FreeFrom(d.dir, 0), name, start, Blocks(mebibytes));
  }

  /** In a directory without a record that marks its end create forgets all files and asks only whether the
      disk is large enough: it succeeds exactly then, if there is a deleted record to use, and starts the
      file in the first block. */
  lemma FullDirectoryForgetsFiles(d: Disk, name: string, mebibytes: nat, order: seq<nat>)
    requires DiskOk(d) && End(d.dir) == ENTRIES && IsOrder(d.dir, UsedEntries(d.dir), order)
    requires 1 <= mebibytes && Find(d.dir, name) == ENTRIES
    ensures var r := Create(d, name, mebibytes, order); var slot := FreeFrom(d.dir, 0);
      if slot == ENTRIES then r == NoSlot
      else if Blocks(mebibytes) + 2 > d.blocks then r == NoRoom
      else r.Done? && r.disk.dir[slot].start == 1 && (slot == 0 && NameOk(name) ==> End(r.disk.dir) == 1)
  {
    assert order == [];
    var r := Create(d, name, mebibytes, order);
    if r.Done? && FreeFrom(d.dir, 0) == 0 && NameOk(name) {
      EndIsFrom(r.disk.dir, 1, 0);
    }
  }

  // ---------------------------------------------------------------- bytes

  // The file is there, on a disk in order, and these are its bytes.
  ghost predicate Stored(d: Disk, name: string, bytes: seq<byte>) {
    DiskOk(d) && Find(d.dir, name) < ENTRIES && Read(d, name) == (true, bytes)
  }

  ghost predicate HasFile(d: Disk, name: string) {
    exists i :: 0 <= i && Live(d.dir, i) && d.dir[i].name == name
  }

  /** read, write and delete refuse a name exactly when no live file has it, and then give and change nothing;
      create refuses it as taken exactly when some live file has it. */
  lemma RefusedExactlyWhenMissing(d: Disk, name: string, content: seq<byte>, mebibytes: nat, order: seq<nat>)
    requires Sized(d) && IsOrder(d.dir, UsedEntries(d.dir), order)
    ensures Read(d, name).0 <==> HasFile(d, name)
    ensures !HasFile(d, name) ==> Read(d, name).1 == []
    ensures Write(d, name, content) == NotFound <==> !HasFile(d, name)
    ensures Delete(d, name) == NotFound <==> !HasFile(d, name)
    ensures Create(d, name, mebibytes, order) == Exists <==> HasFile(d, name)
  {
    FindIsLive(d.dir, name);
    var i := Find(d.dir, name);
    if i < ENTRIES {
      assert Live(d.dir, i) && d.dir[i].name == name;
    }
  }

  /** Records whose names, places and reserved blocks are as before keep the files in order. */
  lemma SameExtents(d: seq<Record>, r: seq<Record>, blocks: nat, slot: nat)
    requires FilesOk(d, blocks) && Live(d, slot) && |r| == |d| && r == d[slot := r[slot]]
    requires r[slot].name == d[slot].name && r[slot].start == d[slot].start && r[slot].reserved == d[slot].reserved
    requires r[slot].size <= r[slot].reserved * BLOCK
    ensures FilesOk(r, blocks) && End(r) == End(d) && forall i {:trigger Live(r, i)} :: 0 <= i ==> (Live(r, i) <==> Live(d, i))
  {
    EndIsFrom(r, End(d), 0);
    forall i | 0 <= i < End(r)
      ensures RecordOk(r[i], blocks)
    {
      assert RecordOk(d[i], blocks);
    }
    forall i, j | 0 <= i < j && Live(r, i) && Live(r, j)
      ensures Apart(r[i], r[j])
    {
      assert Live(d, i) && Live(d, j);
    }
  }

  /** What is written is what is read; nothing else changes. */
  lemma WriteThenRead(d: Disk, name: string, content: seq<byte>)
    requires DiskOk(d) && Find(d.dir, name) < ENTRIES
    ensures var r := Write(d, name, content);
      r == TooLarge <==> d.dir[Find(d.dir, name)].reserved * BLOCK < |content|
    ensures var r := Write(d, name, content); r.Done? || r == TooLarge
    ensures var r := Write(d, name, content); r.Done? ==> Stored(r.disk, name, content)
  {
    var i := Find(d.dir, name);
    FindIsLive(d.dir, name);
    var w := Write(d, name, content);
    if w.Done? {
      var r := w.disk;
      SameExtents(d.dir, r.dir, d.blocks, i);
      FindFinds(r.dir, d.blocks, name, i);
      WrittenBytes(d.bytes, d.dir[i].start * BLOCK, content);
    }
  }

  lemma WrittenBytes(bytes: seq<byte>, from: nat, content: seq<byte>)
    ensures BytesAt(Overwrite(bytes, from, content), from, |content|) == content
  {
    var r := Overwrite(bytes, from, content);
    forall k | 0 <= k < |content|
      ensures ByteAt(r, from + k) == content[k]
    {
      assert r[from + k] == content[k];
    }
  }

  /** Writing a file leaves the bytes of every other file alone. */
  lemma WriteKeepsOthers(d: Disk, name: string, content: seq<byte>, other: string, bytes: seq<byte>)
    requires Stored(d, other, bytes) && name != other && Write(d, name, content).Done?
    ensures Stored(Write(d, name, content).disk, other, bytes)
  {
    var i, j := Find(d.dir, name), Find(d.dir, other);
    FindIsLive(d.dir, name);
    FindIsLive(d.dir, other);
    var r := Write(d, name, content).disk;
    SameExtents(d.dir, r.dir, d.blocks, i);
    assert i != j && r.dir[j] == d.dir[j];
    FindFinds(r.dir, d.blocks, other, j);
    assert Apart(d.dir[i], d.dir[j]) by {
      if i < j {
        assert Live(d.dir, i) && Live(d.dir, j);
      } else {
        assert Live(d.dir, j) && Live(d.dir, i);
      }
    }
    assert RecordOk(d.dir[j], d.blocks);
    BytesApart(d.bytes, content, d.dir[i], d.dir[j]);
  }

  // Content within the blocks of one file does not touch the bytes of a file apart from it.
  lemma BytesApart(bytes: seq<byte>, content: seq<byte>, a: Record, b: Record)
    requires Apart(a, b) && |content| <= a.reserved * BLOCK && b.size <= b.reserved * BLOCK && EndOf(b) * BLOCK <= |bytes|
    ensures BytesAt(Overwrite(bytes, a.start * BLOCK, content), b.start * BLOCK, b.size) == BytesAt(bytes, b.start * BLOCK, b.size)
  {
    var r := Overwrite(bytes, a.start * BLOCK, content);
    var from := b.start * BLOCK;
    forall k | 0 <= k < b.size
      ensures BytesAt(r, from, b.size)[k] == BytesAt(bytes, from, b.size)[k]
    {
      assert r[from + k] == bytes[from + k];
    }
  }

  /** Deleting a file removes it and leaves every other file alone. */
  lemma DeleteKeepsOthers(d: Disk, name: string, other: string, bytes: seq<byte>)
    requires Stored(d, other, bytes) && name != other && Delete(d, name).Done?
    ensures Stored(Delete(d, name).disk, other, bytes)
  {
    var j := Find(d.dir, other);
    var r := Delete(d, name).disk;
    FindIsLive(d.dir, other);
    DeletedIsGone(d, name);
    assert r.dir[j] == d.dir[j] && Live(r.dir, j);
    FindFinds(r.dir, d.blocks, other, j);
  }

  lemma DeletedIsGone(d: Disk, name: string)
    requires DiskOk(d) && Delete(d, name).Done?
    ensures var r := Delete(d, name).disk; DiskOk(r) && End(r.dir) == End(d.dir) && Find(r.dir, name) == ENTRIES
    ensures var r := Delete(d, name).disk; var i := Find(d.dir, name);
      i < ENTRIES && forall j {:trigger Live(r.dir, j)} :: 0 <= j ==> (Live(r.dir, j) <==> Live(d.dir, j) && j != i)
  {
    var i := Find(d.dir, name);
    var r := Delete(d, name).disk;
    FindIsLive(d.dir, name);
    EndIsFrom(r.dir, End(d.dir), 0);
    forall j, k | 0 <= j < k && Live(r.dir, j) && Live(r.dir, k)
      ensures Apart(r.dir[j], r.dir[k])
    {
      assert Live(d.dir, j) && Live(d.dir, k);
    }
    forall j | 0 <= j < End(r.dir)
      ensures RecordOk(r.dir[j], d.blocks)
    {
      assert RecordOk(d.dir[j], d.blocks);
    }
    FindIsLive(r.dir, name);
    if Find(r.dir, name) < ENTRIES {
      var k := Find(r.dir, name);
      assert Live(d.dir, k) && Live(d.dir, i) && d.dir[k].name == name;
      FindFinds(d.dir, d.blocks, name, k);
    }
  }

  /** Creating a file in a gap leaves every other file alone. */
  lemma CreateKeepsOthers(d: Disk, name: string, mebibytes: nat, order: seq<nat>, other: string, bytes: seq<byte>)
    requires Stored(d, other, bytes) && End(d.dir) < ENTRIES && IsOrder(d.dir, UsedEntries(d.dir), order)
    requires 1 <= mebibytes && Blocks(mebibytes) < WORD && NameOk(name) && Create(d, name, mebibytes, order).Done?
    requires SomeGap(d.dir, d.blocks, Blocks(mebibytes))
    ensures Stored(Create(d, name, mebibytes, order).disk, other, bytes)
  {
    var j := Find(d.dir, other);
    FindIsLive(d.dir, other);
    CreateTakesLowestGap(d, name, mebibytes, order);
    var r := Create(d, name, mebibytes, order).disk;
    assert Live(d.dir, j) && Live(r.dir, j) && r.dir[j] == d.dir[j];
    FindFinds(r.dir, d.blocks, other, j);
    CreatedSized(d, name, mebibytes, order);
  }

  lemma CreatedSized(d: Disk, name: string, mebibytes: nat, order: seq<nat>)
    requires Sized(d) && IsOrder(d.dir, UsedEntries(d.dir), order) && Create(d, name, mebibytes, order).Done? && Blocks(mebibytes) < WORD
    ensures Create(d, name, mebibytes, order).disk.bytes == d.bytes && Create(d, name, mebibytes, order).disk.blocks == d.blocks
    ensures Sized(Create(d, name, mebibytes, order).disk)
  {
    var slot := FreeFrom(d.dir, 0);
    var r := Create(d, name, mebibytes, order).disk;
    forall i | 0 <= i < ENTRIES
      ensures r.dir[i].start < WORD && r.dir[i].reserved < WORD
    {
      assert i != slot ==> r.dir[i].start == d.dir[i].start && r.dir[i].reserved == d.dir[i].reserved;
      if i == slot {
        ScanIsWord(d.dir, order, 0, 1, d.blocks, Blocks(mebibytes));
      }
    }
  }

  lemma {:induction false} ScanIsWord(dir: seq<Record>, order: seq<nat>, i: nat, prev: nat, blocks: nat, requested: nat)
    requires i <= |order| && prev < WORD && blocks < WORD
    requires forall k :: 0 <= k < |order| ==> order[k] < |dir| && dir[order[k]].start < WORD && dir[order[k]].reserved < WORD
    ensures Scan(dir, order, i, prev, blocks, requested) < WORD
    decreases |order| - i
  {
    if i < |order| {
      ScanIsWord(dir, order, i + 1, Plus(dir[order[i]].start, dir[order[i]].reserved), blocks, requested);
    }
  }

  // ---------------------------------------------------------------- runs

  datatype Op = CreateOp(name: string, mebibytes: nat, order: seq<nat>) | WriteOp(name: string, content: seq<byte>) | DeleteOp(name: string)

  /** Operations on other files than g, and creations into a real gap of a directory with an end. */
  ghost predicate Safe(d: Disk, op: Op, g: string)
    requires Sized(d)
  {
    op.name != g &&
    match op
    case CreateOp(name, mebibytes, order) =>
      && End(d.dir) < ENTRIES && IsOrder(d.dir, UsedEntries(d.dir), order) && 1 <= mebibytes && Blocks(mebibytes) < WORD && NameOk(name)
      && SomeGap(d.dir, d.blocks, Blocks(mebibytes))
    case _ => true
  }

  // A disk after an operation, changed or not.
  function Left(d: Disk, r: Result): Disk { if r.Done? then r.disk else d }

  ghost function Apply(d: Disk, op: Op, g: string): (r: Disk)
    requires Sized(d) && Safe(d, op, g)
    ensures Sized(r)
  {
    match op
    case CreateOp(name, mebibytes, order) =>
      if Create(d, name, mebibytes, order).Done? then CreatedSized(d, name, mebibytes, order); Create(d, name, mebibytes, order).disk else d
    case WriteOp(name, content) => Left(d, Write(d, name, content))
    case DeleteOp(name) => Left(d, Delete(d, name))
  }

  ghost predicate SafeRun(d: Disk, ops: seq<Op>, g: string)
    requires Sized(d)
    decreases |ops|
  {
    ops == [] || (Safe(d, ops[0], g) && SafeRun(Apply(d, ops[0], g), ops[1..], g))
  }

  ghost function Run(d: Disk, ops: seq<Op>, g: string): Disk
    requires Sized(d) && SafeRun(d, ops, g)
    decreases |ops|
  {
    if ops == [] then d else Run(Apply(d, ops[0], g), ops[1..], g)
  }

  lemma StepKeeps(d: Disk, op: Op, g: string, bytes: seq<byte>)
    requires Stored(d, g, bytes) && Safe(d, op, g)
    ensures Stored(Apply(d, op, g), g, bytes)
  {
    match op {
      case CreateOp(name, mebibytes, order) =>
        if Create(d, name, mebibytes, order).Done? {
          CreateKeepsOthers(d, name, mebibytes, order, g, bytes);
        }
      case WriteOp(name, content) =>
        if Write(d, name, content).Done? {
          WriteKeepsOthers(d, name, content, g, bytes);
        }
      case DeleteOp(name) =>
        if Delete(d, name).Done? {
          DeleteKeepsOthers(d, name, g, bytes);
        }
    }
  }

  /** Whatever is created in real gaps, written and deleted under other names, a file keeps its bytes. */
  lemma {:induction false} FilesSurvive(d: Disk, ops: seq<Op>, g: string, bytes: seq<byte>)
    requires Stored(d, g, bytes) && SafeRun(d, ops, g)
    ensures Stored(Run(d, ops, g), g, bytes)
    decreases |ops|
  {
    if ops != [] {
      StepKeeps(d, ops[0], g, bytes);
      FilesSurvive(Apply(d, ops[0], g), ops[1..], g, bytes);
    }
  }

  /** What format leaves: no files, and the end of the directory in its first record. */
  lemma FormattedIsOk(d: Disk)
    requires Sized(d) && forall i :: 0 <= i < ENTRIES ==> d.dir[i] == Record("", 0, 0, 0)
    ensures DiskOk(d) && End(d.dir) == 0
  {
  }
}
