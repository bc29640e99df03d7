/** The commands of the BMFS utility over the directory buffer and the bytes of the disk, as they are
    written. */
module BmfsUtility {
  import opened Bmfs
  import BmfsProofs

  class Utility {
    const directory: array<Record>
    var disk: seq<byte>  // the file, which grows when it is written past its end
    const blocks: nat

    ghost function Abs(): Disk
      reads this, directory
    {
      Disk(directory[..], disk, blocks)
    }

    ghost predicate Valid()
      reads this, directory
    {
      Sized(Abs())
    }

    constructor (bytes: seq<byte>, dir: seq<Record>, size: nat)
      requires Sized(Disk(dir, bytes, size))
      ensures Valid() && Abs() == Disk(dir, bytes, size) && fresh(directory)
    {
      directory := new Record[|dir|](i requires 0 <= i < |dir| => dir[i]);
      disk := bytes;
      blocks := size;
      new;
      assert directory[..] == dir;
    }

    method FindFile(name: string) returns (r: nat)
      requires Valid()
      ensures r == Find(Abs().dir, name)
    {
      var i := 0;
      while i < ENTRIES && !IsEnd(directory[i])
        invariant i <= ENTRIES && Find(Abs().dir, name) == FindFrom(Abs().dir, name, i)
      {
        if !IsDeleted(directory[i]) && directory[i].name == name {
          return i;
        }
        i := i + 1;
      }
      r := ENTRIES;
    }

    // The first loop of create: how many records are counted, and where a new one can go.
    method CountEntries() returns (used: nat, slot: nat)
      requires Valid()
      ensures used == UsedEntries(Abs().dir) && slot == FreeFrom(Abs().dir, 0)
    {
      used, slot := 0, ENTRIES;
      var i := 0;
      while i < ENTRIES
        invariant i <= ENTRIES && used == 0 && End(Abs().dir) == EndFrom(Abs().dir, i)
        invariant slot == ENTRIES ==> FreeFrom(Abs().dir, 0) == FreeFrom(Abs().dir, i)
        invariant slot != ENTRIES ==> slot < i && slot == FreeFrom(Abs().dir, 0)
      {
        if IsEnd(directory[i]) {
          used := i;
          if slot == ENTRIES {
            slot := i;
          }
          return;
        } else if IsDeleted(directory[i]) {
          if slot == ENTRIES {
            slot := i;
          }
        }
        i := i + 1;
      }
    }

    /** Stands for qsort over the copy of the directory: the numbers of its first n records, by insertion. */
    method SortRecords(n: nat) returns (order: seq<nat>)
      requires Valid() && n <= ENTRIES
      ensures IsOrder(Abs().dir, n, order)
    {
      order := [];
      var i := 0;
      while i < n
        invariant i <= n && IsOrder(Abs().dir, i, order)
      {
        var k := i;
        while k > 0 && !InOrder(directory[order[k - 1]], directory[i])
          invariant 0 <= k <= i
          invariant forall l :: k <= l < i ==> !InOrder(directory[order[l]], directory[i])
        {
          k := k - 1;
        }
        var longer := order[..k] + [i] + order[k..];
        InsertKeepsOrder(Abs().dir, i, order, k, longer);
        order := longer;
        i := i + 1;
      }
    }

    // The second loop of create.
    method FindGap(order: seq<nat>, requested: nat) returns (start: nat)
      requires Valid() && forall k :: 0 <= k < |order| ==> order[k] < ENTRIES
      ensures start == Scan(Abs().dir, order, 0, 1, blocks, requested)
    {
      var prev: nat := 1;
      var i: nat := 0;
      while i <= |order|
        invariant i <= |order| + 1 && prev < WORD
        invariant i <= |order| ==> Scan(Abs().dir, order, 0, 1, blocks, requested) == Scan(Abs().dir, order, i, prev, blocks, requested)
        invariant i > |order| ==> Scan(Abs().dir, order, 0, 1, blocks, requested) == 0
      {
        var next := if i == |order| || IsDeleted(directory[order[i]]) then Minus(blocks, 1) else directory[order[i]].start;
        if Minus(next, prev) >= requested {
          return prev;
        }
        if i < |order| {
          prev := Plus(directory[order[i]].start, directory[order[i]].reserved);
        }
        i := i + 1;
      }
      start := 0;
    }

    method Create(name: string, mebibytes: nat) returns (ghost order: seq<nat>, outcome: Outcome)
      requires Valid() && Blocks(mebibytes) < WORD
      modifies directory
      ensures Valid() && IsOrder(old(Abs()).dir, UsedEntries(old(Abs()).dir), order)
      ensures Bmfs.Create(old(Abs()), name, mebibytes, order) == ResultOf(outcome, Abs()) && (outcome != Ok ==> Abs() == old(Abs()))
    {
      var used, slot := CountEntries();
      var sorted := SortRecords(used);
      order := sorted;
      var found := FindFile(name);
      if found < ENTRIES {
        return order, AlreadyThere;
      }
      if slot == ENTRIES {
        return order, DirectoryFull;
      }
      var start := FindGap(sorted, Blocks(mebibytes));
      if start == 0 {
        return order, DiskFull;
      }
      BmfsProofs.ScanIsWord(Abs().dir, sorted, 0, 1, blocks, Blocks(mebibytes));
      directory[slot] := Record(name, start, Blocks(mebibytes), 0);
      if slot == used && used + 1 < ENTRIES {
        directory[used + 1] := directory[used + 1].(name := "");
      }
      assert directory[..] == AddRecord(old(directory[..]), slot, Record(name, start, Blocks(mebibytes), 0));
      outcome := Ok;
    }

    /** read: the local file gets the bytes of the file one by one. */
    method Read(name: string) returns (found: bool, bytes: seq<byte>)
      requires Valid()
      ensures (found, bytes) == Bmfs.Read(Abs(), name)
    {
      bytes := [];
      var i := FindFile(name);
      if i == ENTRIES {
        return false, [];
      }
      var from, size := directory[i].start * BLOCK, directory[i].size;
      var k := 0;
      while k < size
        invariant k <= size && |bytes| == k && forall j :: 0 <= j < k ==> bytes[j] == ByteAt(disk, from + j)
      {
        bytes := bytes + [if from + k < |disk| then disk[from + k] else 255];
        k := k + 1;
      }
      assert bytes == BytesAt(disk, from, size);
      found := true;
    }

    /** write: the bytes of the local file go to the blocks of the file one by one. */
    method Write(name: string, content: seq<byte>) returns (outcome: Outcome)
      requires Valid()
      modifies directory, `disk
      ensures Valid() && Bmfs.Write(old(Abs()), name, content) == ResultOf(outcome, Abs()) && (outcome != Ok ==> Abs() == old(Abs()))
    {
      var i := FindFile(name);
      if i == ENTRIES {
        return NoSuchFile;
      }
      if directory[i].reserved * BLOCK < |content| {
        return NotEnoughReserved;
      }
      var from := directory[i].start * BLOCK;
      var k := 0;
      while k < |content|
        invariant k <= |content| && directory[..] == old(directory[..])
        invariant disk == Overwrite(old(disk), from, content[..k])
      {
        OverwriteOne(old(disk), from, content, k);
        disk := PutAt(disk, from + k, content[k]);
        k := k + 1;
      }
      assert content[..k] == content;
      directory[i] := directory[i].(size := |content|);
      assert directory[..] == old(directory[..])[i := old(directory[i]).(size := |content|)];
      outcome := Ok;
    }

    method Delete(name: string) returns (outcome: Outcome)
      requires Valid()
      modifies directory
      ensures Valid() && Bmfs.Delete(old(Abs()), name) == ResultOf(outcome, Abs()) && (outcome != Ok ==> Abs() == old(Abs()))
    {
      var i := FindFile(name);
      if i == ENTRIES {
        return NoSuchFile;
      }
      directory[i] := directory[i].(name := [DELETED] + directory[i].name[1..]);
      assert directory[..] == old(directory[..])[i := directory[i]];
      outcome := Ok;
    }
  }

  // A byte of the file replaced; past its end the file grows.
  function PutAt(bytes: seq<byte>, at: nat, b: byte): (r: seq<byte>)
    ensures |r| == if at < |bytes| then |bytes| else at + 1
    ensures r[at] == b && forall j :: 0 <= j < |bytes| && j != at ==> r[j] == bytes[j]
    ensures forall j :: |bytes| <= j < at ==> r[j] == 0
  {
    if at < |bytes| then bytes[at := b] else bytes + seq(at - |bytes|, _ => 0) + [b]
  }

  lemma OverwriteOne(bytes: seq<byte>, from: nat, content: seq<byte>, k: nat)
    requires k < |content|
    ensures PutAt(Overwrite(bytes, from, content[..k]), from + k, content[k]) == Overwrite(bytes, from, content[..k + 1])
  {
    var was := Overwrite(bytes, from, content[..k]);
    var r := PutAt(was, from + k, content[k]);
    var s := Overwrite(bytes, from, content[..k + 1]);
    forall j | 0 <= j < |r|
      ensures r[j] == s[j]
    {
      if from <= j < from + k {
        assert was[from + (j - from)] == content[..k][j - from];
        assert s[from + (j - from)] == content[..k + 1][j - from];
      } else if j == from + k {
        assert s[from + k] == content[..k + 1][k];
      }
    }
  }

  // What a command reports.
  datatype Outcome = Ok | AlreadyThere | DirectoryFull | DiskFull | NoSuchFile | NotEnoughReserved

  function ResultOf(outcome: Outcome, d: Disk): Result {
    match outcome
    case Ok => Done(d)
    case AlreadyThere => Exists
    case DirectoryFull => NoSlot
    case DiskFull => NoRoom
    case NoSuchFile => NotFound
    case NotEnoughReserved => TooLarge
  }

  // The number inserted into order at k, at place a.
  function Inserted(order: seq<nat>, k: nat, i: nat, a: nat): nat
    requires k <= |order| && a <= |order|
  {
    if a < k then order[a] else if a == k then i else order[a - 1]
  }

  lemma InsertedInOrder(dir: seq<Record>, i: nat, order: seq<nat>, k: nat, a: nat, b: nat)
    requires IsOrder(dir, i, order) && i < |dir| && k <= i && a < b <= i
    requires k > 0 ==> InOrder(dir[order[k - 1]], dir[i])
    requires forall l :: k <= l < i ==> !InOrder(dir[order[l]], dir[i])
    ensures InOrder(dir[Inserted(order, k, i, a)], dir[Inserted(order, k, i, b)])
    ensures Inserted(order, k, i, a) != Inserted(order, k, i, b)
  {
    if b == k {
      assert a < k - 1 ==> InOrder(dir[order[a]], dir[order[k - 1]]);
    } else if a == k {
      assert !InOrder(dir[order[b - 1]], dir[i]);
    } else {
      var l := if a < k then a else a - 1;
      var m := if b < k then b else b - 1;
      assert InOrder(dir[order[l]], dir[order[m]]);
    }
  }

  /** A record goes after those it is in order with and before the others. */
  lemma InsertKeepsOrder(dir: seq<Record>, i: nat, order: seq<nat>, k: nat, r: seq<nat>)
    requires IsOrder(dir, i, order) && i < |dir| && k <= i && r == order[..k] + [i] + order[k..]
    requires k > 0 ==> InOrder(dir[order[k - 1]], dir[i])
    requires forall l :: k <= l < i ==> !InOrder(dir[order[l]], dir[i])
    ensures IsOrder(dir, i + 1, r)
  {
    forall a | 0 <= a < i + 1
      ensures r[a] == Inserted(order, k, i, a) && r[a] < i + 1
    {
    }
    forall j | 0 <= j < i + 1
      ensures j in r
    {
      if j == i {
        assert r[k] == i;
      } else {
        assert j in order;
        var l :| 0 <= l < i && order[l] == j;
        assert r[if l < k then l else l + 1] == j;
      }
    }
    forall a, b | 0 <= a < b < i + 1
      ensures InOrder(dir[r[a]], dir[r[b]]) && r[a] != r[b]
    {
      InsertedInOrder(dir, i, order, k, a, b);
    }
  }
}
