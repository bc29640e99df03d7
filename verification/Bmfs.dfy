/** The BMFS disk utility: a directory of 64 records and files of contiguous blocks of 2 MiB
    (Bootloader/BMFS/bmfs.c). */
module Bmfs {

  const ENTRIES: nat := 64
  const BLOCK: nat := 2097152
  const WORD: nat := 0x1_0000_0000_0000_0000

  type byte = b: nat | b < 256 witness 0

  /** A record; the name is the string up to the first zero byte, so a record that marks the end of the
      directory has an empty one, and that of a deleted file starts with the byte 1. */
  datatype Record = Record(name: string, start: nat, reserved: nat, size: nat)

  const DELETED: char := '\U{0001}'

  predicate IsEnd(r: Record) { r.name == "" }

  predicate IsDeleted(r: Record) { r.name != "" && r.name[0] == DELETED }

  /** A disk: its directory, its bytes, and its size in blocks. */
  datatype Disk = Disk(dir: seq<Record>, bytes: seq<byte>, blocks: nat)

  predicate Sized(d: Disk) {
    && |d.dir| == ENTRIES && d.blocks < 0x1_0000_0000 && |d.bytes| >= d.blocks * BLOCK
    && forall i :: 0 <= i < ENTRIES ==> d.dir[i].start < WORD && d.dir[i].reserved < WORD
  }

  // Addition and subtraction of 64-bit words.
  function Plus(x: nat, y: nat): (r: nat)
    requires x < WORD && y < WORD
    ensures r < WORD
  {
    if x + y < WORD then x + y else x + y - WORD
  }

  function Minus(x: nat, y: nat): (r: nat)
    requires x < WORD && y < WORD
    ensures r < WORD
  {
    if y <= x then x - y else x - y + WORD
  }

  // ---------------------------------------------------------------- the directory

  // The first record from i on that marks the end, or the size of the directory.
  function EndFrom(dir: seq<Record>, i: nat): (n: nat)
    requires i <= |dir|
    ensures i <= n <= |dir| && (n < |dir| ==> IsEnd(dir[n])) && forall j :: i <= j < n ==> !IsEnd(dir[j])
    decreases |dir| - i
  {
    if i == |dir| || IsEnd(dir[i]) then i else EndFrom(dir, i + 1)
  }

  function End(dir: seq<Record>): nat { EndFrom(dir, 0) }

  /** findfile: the record of the file, or the size of the directory. */
  function FindFrom(dir: seq<Record>, name: string, i: nat): (r: nat)
    requires i <= |dir|
    ensures i <= r <= |dir|
    ensures r < |dir| ==> !IsEnd(dir[r]) && !IsDeleted(dir[r]) && dir[r].name == name
    decreases |dir| - i
  {
    if i == |dir| || IsEnd(dir[i]) then |dir|
    else if !IsDeleted(dir[i]) && dir[i].name == name then i
    else FindFrom(dir, name, i + 1)
  }

  function Find(dir: seq<Record>, name: string): nat { FindFrom(dir, name, 0) }

  // The first deleted record from i on before the end of the directory, or its end.
  function FreeFrom(dir: seq<Record>, i: nat): (r: nat)
    requires i <= |dir|
    ensures i <= r <= |dir|
    ensures r < |dir| ==> IsEnd(dir[r]) || IsDeleted(dir[r])
    ensures forall j :: i <= j < r ==> !IsEnd(dir[j]) && !IsDeleted(dir[j])
    decreases |dir| - i
  {
    if i == |dir| || IsEnd(dir[i]) || IsDeleted(dir[i]) then i else FreeFrom(dir, i + 1)
  }

  /** How many records create counts: none when the directory has no record that marks its end. */
  function UsedEntries(dir: seq<Record>): nat { if End(dir) == |dir| then 0 else End(dir) }

  // ---------------------------------------------------------------- create

  /** The order in which create looks at the records: by starting block, deleted ones last. */
  ghost predicate IsOrder(dir: seq<Record>, n: nat, order: seq<nat>) {
    && n <= |dir| && |order| == n
    && (forall k :: 0 <= k < n ==> order[k] < n)
    && (forall i :: 0 <= i < n ==> i in order)
    && (forall k, l :: 0 <= k < l < n ==> order[k] != order[l])
    && (forall k, l :: 0 <= k < l < n ==> InOrder(dir[order[k]], dir[order[l]]))
  }

  predicate InOrder(a: Record, b: Record) {
    IsDeleted(b) || (!IsDeleted(a) && a.start <= b.start)
  }

  /** The loop over the gaps from the i-th record in order on: where the new file starts, or 0. */
  function Scan(dir: seq<Record>, order: seq<nat>, i: nat, prev: nat, blocks: nat, requested: nat): (start: nat)
    requires i <= |order| && prev < WORD && blocks < WORD
    requires forall k :: 0 <= k < |order| ==> order[k] < |dir| && dir[order[k]].start < WORD && dir[order[k]].reserved < WORD
    decreases |order| - i
  {
    var next := if i == |order| || IsDeleted(dir[order[i]]) then Minus(blocks, 1) else dir[order[i]].start;
    if Minus(next, prev) >= requested then prev
    else if i < |order| then Scan(dir, order, i + 1, Plus(dir[order[i]].start, dir[order[i]].reserved), blocks, requested)
    else 0
  }

  datatype Result = Done(disk: Disk) | Exists | NoSlot | NoRoom | NotFound | TooLarge

  // How many blocks a size in MiB takes: it is rounded up to an even number first.
  function Blocks(mebibytes: nat): (r: nat)
    ensures 2 * r - 1 <= mebibytes <= 2 * r
  {
    (if mebibytes % 2 != 0 then mebibytes + 1 else mebibytes) / 2
  }

  // The directory with the new record, and the mark of its end moved on when the new record was put there.
  function AddRecord(dir: seq<Record>, slot: nat, r: Record): (d: seq<Record>)
    requires slot < |dir|
    ensures |d| == |dir|
  {
    var d := dir[slot := r];
    if slot == UsedEntries(dir) && slot + 1 < |dir| then d[slot + 1 := d[slot + 1].(name := "")] else d
  }

  /** create, given the order in which qsort leaves the records. */
  function Create(d: Disk, name: string, mebibytes: nat, order: seq<nat>): (r: Result)
    requires Sized(d) && IsOrder(d.dir, UsedEntries(d.dir), order)
  {
    var slot := FreeFrom(d.dir, 0);
    if Find(d.dir, name) < ENTRIES then Exists
    else if slot == ENTRIES then NoSlot
    else
      var start := Scan(d.dir, order, 0, 1, d.blocks, Blocks(mebibytes));
      if start == 0 then NoRoom else Done(d.(dir := AddRecord(d.dir, slot, Record(name, start, Blocks(mebibytes), 0))))
  }

  // ---------------------------------------------------------------- read, write, delete

  // A byte of the disk, as getc gives it: past the end it is the low byte of EOF.
  function ByteAt(bytes: seq<byte>, j: nat): byte {
    if j < |bytes| then bytes[j] else 255
  }

  // So many bytes from a position on.
  function BytesAt(bytes: seq<byte>, from: nat, size: nat): (r: seq<byte>)
    ensures |r| == size && forall k :: 0 <= k < size ==> r[k] == ByteAt(bytes, from + k)
  {
    seq<byte>(size, k requires 0 <= k < size => ByteAt(bytes, from + k))
  }

  /** read: the bytes of a file. */
  function Read(d: Disk, name: string): (r: (bool, seq<byte>))
    requires Sized(d)
  {
    var i := Find(d.dir, name);
    if i == ENTRIES then (false, [])
    else (true, BytesAt(d.bytes, d.dir[i].start * BLOCK, d.dir[i].size))
  }

  // Bytes put in place of others from a position on; past its end the disk grows.
  function Overwrite(bytes: seq<byte>, from: nat, content: seq<byte>): (r: seq<byte>)
    ensures |r| == if content != [] && from + |content| > |bytes| then from + |content| else |bytes|
    ensures forall j :: 0 <= j < |bytes| ==> r[j] == if from <= j < from + |content| then content[j - from] else bytes[j]
    ensures forall k :: 0 <= k < |content| ==> r[from + k] == content[k]
  {
    if content == [] then bytes
    else
      var padded := if from + |content| > |bytes| then bytes + seq(from + |content| - |bytes|, _ => 0) else bytes;
      padded[..from] + content + padded[from + |content|..]
  }

  /** write: a local file's bytes into the space of an existing file. */
  function Write(d: Disk, name: string, content: seq<byte>): (r: Result)
    requires Sized(d)
  {
    var i := Find(d.dir, name);
    if i == ENTRIES then NotFound
    else if d.dir[i].reserved * BLOCK < |content| then TooLarge
    else
      Done(d.(bytes := Overwrite(d.bytes, d.dir[i].start * BLOCK, content), dir := d.dir[i := d.dir[i].(size := |content|)]))
  }

  /** delete: only the first byte of the name changes. */
  function Delete(d: Disk, name: string): (r: Result)
    requires Sized(d)
  {
    var i := Find(d.dir, name);
    if i == ENTRIES then NotFound
    else Done(d.(dir := d.dir[i := d.dir[i].(name := [DELETED] + d.dir[i].name[1..])]))
  }
}
