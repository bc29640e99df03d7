/** How deleted records mislead create: a run of commands on a formatted disk of ten blocks that ends with one
    file over another. */
module BmfsExample {
  import opened Bmfs
  import opened BmfsProofs

  datatype Command = Make(name: string, mebibytes: nat, order: seq<nat>) | Remove(name: string)

  // qsort may leave the records in this order.
  ghost predicate Sortable(d: Disk, c: Command) {
    Sized(d) && (c.Make? ==> IsOrder(d.dir, UsedEntries(d.dir), c.order))
  }

  /** The disk after a command. */
  ghost function Obey(d: Disk, c: Command): Disk
    requires Sortable(d, c)
  {
    match c
    case Make(name, mebibytes, order) => Left(d, Create(d, name, mebibytes, order))
    case Remove(name) => Left(d, Delete(d, name))
  }

  ghost predicate Obeyable(d: Disk, cs: seq<Command>)
    decreases |cs|
  {
    cs == [] || (Sortable(d, cs[0]) && Obeyable(Obey(d, cs[0]), cs[1..]))
  }

  ghost function ObeyAll(d: Disk, cs: seq<Command>): Disk
    requires Obeyable(d, cs)
    decreases |cs|
  {
    if cs == [] then d else ObeyAll(Obey(d, cs[0]), cs[1..])
  }

  // ---------------------------------------------------------------- small directories

  // So many records, and the rest as format leaves them.
  predicate Holds(d: Disk, rs: seq<Record>) {
    && Sized(d) && d.blocks == 10 && |rs| <= 3
    && (forall i :: 0 <= i < |rs| ==> d.dir[i] == rs[i] && rs[i].name != "")
    && (forall i :: |rs| <= i < ENTRIES ==> d.dir[i] == Record("", 0, 0, 0))
  }

  lemma EndHeld(d: Disk, rs: seq<Record>)
    requires Holds(d, rs)
    ensures End(d.dir) == |rs| && UsedEntries(d.dir) == |rs|
  {
    EndIsFrom(d.dir, |rs|, 0);
  }

  /** A command is carried out on a disk with a small directory. */
  ghost predicate Gives(d: Disk, c: Command, rs: seq<Record>) {
    Sortable(d, c) && Holds(Obey(d, c), rs)
  }

  lemma Makes(d: Disk, rs: seq<Record>, c: Command, slot: nat, start: nat, qs: seq<Record>)
    requires Holds(d, rs) && c.Make? && IsOrder(d.dir, |rs|, c.order) && NameOk(c.name)
    requires forall i :: 0 <= i < |rs| ==> IsDeleted(rs[i]) || rs[i].name != c.name
    requires slot <= |rs| && slot < 3 && (slot < |rs| ==> IsDeleted(rs[slot])) && forall i :: 0 <= i < slot ==> !IsDeleted(rs[i])
    requires start == Scan(d.dir, c.order, 0, 1, 10, Blocks(c.mebibytes)) && start != 0 && start < 10 && c.mebibytes < 20
    requires var r := Record(c.name, start, Blocks(c.mebibytes), 0); qs == if slot < |rs| then rs[slot := r] else rs + [r]
    ensures Gives(d, c, qs)
  {
    EndHeld(d, rs);
    FindIsLive(d.dir, c.name);
    FreeIs(d.dir, slot, 0);
    var e := Obey(d, c);
    CreatedSized(d, c.name, c.mebibytes, c.order);
    assert e.dir == AddRecord(d.dir, slot, Record(c.name, start, Blocks(c.mebibytes), 0));
  }

  lemma {:induction false} FreeIs(dir: seq<Record>, slot: nat, i: nat)
    requires i <= slot < |dir| && (IsEnd(dir[slot]) || IsDeleted(dir[slot]))
    requires forall j :: i <= j < slot ==> !IsEnd(dir[j]) && !IsDeleted(dir[j])
    ensures FreeFrom(dir, i) == slot
    decreases slot - i
  {
    if i < slot {
      FreeIs(dir, slot, i + 1);
    }
  }

  lemma Removes(d: Disk, rs: seq<Record>, i: nat, name: string, qs: seq<Record>)
    requires Holds(d, rs) && i < |rs| && !IsDeleted(rs[i]) && rs[i].name == name
    requires forall j :: 0 <= j < i ==> IsDeleted(rs[j]) || rs[j].name != name
    requires qs == rs[i := rs[i].(name := [DELETED] + name[1..])]
    ensures Gives(d, Remove(name), qs)
  {
    EndHeld(d, rs);
    FindIsFrom(d.dir, name, i, 0);
  }

  // ---------------------------------------------------------------- the run

  function File(name: string, start: nat, reserved: nat): Record { Record(name, start, reserved, 0) }

  function Gone(start: nat, reserved: nat): Record { Record([DELETED], start, reserved, 0) }

  function Deletions(): seq<Command> { [Remove("x"), Remove("y"), Remove("z")] }

  /** Three files of 4 MiB are made and deleted, then two of 8 MiB fill the disk, and one of 4 MiB follows. */
  function Commands(): seq<Command> {
    [Make("x", 4, []), Make("y", 4, [0]), Make("z", 4, [0, 1])] + (Deletions() + LastThree())
  }

  lemma MakesThree(d: Disk) returns (d1: Disk, d2: Disk, d3: Disk)
    requires Holds(d, [])
    ensures Sortable(d, Make("x", 4, [])) && d1 == Obey(d, Make("x", 4, []))
    ensures Sortable(d1, Make("y", 4, [0])) && d2 == Obey(d1, Make("y", 4, [0]))
    ensures Sortable(d2, Make("z", 4, [0, 1])) && d3 == Obey(d2, Make("z", 4, [0, 1]))
    ensures Holds(d3, [File("x", 1, 2), File("y", 3, 2), File("z", 5, 2)])
  {
    d1 := MakesX(d);
    d2 := MakesY(d1);
    d3 := MakesZ(d2);
  }

  lemma MakesX(d: Disk) returns (r: Disk)
    requires Holds(d, [])
    ensures Sortable(d, Make("x", 4, [])) && r == Obey(d, Make("x", 4, [])) && Holds(r, [File("x", 1, 2)])
  {
    assert [] + [File("x", 1, 2)] == [File("x", 1, 2)];
    Makes(d, [], Make("x", 4, []), 0, 1, [File("x", 1, 2)]);
    r := Obey(d, Make("x", 4, []));
  }

  lemma MakesY(d: Disk) returns (r: Disk)
    requires Holds(d, [File("x", 1, 2)])
    ensures Sortable(d, Make("y", 4, [0])) && r == Obey(d, Make("y", 4, [0])) && Holds(r, [File("x", 1, 2), File("y", 3, 2)])
  {
    var x, y := File("x", 1, 2), File("y", 3, 2);
    assert [x] + [y] == [x, y];
    assert Scan(d.dir, [0], 1, 3, 10, 2) == 3;
    Makes(d, [x], Make("y", 4, [0]), 1, 3, [x, y]);
    r := Obey(d, Make("y", 4, [0]));
  }

  lemma MakesZ(d: Disk) returns (r: Disk)
    requires Holds(d, [File("x", 1, 2), File("y", 3, 2)])
    ensures Sortable(d, Make("z", 4, [0, 1])) && r == Obey(d, Make("z", 4, [0, 1]))
    ensures Holds(r, [File("x", 1, 2), File("y", 3, 2), File("z", 5, 2)])
  {
    var x, y, z := File("x", 1, 2), File("y", 3, 2), File("z", 5, 2);
    var order: seq<nat> := [0, 1];
    assert [x, y] + [z] == [x, y, z];
    ScanPastTwo(d.dir, order);
    assert order[0] == 0 && order[1] == 1;
    Makes(d, [x, y], Make("z", 4, order), 2, 5, [x, y, z]);
    r := Obey(d, Make("z", 4, order));
  }

  lemma ScanPastTwo(dir: seq<Record>, order: seq<nat>)
    requires |dir| == ENTRIES && order == [0, 1] && dir[0] == File("x", 1, 2) && dir[1] == File("y", 3, 2)
    ensures Scan(dir, order, 0, 1, 10, 2) == 5
  {
    assert Scan(dir, order, 2, 5, 10, 2) == 5;
    assert Scan(dir, order, 1, 3, 10, 2) == 5;
  }

  lemma DeletesThree(d: Disk) returns (d1: Disk, d2: Disk, d3: Disk)
    requires Holds(d, [File("x", 1, 2), File("y", 3, 2), File("z", 5, 2)])
    ensures Sortable(d, Remove("x")) && d1 == Obey(d, Remove("x"))
    ensures Sortable(d1, Remove("y")) && d2 == Obey(d1, Remove("y"))
    ensures Sortable(d2, Remove("z")) && d3 == Obey(d2, Remove("z"))
    ensures Holds(d3, [Gone(1, 2), Gone(3, 2), Gone(5, 2)])
  {
    var x, y, z := File("x", 1, 2), File("y", 3, 2), File("z", 5, 2);
    assert [DELETED] + "x"[1..] == [DELETED] && [DELETED] + "y"[1..] == [DELETED] && [DELETED] + "z"[1..] == [DELETED];
    Removes(d, [x, y, z], 0, "x", [Gone(1, 2), y, z]);
    d1 := Obey(d, Remove("x"));
    Removes(d1, [Gone(1, 2), y, z], 1, "y", [Gone(1, 2), Gone(3, 2), z]);
    d2 := Obey(d1, Remove("y"));
    Removes(d2, [Gone(1, 2), Gone(3, 2), z], 2, "z", [Gone(1, 2), Gone(3, 2), Gone(5, 2)]);
    d3 := Obey(d2, Remove("z"));
  }

  lemma OrderOfThree(dir: seq<Record>)
    requires |dir| >= 3 && (forall i :: 1 <= i < 3 ==> IsDeleted(dir[i]) || (!IsDeleted(dir[i - 1]) && dir[i - 1].start <= dir[i].start))
    ensures IsOrder(dir, 3, [0, 1, 2])
  {
    var order := [0, 1, 2];
    assert order[0] == 0 && order[1] == 1 && order[2] == 2;
  }

  lemma FillsUp(d: Disk) returns (d1: Disk, d2: Disk, d3: Disk)
    requires Holds(d, [Gone(1, 2), Gone(3, 2), Gone(5, 2)])
    ensures Sortable(d, Make("a", 8, [0, 1, 2])) && d1 == Obey(d, Make("a", 8, [0, 1, 2]))
    ensures Sortable(d1, Make("b", 8, [0, 1, 2])) && d2 == Obey(d1, Make("b", 8, [0, 1, 2]))
    ensures Sortable(d2, Make("c", 4, [0, 1, 2])) && d3 == Obey(d2, Make("c", 4, [0, 1, 2]))
    ensures Holds(d2, [File("a", 1, 4), File("b", 5, 4), Gone(5, 2)])
    ensures Holds(d3, [File("a", 1, 4), File("b", 5, 4), File("c", 7, 2)])
  {
    var order: seq<nat> := [0, 1, 2];
    OrderOfThree(d.dir);
    assert Scan(d.dir, order, 0, 1, 10, 4) == 1;
    Makes(d, [Gone(1, 2), Gone(3, 2), Gone(5, 2)], Make("a", 8, order), 0, 1, [File("a", 1, 4), Gone(3, 2), Gone(5, 2)]);
    d1 := Obey(d, Make("a", 8, order));
    OrderOfThree(d1.dir);
    assert Scan(d1.dir, order, 1, 5, 10, 4) == 5;
    Makes(d1, [File("a", 1, 4), Gone(3, 2), Gone(5, 2)], Make("b", 8, order), 1, 5, [File("a", 1, 4), File("b", 5, 4), Gone(5, 2)]);
    d2 := Obey(d1, Make("b", 8, order));
    OrderOfThree(d2.dir);
    ScanPastStale(d2.dir, order);
    Makes(d2, [File("a", 1, 4), File("b", 5, 4), Gone(5, 2)], Make("c", 4, order), 2, 7, [File("a", 1, 4), File("b", 5, 4), File("c", 7, 2)]);
    d3 := Obey(d2, Make("c", 4, order));
  }

  lemma ScanPastStale(dir: seq<Record>, order: seq<nat>)
    requires |dir| == ENTRIES && order == [0, 1, 2] && dir[0] == File("a", 1, 4) && dir[1] == File("b", 5, 4) && dir[2] == Gone(5, 2)
    ensures Scan(dir, order, 0, 1, 10, 2) == 7
  {
    assert Scan(dir, order, 3, 7, 10, 2) == 7;
    assert Scan(dir, order, 2, 9, 10, 2) == 7;
    assert Scan(dir, order, 1, 5, 10, 2) == 7;
  }

  lemma ObeyHead(d: Disk, c: Command, cs: seq<Command>, all: seq<Command>, d1: Disk)
    requires Sortable(d, c) && d1 == Obey(d, c) && all == [c] + cs && Obeyable(d1, cs)
    ensures Obeyable(d, all) && ObeyAll(d, all) == ObeyAll(d1, cs)
  {
    assert all[0] == c && all[1..] == cs;
  }

  lemma ObeyTwo(d: Disk, c1: Command, c2: Command, d1: Disk, d2: Disk, cs: seq<Command>)
    requires Sortable(d, c1) && d1 == Obey(d, c1) && Sortable(d1, c2) && d2 == Obey(d1, c2) && Obeyable(d2, cs)
    ensures Obeyable(d, [c1, c2] + cs) && ObeyAll(d, [c1, c2] + cs) == ObeyAll(d2, cs)
  {
    ObeyHead(d1, c2, cs, [c2] + cs, d2);
    ObeyHead(d, c1, [c2] + cs, [c1, c2] + cs, d1);
  }

  lemma ObeyThree(d: Disk, c1: Command, c2: Command, c3: Command, d1: Disk, d2: Disk, d3: Disk, cs: seq<Command>)
    requires Sortable(d, c1) && d1 == Obey(d, c1) && Sortable(d1, c2) && d2 == Obey(d1, c2) && Sortable(d2, c3) && d3 == Obey(d2, c3)
    requires Obeyable(d3, cs)
    ensures Obeyable(d, [c1, c2, c3] + cs) && ObeyAll(d, [c1, c2, c3] + cs) == ObeyAll(d3, cs)
  {
    var rest := [c3] + cs;
    ObeyHead(d2, c3, cs, rest, d3);
    ObeyTwo(d, c1, c2, d1, d2, rest);
    assert [c1, c2] + rest == [c1, c2, c3] + cs;
  }

  function LastThree(): seq<Command> { [Make("a", 8, [0, 1, 2]), Make("b", 8, [0, 1, 2]), Make("c", 4, [0, 1, 2])] }

  lemma FillsUpAll(d: Disk) returns (r: Disk)
    requires Holds(d, [Gone(1, 2), Gone(3, 2), Gone(5, 2)])
    ensures Obeyable(d, LastThree()) && r == ObeyAll(d, LastThree()) && Holds(r, [File("a", 1, 4), File("b", 5, 4), File("c", 7, 2)])
  {
    var d1, d2, d3 := FillsUp(d);
    r := d3;
    var a, b, c := Make("a", 8, [0, 1, 2]), Make("b", 8, [0, 1, 2]), Make("c", 4, [0, 1, 2]);
    ObeyThree(d, a, b, c, d1, d2, d3, []);
    assert [a, b, c] + [] == LastThree();
  }

  lemma DeletesAndFills(d: Disk) returns (r: Disk)
    requires Holds(d, [File("x", 1, 2), File("y", 3, 2), File("z", 5, 2)])
    ensures Obeyable(d, Deletions() + LastThree()) && r == ObeyAll(d, Deletions() + LastThree())
    ensures Holds(r, [File("a", 1, 4), File("b", 5, 4), File("c", 7, 2)])
  {
    var d1, d2, d3 := DeletesThree(d);
    r := FillsUpAll(d3);
    ObeyThree(d, Remove("x"), Remove("y"), Remove("z"), d1, d2, d3, LastThree());
  }

  lemma Overlapping(d: Disk)
    requires Holds(d, [File("a", 1, 4), File("b", 5, 4), File("c", 7, 2)])
    ensures Live(d.dir, 1) && d.dir[1] == File("b", 5, 4) && Live(d.dir, 2) && d.dir[2] == File("c", 7, 2) && !FilesOk(d.dir, 10)
  {
    EndHeld(d, [File("a", 1, 4), File("b", 5, 4), File("c", 7, 2)]);
    assert Live(d.dir, 1) && Live(d.dir, 2) && !Apart(d.dir[1], d.dir[2]);
  }

  /** On a formatted disk of ten blocks these commands put file c over the last blocks of file b. */
  lemma StaleEndOverwrites(d: Disk) returns (r: Disk)
    requires Sized(d) && d.blocks == 10 && forall i :: 0 <= i < ENTRIES ==> d.dir[i] == Record("", 0, 0, 0)
    ensures Obeyable(d, Commands()) && r == ObeyAll(d, Commands())
    ensures Live(r.dir, 1) && r.dir[1] == File("b", 5, 4) && Live(r.dir, 2) && r.dir[2] == File("c", 7, 2)
    ensures !FilesOk(r.dir, 10)
  {
    var d1, d2, d3 := MakesThree(d);
    r := DeletesAndFills(d3);
    ObeyThree(d, Make("x", 4, []), Make("y", 4, [0]), Make("z", 4, [0, 1]), d1, d2, d3, Deletions() + LastThree());
    Overlapping(r);
  }
}
