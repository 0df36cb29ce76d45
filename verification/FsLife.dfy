/** Writes seen from the directories, files written from start to end, and what a file's life leaves. */
module FsLife {
  import opened FsLayout
  import opened FsVolume
  import opened FsContent
  import opened FsDirectory
  import opened FsNames
  import opened FileSystem
  import opened FsRemove

  // ---------- A write keeps the names ----------

  lemma DirThroughWrite(v: Volume, v1: Volume, i: nat, S: set<Slot>, p: nat, data: seq<byte>, j: nat)
    requires Inv(v) && Wrote(v, v1, i, S, p, data) && IsDir(v, j) && DirShape(v, j) && j != i
    ensures IsDir(v1, j) && DirShape(v1, j) && Dentries(v1, j) == Dentries(v, j)
  {
    var b := v.nodes[j].direct[0];
    forall q | 0 <= q < NUM_SECTORS && q / 8 == b
      ensures v1.d[q] == v.d[q]
    {
      forall o | 0 <= o < SECTOR_SIZE
        ensures v1.d[q][o] == v.d[q][o]
      {
        var x := (q % 8) * SECTOR_SIZE + o;
        assert x / BLOCK_SIZE == 0 && x / SECTOR_SIZE == q % 8 && x % SECTOR_SIZE == o;
        assert Mapped(v, j, x);
        assert ByteAt(v1, j, x) == ByteAt(v, j, x);
        assert b * 8 + q % 8 == q;
      }
    }
    DirKept(v, v1, j);
  }

  /** Writing a file keeps every directory entry, every link count and the whole invariant. */
  lemma WrittenOk(v: Volume, i: nat, p: nat, data: seq<byte>)
    requires FsOk(v) && IsFile(v, i) && p + |data| <= MAX_FILE && Roomy(v, i, Touched(p, |data|))
    ensures var v1 := Written(v, i, p, data);
      && FsOk(v1) && Lost(v1) == Lost(v)
      && v1.inodeMap == v.inodeMap && IsFile(v1, i)
      && v1.nodes[i].nlinks == v.nodes[i].nlinks && v1.nodes[i].usize == p + |data|
      && (forall j: nat :: IsDir(v, j) ==> DirShape(v1, j) && Dentries(v1, j) == Dentries(v, j))
      && (forall f: nat :: Names(v1, f) == Names(v, f))
      && (forall j: nat, s :: Live(v, j) && j != i && IsSlot(s) ==> Ptr(v1, j, s) == Ptr(v, j, s))
  {
    hide Written;
    var v1 := Written(v, i, p, data);
    WrittenSplices(v, i, p, data);
    forall j: nat | IsDir(v, j)
      ensures IsDir(v1, j) && DirShape(v1, j) && Dentries(v1, j) == Dentries(v, j)
    {
      DirThroughWrite(v, v1, i, Touched(p, |data|), p, data, j);
    }
    hide Inv, Lost, Spliced, Touched;
    SameNames(v, v1, i);
  }

  lemma SameNames(v: Volume, v1: Volume, i: nat)
    requires DirsOk(v) && LinksOk(v) && v1.inodeMap == v.inodeMap && IsFile(v, i)
    requires forall j :: 0 <= j < NUM_INODES && j != i ==> v1.nodes[j] == v.nodes[j]
    requires SameMeta(v.nodes[i], v1.nodes[i].(usize := v.nodes[i].usize))
    requires forall j: nat :: IsDir(v, j) ==> DirShape(v1, j) && Dentries(v1, j) == Dentries(v, j)
    ensures DirsOk(v1) && LinksOk(v1)
    ensures forall f: nat :: Names(v1, f) == Names(v, f)
  {
    assert forall j: nat :: Live(v1, j) <==> Live(v, j);
    assert forall j: nat :: IsDir(v1, j) <==> IsDir(v, j);
    assert forall j: nat :: IsFile(v1, j) <==> IsFile(v, j);
    forall f: nat
      ensures Names(v1, f) == Names(v, f)
    {
      OneDirChanges(v, v1, f, NUM_INODES, NUM_INODES);
    }
    hide Dentries, DirShape, Names;
    forall j: nat, k | IsDir(v1, j) && 0 <= k < |Dentries(v1, j)|
      ensures NameOk(v1, Dentries(v1, j), k)
    {
      assert NameOk(v, Dentries(v, j), k);
    }
  }

  // ---------- A file written from start to end ----------

  function TableStart(t: nat): nat {
    DIRECT_BYTES + TABLE_BYTES * t
  }

  /** The file has exactly the tables that its size needs. */
  ghost predicate Sequential(v: Volume, i: nat) {
    i < NUM_INODES && forall t :: 0 <= t < NUM_LEV1 ==> (v.nodes[i].lev1[t] != 0 <==> v.nodes[i].usize > TableStart(t))
  }

  lemma AppendNeedsTable(v: Volume, i: nat, data: seq<byte>, t: nat)
    requires Inv(v) && Live(v, i) && Sequential(v, i) && v.nodes[i].usize + |data| <= MAX_FILE && t < NUM_LEV1
    requires Lev1(t) in Touched(v.nodes[i].usize, |data|)
    ensures v.nodes[i].usize + |data| > TableStart(t)
  {
    var p := v.nodes[i].usize;
    var b :| FirstBlock(p) <= b < BlockEnd(p, |data|) && b >= NUM_DIRECT && Lev1(t) == TableSlot(b);
    assert b >= NUM_DIRECT + TABLE_ENTRIES * t;
  }

  lemma AppendMakesTable(v: Volume, v1: Volume, i: nat, data: seq<byte>, S: set<Slot>, t: nat)
    requires Sequential(v, i) && v.nodes[i].usize + |data| <= MAX_FILE && t < NUM_LEV1
    requires Wrote(v, v1, i, S, v.nodes[i].usize, data)
    requires v.nodes[i].usize <= TableStart(t) < v.nodes[i].usize + |data|
    ensures v1.nodes[i].lev1[t] != 0
  {
    var p := v.nodes[i].usize;
    var b := NUM_DIRECT + TABLE_ENTRIES * t;
    assert b * BLOCK_SIZE == TableStart(t);
    assert FirstBlock(p) <= b < BlockEnd(p, |data|);
    WrittenBlockMapped(v, v1, i, p, data, S, b);
    assert TableSlot(b) == Lev1(t);
  }

  /** Appending keeps a sequentially written file sequential. */
  lemma AppendSequential(v: Volume, i: nat, data: seq<byte>)
    requires Sequential(v, i) && v.nodes[i].usize + |data| <= MAX_FILE
    requires Roomy(v, i, Touched(v.nodes[i].usize, |data|))
    ensures Sequential(Written(v, i, v.nodes[i].usize, data), i)
  {
    hide Written;
    var p := v.nodes[i].usize;
    var v1 := Written(v, i, p, data);
    WrittenSplices(v, i, p, data);
    forall t | 0 <= t < NUM_LEV1
      ensures v1.nodes[i].lev1[t] != 0 <==> v1.nodes[i].usize > TableStart(t)
    {
      assert Ptr(v1, i, Lev1(t)) == Ptr(v, i, Lev1(t)) || (Lev1(t) in Touched(p, |data|) && Ptr(v, i, Lev1(t)) == 0);
      if Lev1(t) in Touched(p, |data|) {
        AppendNeedsTable(v, i, data, t);
      }
      if p <= TableStart(t) < p + |data| {
        AppendMakesTable(v, v1, i, data, Touched(p, |data|), t);
      }
    }
  }

  /** The size of a sequentially written file shows its tables exactly while the file is not of the greatest
      size: the bound that rm tests for the second table is strict. */
  lemma SequentialShows(v: Volume, i: nat)
    requires Sequential(v, i) && v.nodes[i].usize <= MAX_FILE
    ensures SizeShowsTables(v, i) <==> v.nodes[i].usize < MAX_FILE
    ensures TablesThere(v, i)
  {
    assert TableStart(0) == DIRECT_BYTES && TableStart(1) == ONE_TABLE && TableStart(2) == MAX_FILE;
    if v.nodes[i].usize == MAX_FILE {
      assert v.nodes[i].lev1[1] != 0 && !TableFreed(MAX_FILE, 1);
    }
  }

  /** One byte behind the direct blocks, then one byte at the start: the file has size 1 and a table that rm
      will not look at, so the table and its block are lost with the last name. */
  lemma SeekBackLeaks(v: Volume, i: nat, x: byte, y: byte)
    requires FsOk(v) && IsFile(v, i) && Roomy(v, i, Touched(DIRECT_BYTES, 1))
    requires Roomy(Written(v, i, DIRECT_BYTES, [x]), i, Touched(0, 1))
    ensures var w := Written(Written(v, i, DIRECT_BYTES, [x]), i, 0, [y]);
      FsOk(w) && IsFile(w, i) && w.nodes[i].usize == 1 && w.nodes[i].lev1[0] != 0 &&
      TablesThere(w, i) && !SizeShowsTables(w, i) && w.nodes[i].lev1[0] in Unshown(w, i)
  {
    hide Written, Roomy, Touched, DirsOk, LinksOk, Names, Dentries, DirShape;
    var v1 := Written(v, i, DIRECT_BYTES, [x]);
    var w := Written(v1, i, 0, [y]);
    WrittenOk(v, i, DIRECT_BYTES, [x]);
    WrittenOk(v1, i, 0, [y]);
    WrittenSplices(v, i, DIRECT_BYTES, [x]);
    WrittenSplices(v1, i, 0, [y]);
    WrittenBlockMapped(v, v1, i, DIRECT_BYTES, [x], Touched(DIRECT_BYTES, 1), NUM_DIRECT);
    assert TableSlot(NUM_DIRECT) == Lev1(0) && Ptr(v1, i, Lev1(0)) != 0;
    assert Ptr(w, i, Lev1(0)) == Ptr(v1, i, Lev1(0));
    assert Owns(w, i, Lev1(0), w.nodes[i].lev1[0]) && !FreedSlot(w, i, Lev1(0));
    assert Hidden(w, i, w.nodes[i].lev1[0]);
  }

  function Appends(v: Volume, i: nat, ws: seq<seq<byte>>): Volume
    requires i < NUM_INODES
    decreases |ws|
  {
    if ws == [] || v.nodes[i].usize + |ws[0]| > MAX_FILE then v
    else Appends(Written(v, i, v.nodes[i].usize, ws[0]), i, ws[1..])
  }

  /** Each append finds the free blocks it needs. */
  ghost predicate AppendsFit(v: Volume, i: nat, ws: seq<seq<byte>>)
    decreases |ws|
  {
    i < NUM_INODES && (ws == [] || (
      && v.nodes[i].usize + |ws[0]| <= MAX_FILE
      && Roomy(v, i, Touched(v.nodes[i].usize, |ws[0]|))
      && AppendsFit(Written(v, i, v.nodes[i].usize, ws[0]), i, ws[1..])))
  }

  /** What any number of appends keeps. */
  ghost predicate AppendKept(v: Volume, v1: Volume, i: nat) {
    && FsOk(v1) && Lost(v1) == Lost(v) && Sequential(v1, i) && v1.inodeMap == v.inodeMap
    && IsFile(v1, i) && v1.nodes[i].nlinks == v.nodes[i].nlinks
    && (forall j: nat :: IsDir(v, j) && DirShape(v, j) ==>
          IsDir(v1, j) && DirShape(v1, j) && Dentries(v1, j) == Dentries(v, j))
    && (forall j: nat, s :: Live(v, j) && j != i && IsSlot(s) ==> Ptr(v1, j, s) == Ptr(v, j, s))
  }

  lemma AppendKeeps(v: Volume, i: nat, data: seq<byte>)
    requires FsOk(v) && IsFile(v, i) && Sequential(v, i) && v.nodes[i].usize + |data| <= MAX_FILE
    requires Roomy(v, i, Touched(v.nodes[i].usize, |data|))
    ensures AppendKept(v, Written(v, i, v.nodes[i].usize, data), i)
  {
    hide Written, Inv, Lost, LinksOk, Names, Touched, Roomy;
    var v1 := Written(v, i, v.nodes[i].usize, data);
    AppendSequential(v, i, data);
    WrittenOk(v, i, v.nodes[i].usize, data);
    forall j: nat | IsDir(v, j)
      ensures IsDir(v1, j)
    {
      WrittenDirMode(v, i, v.nodes[i].usize, data, j);
    }
  }

  lemma WrittenDirMode(v: Volume, i: nat, p: nat, data: seq<byte>, j: nat)
    requires IsFile(v, i) && p + |data| <= MAX_FILE && Roomy(v, i, Touched(p, |data|)) && IsDir(v, j)
    ensures IsDir(Written(v, i, p, data), j)
  {
    hide Written;
    WrittenSplices(v, i, p, data);
  }

  lemma AppendKeptJoin(v: Volume, v1: Volume, v2: Volume, i: nat)
    requires AppendKept(v, v1, i) && AppendKept(v1, v2, i)
    ensures AppendKept(v, v2, i)
  {
    hide FsOk, Lost, Dentries, DirShape;
    assert forall j: nat :: Live(v1, j) <==> Live(v, j);
  }

  lemma {:induction false} AppendsKeep(v: Volume, i: nat, ws: seq<seq<byte>>)
    requires FsOk(v) && IsFile(v, i) && Sequential(v, i) && AppendsFit(v, i, ws)
    ensures AppendKept(v, Appends(v, i, ws), i)
    decreases |ws|
  {
    hide Written, FsOk, Lost, Touched, Roomy, Dentries, DirShape, AppendKept;
    if ws == [] {
      AppendKeptSelf(v, i);
    } else {
      var v1 := Written(v, i, v.nodes[i].usize, ws[0]);
      AppendKeeps(v, i, ws[0]);
      AppendKeptFacts(v, v1, i);
      AppendsKeep(v1, i, ws[1..]);
      AppendKeptJoin(v, v1, Appends(v1, i, ws[1..]), i);
    }
  }

  lemma AppendKeptSelf(v: Volume, i: nat)
    requires FsOk(v) && IsFile(v, i) && Sequential(v, i)
    ensures AppendKept(v, v, i)
  {
  }

  lemma AppendKeptFacts(v: Volume, v1: Volume, i: nat)
    requires AppendKept(v, v1, i)
    ensures FsOk(v1) && IsFile(v1, i) && Sequential(v1, i)
  {
  }

  // ---------- Maps ----------

  lemma SameByte(a: bv8, b: bv8)
    requires forall j: nat :: j < 8 ==> HasBit(a, j) == HasBit(b, j)
    ensures a == b
  {
    assert HasBit(a, 0) == HasBit(b, 0) && HasBit(a, 1) == HasBit(b, 1) && HasBit(a, 2) == HasBit(b, 2) && HasBit(a, 3) == HasBit(b, 3);
    assert HasBit(a, 4) == HasBit(b, 4) && HasBit(a, 5) == HasBit(b, 5) && HasBit(a, 6) == HasBit(b, 6) && HasBit(a, 7) == HasBit(b, 7);
  }

  lemma SameBits(m: seq<bv8>, n: seq<bv8>)
    requires |m| == |n| && forall k: nat :: k < 8 * |m| ==> Bit(m, k) == Bit(n, k)
    ensures m == n
  {
    forall i | 0 <= i < |m|
      ensures m[i] == n[i]
    {
      forall j: nat | j < 8
        ensures HasBit(m[i], j) == HasBit(n[i], j)
      {
        BitOf(m, i, j);
        BitOf(n, i, j);
      }
      SameByte(m[i], n[i]);
    }
  }

  lemma SetThenClear(m: seq<bv8>, n: nat)
    requires n < 8 * |m| && !Bit(m, n)
    ensures ClearBit(SetBit(m, n), n) == m
  {
    forall k: nat | k < 8 * |m|
      ensures Bit(ClearBit(SetBit(m, n), n), k) == Bit(m, k)
    {
      OneBit(m, n, k);
      OneBit(SetBit(m, n), n, k);
    }
    SameBits(ClearBit(SetBit(m, n), n), m);
  }

  /** The block map is determined by the pointers of the live inodes and by what was lost. */
  lemma OwnersFixMap(v: Volume, v1: Volume)
    requires Inv(v) && Inv(v1) && Lost(v1) == Lost(v)
    requires forall j: nat :: Live(v1, j) <==> Live(v, j)
    requires forall j: nat, s :: Live(v, j) && IsSlot(s) ==> Ptr(v1, j, s) == Ptr(v, j, s)
    ensures v1.blockMap == v.blockMap
  {
    assert forall j: nat, s, b: nat :: Owns(v1, j, s, b) <==> Owns(v, j, s, b);
    assert forall b: nat :: Owned(v1, b) <==> Owned(v, b);
    forall k: nat | k < 8 * |v.blockMap|
      ensures Bit(v1.blockMap, k) == Bit(v.blockMap, k)
    {
      MarkedIff(v, k);
      MarkedIff(v1, k);
    }
    SameBits(v1.blockMap, v.blockMap);
  }

  /** A block is marked when it is reserved, owned or lost. */
  lemma MarkedIff(v: Volume, b: nat)
    requires Inv(v) && b < NUM_BLOCKS
    ensures Bit(v.blockMap, b) <==> b < RESERVED_BLOCKS || Owned(v, b) || b in Lost(v)
  {
    if Owned(v, b) {
      var j: nat, s :| Owns(v, j, s, b);
    }
    assert b < RESERVED_BLOCKS ==> !Free(v, b);
  }

  // ---------- The life of a file ----------

  /** After touch, the new name is the last entry and refers to the new inode. */
  lemma TouchFound(v: Volume, p: nat, name: seq<byte>)
    requires FsOk(v) && HasRoom(v, p) && IsName(name) && !Found(v, p, name)
    ensures NextInode(v) < NUM_INODES && NextInode(v) != p
    ensures var v1 := Touch(v, p, name);
      && IsDir(v1, p) && DirShape(v1, p) && Found(v1, p, name) && Target(v1, p, name) == NextInode(v)
      && (forall j: nat :: Live(v1, j) <==> Live(v, j) || j == NextInode(v))
      && v1.inodeMap == SetBit(v.inodeMap, NextInode(v))
      && v1.nodes[NextInode(v)] == FreshInode(NextInode(v), NextBlock(v), FILE, 1, 0)
  {
    RoomGives(v, p);
    var i, b := NextInode(v), NextBlock(v);
    var v0 := NewInode(v, i, b, FILE, 1, 0);
    NewFileOk(v, i, b);
    assert v0.nodes[i] == FreshInode(i, b, FILE, 1, 0) && v0.inodeMap == SetBit(v.inodeMap, i);
    hide Inv, Lost, Names, NewInode, AddDentry, DirsOk, LinksOk;
    var e := AddDentryReplaces(v0, p, FILE, i, name);
    FindLast(Dentries(v, p), e, 0, name);
  }

  /** Create a file, write it from start to end in any number of calls, remove it: both maps are as
      they were before, whatever earlier removals have lost. */
  lemma LifeRestoresMaps(v: Volume, p: nat, name: seq<byte>, ws: seq<seq<byte>>)
    requires FsOk(v) && HasRoom(v, p) && IsName(name) && !Found(v, p, name)
    requires NextInode(v) < NUM_INODES && NextInode(v) != p
    requires AppendsFit(Touch(v, p, name), NextInode(v), ws)
    requires Appends(Touch(v, p, name), NextInode(v), ws).nodes[NextInode(v)].usize < MAX_FILE
    ensures var v2 := Appends(Touch(v, p, name), NextInode(v), ws);
      && FsOk(v2) && RmReady(v2, p, name) && Found(v2, p, name) && v2.nodes[p].usize > 64
      && Target(v2, p, name) == NextInode(v)
      && (forall t :: 0 <= t < NUM_LEV1 ==> v2.nodes[NextInode(v)].lev1[t] < NUM_BLOCKS)
      && Rm(v2, p, name).blockMap == v.blockMap && Rm(v2, p, name).inodeMap == v.inodeMap
  {
    hide Touch, Appends, AppendsFit, Rm, FsOk, Lost, Inv, AppendKept, Dentries, Found, Target, RmReady;
    hide DirShape, TablesThere, SizeShowsTables, Sequential;
    var i, v1 := NextInode(v), Touch(v, p, name);
    var v2 := Appends(v1, i, ws);
    FsOkInv(v);
    RoomGives(v, p);
    TouchOk(v, p, name);
    TouchFound(v, p, name);
    NewIsSequential(v1, i);
    AppendsKeep(v1, i, ws);
    AppendKeptFacts(v1, v2, i);
    SequentialShows(v2, i);
    NewFileGone(v, v1, v2, i, p, name);
  }

  lemma NewIsSequential(v: Volume, i: nat)
    requires i < NUM_INODES && v.nodes[i].usize == 0 && v.nodes[i].lev1 == seq(NUM_LEV1, _ => 0)
    ensures Sequential(v, i)
  {
  }

  lemma NewFileGone(v: Volume, v1: Volume, v2: Volume, i: nat, p: nat, name: seq<byte>)
    requires Inv(v) && FsOk(v1) && Lost(v1) == Lost(v) && i < NUM_INODES && !Live(v, i) && IsName(name)
    requires v1.inodeMap == SetBit(v.inodeMap, i)
    requires forall j: nat :: Live(v1, j) <==> Live(v, j) || j == i
    requires forall j: nat, s :: Live(v, j) && IsSlot(s) ==> Ptr(v1, j, s) == Ptr(v, j, s)
    requires IsDir(v1, p) && DirShape(v1, p) && Found(v1, p, name) && Target(v1, p, name) == i
    requires AppendKept(v1, v2, i) && v1.nodes[i].nlinks == 1 && TablesThere(v2, i) && SizeShowsTables(v2, i)
    ensures FsOk(v2) && RmReady(v2, p, name) && Found(v2, p, name) && v2.nodes[p].usize > 64 && Target(v2, p, name) == i
    ensures forall t :: 0 <= t < NUM_LEV1 ==> v2.nodes[i].lev1[t] < NUM_BLOCKS
    ensures Rm(v2, p, name).blockMap == v.blockMap && Rm(v2, p, name).inodeMap == v.inodeMap
  {
    hide FsOk, Lost, Inv, Rm, Dentries;
    assert Dentries(v2, p) == Dentries(v1, p) && DirShape(v2, p);
    RmOk(v2, p, name);
    var v3 := Rm(v2, p, name);
    assert LastLink(v2, p, name);
    assert Lost(v3) == Lost(v2);
    forall j: nat
      ensures Live(v3, j) <==> Live(v, j)
    {
      assert Live(v2, j) <==> Live(v1, j);
    }
    forall j: nat, s | Live(v, j) && IsSlot(s)
      ensures Ptr(v3, j, s) == Ptr(v, j, s)
    {
      assert j != i && Live(v1, j) && Live(v2, j);
    }
    FsOkInv(v3);
    OwnersFixMap(v, v3);
    SetThenClear(v.inodeMap, i);
  }

  lemma FsOkInv(v: Volume)
    requires FsOk(v)
    ensures Inv(v)
  {
  }
}
