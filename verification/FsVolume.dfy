/** The volume as one value, the block pointers of its inodes, and what a volume keeps:
    no two pointers name the same block, and every named block is marked in the block map. */
module FsVolume {
  import opened FsLayout

  datatype InodeRec = Inode(mode: nat, access: nat, nlinks: nat, ino: nat,
                            direct: seq<nat>, lev1: seq<nat>, usize: nat)
  type Inode = n: InodeRec | |n.direct| == NUM_DIRECT && |n.lev1| == NUM_LEV1
    witness InodeRec.Inode(0, 0, 0, 0, seq(NUM_DIRECT, _ => 0), seq(NUM_LEV1, _ => 0), 0)
  type InodeTable = t: seq<Inode> | |t| == NUM_INODES
    witness seq<Inode>(NUM_INODES, _ => BlankInode())

  function BlankInode(): Inode {
    InodeRec.Inode(0, 0, 0, 0, seq(NUM_DIRECT, _ => 0), seq(NUM_LEV1, _ => 0), 0)
  }

  datatype Volume = Volume(d: Disk, blockMap: BlockMap, inodeMap: InodeMap, nodes: InodeTable)

  predicate Live(v: Volume, i: nat) {
    i < NUM_INODES && Bit(v.inodeMap, i)
  }

  /** A place in an inode, or in one of its indirect tables, that can hold a block number. */
  datatype Slot = Direct(k: nat) | Lev1(t: nat) | Entry(t: nat, e: nat)

  predicate IsSlot(s: Slot) {
    match s
    case Direct(k) => k < NUM_DIRECT
    case Lev1(t) => t < NUM_LEV1
    case Entry(t, e) => t < NUM_LEV1 && e < TABLE_ENTRIES
  }

  /** The block number in a slot; 0 means none. */
  function Ptr(v: Volume, i: nat, s: Slot): nat
    requires i < NUM_INODES && IsSlot(s)
  {
    match s
    case Direct(k) => v.nodes[i].direct[k]
    case Lev1(t) => v.nodes[i].lev1[t]
    case Entry(t, e) =>
      var b := v.nodes[i].lev1[t];
      if 0 < b < NUM_BLOCKS then EntryAt(v.d, b, e) else 0
  }

  ghost predicate Owns(v: Volume, i: nat, s: Slot, b: nat) {
    b != 0 && Live(v, i) && IsSlot(s) && Ptr(v, i, s) == b
  }

  ghost predicate Free(v: Volume, b: nat) {
    b < NUM_BLOCKS && !Bit(v.blockMap, b)
  }

  ghost predicate Inv(v: Volume) {
    && (forall b: nat :: 0 <= b < RESERVED_BLOCKS ==> !Free(v, b))
    && (forall i: nat, s, b: nat :: Owns(v, i, s, b) ==> RESERVED_BLOCKS <= b < NUM_BLOCKS && !Free(v, b))
    && (forall i: nat, s, j: nat, r, b: nat :: Owns(v, i, s, b) && Owns(v, j, r, b) ==> i == j && s == r)
  }

  /** Every marked block outside the reserved ones is named by some live inode. */
  ghost predicate NoLeak(v: Volume) {
    forall b: nat :: RESERVED_BLOCKS <= b < NUM_BLOCKS && !Free(v, b) ==> exists i: nat, s :: Owns(v, i, s, b)
  }

  ghost predicate Owned(v: Volume, b: nat) {
    exists i: nat, s :: Owns(v, i, s, b)
  }

  /** Blocks marked for nobody: no live inode names them, so nothing will ever give them back. */
  ghost function Lost(v: Volume): set<nat> {
    set b: nat | RESERVED_BLOCKS <= b < NUM_BLOCKS && !Free(v, b) && !Owned(v, b)
  }

  lemma NoneLost(v: Volume)
    ensures NoLeak(v) <==> Lost(v) == {}
  {
    if Lost(v) == {} {
      forall b: nat | RESERVED_BLOCKS <= b < NUM_BLOCKS && !Free(v, b)
        ensures Owned(v, b)
      {
        assert b !in Lost(v);
      }
    }
  }

  /** v1 is v with the free block b put into the empty slot s0 of inode i0. */
  ghost predicate Attached(v: Volume, v1: Volume, i0: nat, s0: Slot, b: nat) {
    && v1.inodeMap == v.inodeMap
    && Live(v, i0) && IsSlot(s0)
    && (forall i :: 0 <= i < NUM_INODES && i != i0 ==> v1.nodes[i] == v.nodes[i])
    && SameMeta(v.nodes[i0], v1.nodes[i0])
    && (forall c: nat :: Free(v1, c) <==> Free(v, c) && c != b)
    && (forall i: nat, s :: Live(v, i) && IsSlot(s) ==>
          Ptr(v1, i, s) == if i == i0 && s == s0 then b else Ptr(v, i, s))
  }

  predicate SameMeta(n: Inode, m: Inode) {
    n.mode == m.mode && n.access == m.access && n.nlinks == m.nlinks && n.ino == m.ino && n.usize == m.usize
  }

  lemma AttachedKeeps(v: Volume, v1: Volume, i0: nat, s0: Slot, b: nat)
    requires Inv(v) && Free(v, b) && Attached(v, v1, i0, s0, b)
    requires Ptr(v, i0, s0) == 0
    ensures Inv(v1)
    ensures Lost(v1) == Lost(v)
  {
    forall i: nat, s, c: nat | Owns(v1, i, s, c)
      ensures if i == i0 && s == s0 then c == b else Owns(v, i, s, c)
    {
    }
    forall i: nat, s, c: nat | Owns(v, i, s, c)
      ensures Owns(v1, i, s, c)
    {
    }
    assert Owns(v1, i0, s0, b);
    assert forall c: nat :: Owned(v1, c) <==> Owned(v, c) || c == b;
  }

  // ---------- The three ways in which a slot is filled ----------

  function WithDirect(n: Inode, k: nat, b: nat): Inode
    requires k < NUM_DIRECT
  {
    n.(direct := n.direct[k := b])
  }

  function WithLev1(n: Inode, t: nat, b: nat): Inode
    requires t < NUM_LEV1
  {
    n.(lev1 := n.lev1[t := b])
  }

  function PutNode(v: Volume, i: nat, n: Inode): Volume
    requires i < NUM_INODES
  {
    v.(nodes := v.nodes[i := n])
  }

  function Marked(v: Volume, b: nat): Volume
    requires b < NUM_BLOCKS
  {
    v.(blockMap := SetBit(v.blockMap, b))
  }

  lemma MarkedFree(v: Volume, b: nat)
    requires b < NUM_BLOCKS
    ensures forall c: nat :: Free(Marked(v, b), c) <==> Free(v, c) && c != b
  {
    forall c: nat | c < NUM_BLOCKS
      ensures Free(Marked(v, b), c) <==> Free(v, c) && c != b
    {
      OneBit(v.blockMap, b, c);
    }
  }

  function FillDirect(v: Volume, i: nat, k: nat, b: nat): Volume
    requires i < NUM_INODES && k < NUM_DIRECT && b < NUM_BLOCKS
  {
    PutNode(Marked(v, b), i, WithDirect(v.nodes[i], k, b))
  }

  /** An empty slot filled with a free block: that block alone is attached, and all pointers stay distinct and marked. */
  lemma FillDirectAttaches(v: Volume, i0: nat, k: nat, b: nat)
    requires Inv(v) && Live(v, i0) && k < NUM_DIRECT && Free(v, b)
    ensures Attached(v, FillDirect(v, i0, k, b), i0, Direct(k), b)
    ensures Ptr(v, i0, Direct(k)) == 0 ==> Inv(FillDirect(v, i0, k, b)) && Lost(FillDirect(v, i0, k, b)) == Lost(v)
  {
    MarkedFree(v, b);
    var v1 := FillDirect(v, i0, k, b);
    forall c ensures Free(v1, c) <==> Free(v, c) && c != b {
      assert Free(v1, c) == Free(Marked(v, b), c);
    }
    if Ptr(v, i0, Direct(k)) == 0 {
      AttachedKeeps(v, v1, i0, Direct(k), b);
    }
  }

  /** A fresh, zeroed table block. */
  function FillLev1(v: Volume, i: nat, t: nat, b: nat): Volume
    requires i < NUM_INODES && t < NUM_LEV1 && b < NUM_BLOCKS
  {
    PutNode(Marked(v, b), i, WithLev1(v.nodes[i], t, b)).(d := PutBlock(v.d, b, seq<Sector>(8, _ => ZeroSector())))
  }

  lemma FillLev1Attaches(v: Volume, i0: nat, t: nat, b: nat)
    requires Inv(v) && Live(v, i0) && t < NUM_LEV1 && Free(v, b) && v.nodes[i0].lev1[t] == 0
    ensures Attached(v, FillLev1(v, i0, t, b), i0, Lev1(t), b)
    ensures Ptr(v, i0, Lev1(t)) == 0 ==> Inv(FillLev1(v, i0, t, b)) && Lost(FillLev1(v, i0, t, b)) == Lost(v)
  {
    MarkedFree(v, b);
    var v1 := FillLev1(v, i0, t, b);
    forall c ensures Free(v1, c) <==> Free(v, c) && c != b {
      assert Free(v1, c) == Free(Marked(v, b), c);
    }
    forall i: nat, s | Live(v, i) && IsSlot(s)
      ensures Ptr(v1, i, s) == if i == i0 && s == Lev1(t) then b else Ptr(v, i, s)
    {
      if s.Entry? {
        if i == i0 && s.t == t {
          assert !Free(v, 0);
          ZeroTable(v.d, b, s.e);
        } else {
          var c := v.nodes[i].lev1[s.t];
          if c != 0 {
            assert Owns(v, i, Lev1(s.t), c);
            SameTable(v.d, v1.d, c, s.e);
          }
        }
      }
    }
    AttachedKeeps(v, v1, i0, Lev1(t), b);
  }

  function FillEntry(v: Volume, i: nat, t: nat, e: nat, b: nat): Volume
    requires i < NUM_INODES && t < NUM_LEV1 && e < TABLE_ENTRIES && b < NUM_BLOCKS
    requires v.nodes[i].lev1[t] < NUM_BLOCKS
  {
    var c := v.nodes[i].lev1[t];
    Marked(v, b).(d := WriteTable(v.d, c, ReadTable(v.d, c)[e := b]))
  }

  lemma FillEntryAttaches(v: Volume, i0: nat, t: nat, e: nat, b: nat)
    requires Inv(v) && Live(v, i0) && t < NUM_LEV1 && e < TABLE_ENTRIES && Free(v, b)
    requires 0 < v.nodes[i0].lev1[t] < NUM_BLOCKS
    ensures Attached(v, FillEntry(v, i0, t, e, b), i0, Entry(t, e), b)
    ensures Ptr(v, i0, Entry(t, e)) == 0 ==> Inv(FillEntry(v, i0, t, e, b)) && Lost(FillEntry(v, i0, t, e, b)) == Lost(v)
  {
    MarkedFree(v, b);
    var v1 := FillEntry(v, i0, t, e, b);
    var c := v.nodes[i0].lev1[t];
    assert Owns(v, i0, Lev1(t), c);
    forall x ensures Free(v1, x) <==> Free(v, x) && x != b {
      assert Free(v1, x) == Free(Marked(v, b), x);
    }
    forall i: nat, s | Live(v, i) && IsSlot(s)
      ensures Ptr(v1, i, s) == if i == i0 && s == Entry(t, e) then b else Ptr(v, i, s)
    {
      if s.Entry? {
        var x := v.nodes[i].lev1[s.t];
        if x == c {
          assert Owns(v, i, Lev1(s.t), c);
          TableRoundTrip(v.d, c, ReadTable(v.d, c)[e := b], s.e);
        } else if x != 0 {
          assert Owns(v, i, Lev1(s.t), x);
          SameTable(v.d, v1.d, x, s.e);
        }
      }
    }
    if Ptr(v, i0, Entry(t, e)) == 0 {
      AttachedKeeps(v, v1, i0, Entry(t, e), b);
    }
  }

  // ---------- Writing a data sector ----------

  predicate IsData(s: Slot) {
    IsSlot(s) && !s.Lev1?
  }

  function PutSector(v: Volume, q: nat, c: Sector): Volume
    requires q < NUM_SECTORS
  {
    v.(d := v.d[q := c])
  }

  /** v1 differs from v at most inside the sectors of block b. */
  ghost predicate OnlyBlock(v: Volume, v1: Volume, b: nat) {
    && v1 == v.(d := v1.d)
    && forall q :: 0 <= q < NUM_SECTORS && q / 8 != b ==> v1.d[q] == v.d[q]
  }

  /** A write inside a data block changes no pointer of any file. */
  lemma DataBlockKeepsPtrs(v: Volume, v1: Volume, i0: nat, s0: Slot, b: nat)
    requires Inv(v) && IsData(s0) && Owns(v, i0, s0, b) && OnlyBlock(v, v1, b)
    ensures forall i: nat, s :: Live(v, i) && IsSlot(s) ==> Ptr(v1, i, s) == Ptr(v, i, s)
    ensures Inv(v1)
    ensures Lost(v1) == Lost(v)
  {
    forall i: nat, s | Live(v, i) && IsSlot(s)
      ensures Ptr(v1, i, s) == Ptr(v, i, s)
    {
      if s.Entry? {
        var x := v.nodes[i].lev1[s.t];
        if x != 0 {
          assert Owns(v, i, Lev1(s.t), x);
          assert x != b;
          SameTable(v.d, v1.d, x, s.e);
        }
      }
    }
    SamePtrs(v, v1);
  }

  /** Volumes with the same pointers in the same live inodes and the same map keep the same facts. */
  lemma SamePtrs(v: Volume, v1: Volume)
    requires v1.inodeMap == v.inodeMap && v1.blockMap == v.blockMap
    requires forall i: nat, s :: Live(v, i) && IsSlot(s) ==> Ptr(v1, i, s) == Ptr(v, i, s)
    ensures Inv(v) ==> Inv(v1)
    ensures Lost(v1) == Lost(v)
  {
    assert forall x: nat :: Free(v1, x) <==> Free(v, x);
    assert forall i: nat, s, x: nat :: Owns(v1, i, s, x) <==> Owns(v, i, s, x);
    assert forall x: nat :: Owned(v1, x) <==> Owned(v, x);
  }

  /** A write to a sector of a data block changes no pointer of any file. */
  lemma DataWriteKeepsPtrs(v: Volume, i0: nat, s0: Slot, b: nat, q: nat, c: Sector)
    requires Inv(v) && IsData(s0) && Owns(v, i0, s0, b) && q < NUM_SECTORS && q / 8 == b
    ensures forall i: nat, s :: Live(v, i) && IsSlot(s) ==> Ptr(PutSector(v, q, c), i, s) == Ptr(v, i, s)
    ensures Inv(PutSector(v, q, c))
    ensures Lost(PutSector(v, q, c)) == Lost(v)
  {
    DataBlockKeepsPtrs(v, PutSector(v, q, c), i0, s0, b);
  }
}
