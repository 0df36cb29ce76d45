/** A file as a map from byte positions to bytes, and what a step of a write does to it. */
module FsContent {
  import opened FsLayout
  import opened FsVolume

  /** The slot that holds block b of a file. */
  function DataSlot(b: nat): (s: Slot)
    requires b < MAX_BLOCKS
    ensures IsData(s)
  {
    if b < NUM_DIRECT then Direct(b)
    else Entry((b - NUM_DIRECT) / TABLE_ENTRIES, (b - NUM_DIRECT) % TABLE_ENTRIES)
  }

  /** The slot of the indirect table through which block b of a file is reached. */
  function TableSlot(b: nat): Slot
    requires b >= NUM_DIRECT
  {
    Lev1((b - NUM_DIRECT) / TABLE_ENTRIES)
  }

  function FileBlock(v: Volume, i: nat, b: nat): nat
    requires i < NUM_INODES && b < MAX_BLOCKS
  {
    Ptr(v, i, DataSlot(b))
  }

  predicate Mapped(v: Volume, i: nat, x: nat)
    requires i < NUM_INODES
  {
    x < MAX_FILE && FileBlock(v, i, x / BLOCK_SIZE) != 0
  }

  /** Byte x of file i. */
  function ByteAt(v: Volume, i: nat, x: nat): byte
    requires i < NUM_INODES && x < MAX_FILE
  {
    var b := FileBlock(v, i, x / BLOCK_SIZE);
    if b < NUM_BLOCKS then v.d[b * 8 + (x / SECTOR_SIZE) % 8][x % SECTOR_SIZE] else 0
  }

  // ---------- What a write may do ----------

  /** Only empty slots of S in inode i0 have been filled. */
  ghost predicate Grown(v0: Volume, v1: Volume, i0: nat, S: set<Slot>) {
    && v1.inodeMap == v0.inodeMap
    && Live(v0, i0)
    && (forall i :: 0 <= i < NUM_INODES && i != i0 ==> v1.nodes[i] == v0.nodes[i])
    && SameMeta(v0.nodes[i0], v1.nodes[i0].(usize := v0.nodes[i0].usize))
    && (forall i: nat, s {:trigger Ptr(v1, i, s)} {:trigger Ptr(v0, i, s)} :: Live(v0, i) && IsSlot(s) ==>
          Ptr(v1, i, s) == Ptr(v0, i, s) || (i == i0 && s in S && Ptr(v0, i, s) == 0))
    && (forall c: nat :: Free(v1, c) ==> Free(v0, c))
  }

  /** Bytes [p, p + |data|) of file i0 are data; every other mapped byte of every live file is as before. */
  ghost predicate Spliced(v0: Volume, v1: Volume, i0: nat, p: nat, data: seq<byte>)
    requires i0 < NUM_INODES
  {
    && (forall x: nat {:trigger Mapped(v1, i0, x)} {:trigger ByteAt(v1, i0, x)} :: p <= x < p + |data| ==> Mapped(v1, i0, x) && ByteAt(v1, i0, x) == data[x - p])
    && (forall i: nat, x: nat {:trigger Mapped(v0, i, x)} {:trigger ByteAt(v1, i, x)} :: Live(v0, i) && Mapped(v0, i, x) && !(i == i0 && p <= x < p + |data|) ==>
          Mapped(v1, i, x) && ByteAt(v1, i, x) == ByteAt(v0, i, x))
  }

  ghost function FreeSet(v: Volume): set<nat> {
    set b: nat | b < NUM_BLOCKS && Free(v, b)
  }

  ghost function Missing(v: Volume, i: nat, S: set<Slot>): set<Slot>
    requires i < NUM_INODES
  {
    set s | s in S && IsSlot(s) && Ptr(v, i, s) == 0
  }

  /** Free blocks left over once every empty slot of S has been given one. */
  ghost function Surplus(v: Volume, i: nat, S: set<Slot>): int
    requires i < NUM_INODES
  {
    |FreeSet(v)| - |Missing(v, i, S)|
  }

  ghost predicate Wrote(v0: Volume, v1: Volume, i0: nat, S: set<Slot>, p: nat, data: seq<byte>) {
    && Inv(v1)
    && Lost(v1) == Lost(v0)
    && Grown(v0, v1, i0, S)
    && Spliced(v0, v1, i0, p, data)
    && Surplus(v1, i0, S) == Surplus(v0, i0, S)
  }

  lemma WroteNothing(v: Volume, i0: nat, S: set<Slot>, p: nat)
    requires Inv(v) && Live(v, i0)
    ensures Wrote(v, v, i0, S, p, [])
  {
  }

  lemma SpliceJoin(v0: Volume, v1: Volume, v2: Volume, i0: nat, p: nat, a: seq<byte>, b: seq<byte>)
    requires Live(v0, i0) && v1.inodeMap == v0.inodeMap
    requires Spliced(v0, v1, i0, p, a) && Spliced(v1, v2, i0, p + |a|, b)
    ensures Spliced(v0, v2, i0, p, a + b)
  {
    forall x: nat | p <= x < p + |a + b|
      ensures Mapped(v2, i0, x) && ByteAt(v2, i0, x) == (a + b)[x - p]
    {
      if x < p + |a| {
        assert Mapped(v1, i0, x);
      }
    }
    forall i: nat, x: nat | Live(v0, i) && Mapped(v0, i, x) && !(i == i0 && p <= x < p + |a + b|)
      ensures Mapped(v2, i, x) && ByteAt(v2, i, x) == ByteAt(v0, i, x)
    {
      assert Mapped(v1, i, x);
    }
  }

  lemma GrownJoin(v0: Volume, v1: Volume, v2: Volume, i0: nat, S: set<Slot>)
    requires Grown(v0, v1, i0, S) && Grown(v1, v2, i0, S)
    ensures Grown(v0, v2, i0, S)
  {
    forall i: nat, s | Live(v0, i) && IsSlot(s)
      ensures Ptr(v2, i, s) == Ptr(v0, i, s) || (i == i0 && s in S && Ptr(v0, i, s) == 0)
    {
      assert Live(v1, i);
    }
  }

  lemma WroteJoin(v0: Volume, v1: Volume, v2: Volume, i0: nat, S: set<Slot>, p: nat, a: seq<byte>, b: seq<byte>)
    requires Wrote(v0, v1, i0, S, p, a) && Wrote(v1, v2, i0, S, p + |a|, b)
    ensures Wrote(v0, v2, i0, S, p, a + b)
  {
    SpliceJoin(v0, v1, v2, i0, p, a, b);
    GrownJoin(v0, v1, v2, i0, S);
  }

  lemma WroteThen(v0: Volume, v1: Volume, v2: Volume, i0: nat, S: set<Slot>, p: nat,
                  a: seq<byte>, b: seq<byte>, ab: seq<byte>)
    requires Wrote(v0, v1, i0, S, p, a) && Wrote(v1, v2, i0, S, p + |a|, b) && a + b == ab
    ensures Wrote(v0, v2, i0, S, p, ab)
  {
    WroteJoin(v0, v1, v2, i0, S, p, a, b);
  }

  // ---------- Filling a slot ----------

  lemma AttachedSurplus(v: Volume, v1: Volume, i0: nat, s0: Slot, b: nat, S: set<Slot>)
    requires Attached(v, v1, i0, s0, b) && Free(v, b) && b != 0 && s0 in S && Ptr(v, i0, s0) == 0
    ensures Surplus(v1, i0, S) == Surplus(v, i0, S)
  {
    assert FreeSet(v1) == FreeSet(v) - {b};
    assert b in FreeSet(v);
    assert Missing(v1, i0, S) == Missing(v, i0, S) - {s0};
    assert s0 in Missing(v, i0, S);
  }

  lemma AttachedWrites(v: Volume, v1: Volume, i0: nat, s0: Slot, b: nat, S: set<Slot>, p: nat)
    requires Inv(v) && Attached(v, v1, i0, s0, b) && Free(v, b) && s0 in S && Ptr(v, i0, s0) == 0
    requires forall i: nat, s, c: nat, q: nat ::
               Owns(v, i, s, c) && IsData(s) && q < NUM_SECTORS && q / 8 == c ==> v1.d[q] == v.d[q]
    ensures Wrote(v, v1, i0, S, p, [])
  {
    AttachedKeeps(v, v1, i0, s0, b);
    assert !Free(v, 0);
    AttachedSurplus(v, v1, i0, s0, b, S);
    forall i: nat, x: nat | Live(v, i) && Mapped(v, i, x)
      ensures Mapped(v1, i, x) && ByteAt(v1, i, x) == ByteAt(v, i, x)
    {
      var s := DataSlot(x / BLOCK_SIZE);
      var c := Ptr(v, i, s);
      assert Owns(v, i, s, c);
      var q := c * 8 + (x / SECTOR_SIZE) % 8;
      assert q / 8 == c;
    }
  }

  lemma FillDirectWrites(v: Volume, i0: nat, k: nat, b: nat, S: set<Slot>, p: nat)
    requires Inv(v) && Live(v, i0) && k < NUM_DIRECT && Free(v, b)
    requires Direct(k) in S && Ptr(v, i0, Direct(k)) == 0
    ensures Wrote(v, FillDirect(v, i0, k, b), i0, S, p, [])
  {
    FillDirectAttaches(v, i0, k, b);
    AttachedWrites(v, FillDirect(v, i0, k, b), i0, Direct(k), b, S, p);
  }

  lemma FillLev1Writes(v: Volume, i0: nat, t: nat, b: nat, S: set<Slot>, p: nat)
    requires Inv(v) && Live(v, i0) && t < NUM_LEV1 && Free(v, b)
    requires Lev1(t) in S && Ptr(v, i0, Lev1(t)) == 0
    ensures Wrote(v, FillLev1(v, i0, t, b), i0, S, p, [])
  {
    FillLev1Attaches(v, i0, t, b);
    AttachedWrites(v, FillLev1(v, i0, t, b), i0, Lev1(t), b, S, p);
  }

  lemma FillEntryWrites(v: Volume, i0: nat, t: nat, e: nat, b: nat, S: set<Slot>, p: nat)
    requires Inv(v) && Live(v, i0) && t < NUM_LEV1 && e < TABLE_ENTRIES && Free(v, b)
    requires 0 < v.nodes[i0].lev1[t] < NUM_BLOCKS
    requires Entry(t, e) in S && Ptr(v, i0, Entry(t, e)) == 0
    ensures Wrote(v, FillEntry(v, i0, t, e, b), i0, S, p, [])
  {
    FillEntryAttaches(v, i0, t, e, b);
    var c := v.nodes[i0].lev1[t];
    assert Owns(v, i0, Lev1(t), c);
    AttachedWrites(v, FillEntry(v, i0, t, e, b), i0, Entry(t, e), b, S, p);
  }

  // ---------- Writing into a sector ----------

  /** What memcpy leaves in a sector buffer: bytes [o, o + |data|) replaced. */
  function Patch(c: Sector, o: nat, data: seq<byte>): (r: Sector)
    requires o + |data| <= SECTOR_SIZE
    ensures forall k :: 0 <= k < SECTOR_SIZE ==> r[k] == if o <= k < o + |data| then data[k - o] else c[k]
  {
    c[..o] + data + c[o + |data|..]
  }

  /** The sector that holds byte x of file i, as a sector of the volume. */
  function SectorOf(v: Volume, i: nat, x: nat): (q: nat)
    requires i < NUM_INODES && x < MAX_FILE && FileBlock(v, i, x / BLOCK_SIZE) < NUM_BLOCKS
    ensures q < NUM_SECTORS
  {
    FileBlock(v, i, x / BLOCK_SIZE) * 8 + (x / SECTOR_SIZE) % 8
  }

  lemma SameSector(x: nat, y: nat)
    requires x / BLOCK_SIZE == y / BLOCK_SIZE && (x / SECTOR_SIZE) % 8 == (y / SECTOR_SIZE) % 8
    ensures x / SECTOR_SIZE == y / SECTOR_SIZE
  {
    assert (x / SECTOR_SIZE) / 8 == x / BLOCK_SIZE;
    assert (y / SECTOR_SIZE) / 8 == y / BLOCK_SIZE;
  }

  /** Different files, and different sectors of one file, lie in different sectors of the volume. */
  lemma SectorsApart(v: Volume, i: nat, x: nat, j: nat, y: nat)
    requires Inv(v) && Live(v, i) && Live(v, j) && Mapped(v, i, x) && Mapped(v, j, y)
    ensures FileBlock(v, i, x / BLOCK_SIZE) < NUM_BLOCKS && FileBlock(v, j, y / BLOCK_SIZE) < NUM_BLOCKS
    ensures SectorOf(v, i, x) == SectorOf(v, j, y) ==> i == j && x / SECTOR_SIZE == y / SECTOR_SIZE
  {
    var b, c := FileBlock(v, i, x / BLOCK_SIZE), FileBlock(v, j, y / BLOCK_SIZE);
    assert Owns(v, i, DataSlot(x / BLOCK_SIZE), b);
    assert Owns(v, j, DataSlot(y / BLOCK_SIZE), c);
    if SectorOf(v, i, x) == SectorOf(v, j, y) {
      assert SectorOf(v, i, x) / 8 == b && SectorOf(v, j, y) / 8 == c;
      assert DataSlot(x / BLOCK_SIZE) == DataSlot(y / BLOCK_SIZE);
      assert x / BLOCK_SIZE == y / BLOCK_SIZE;
      SameSector(x, y);
    }
  }

  lemma PatchSplices(v: Volume, i0: nat, p: nat, data: seq<byte>)
    requires Inv(v) && Live(v, i0) && Mapped(v, i0, p) && p % SECTOR_SIZE + |data| <= SECTOR_SIZE
    requires FileBlock(v, i0, p / BLOCK_SIZE) < NUM_BLOCKS
    requires var q := SectorOf(v, i0, p);
      forall i: nat, s :: Live(v, i) && IsSlot(s) ==>
        Ptr(PutSector(v, q, Patch(v.d[q], p % SECTOR_SIZE, data)), i, s) == Ptr(v, i, s)
    ensures var q := SectorOf(v, i0, p);
      Spliced(v, PutSector(v, q, Patch(v.d[q], p % SECTOR_SIZE, data)), i0, p, data)
  {
    hide Inv, Ptr, DataSlot;
    var q := SectorOf(v, i0, p);
    var v1 := PutSector(v, q, Patch(v.d[q], p % SECTOR_SIZE, data));
    forall x: nat | p <= x < p + |data|
      ensures Mapped(v1, i0, x) && ByteAt(v1, i0, x) == data[x - p]
    {
      assert x / SECTOR_SIZE == p / SECTOR_SIZE && x % SECTOR_SIZE == p % SECTOR_SIZE + (x - p);
      assert x / BLOCK_SIZE == (x / SECTOR_SIZE) / 8 && p / BLOCK_SIZE == (p / SECTOR_SIZE) / 8;
      assert FileBlock(v1, i0, x / BLOCK_SIZE) == FileBlock(v, i0, p / BLOCK_SIZE);
    }
    forall i: nat, x: nat | Live(v, i) && Mapped(v, i, x) && !(i == i0 && p <= x < p + |data|)
      ensures Mapped(v1, i, x) && ByteAt(v1, i, x) == ByteAt(v, i, x)
    {
      SectorsApart(v, i, x, i0, p);
      assert FileBlock(v1, i, x / BLOCK_SIZE) == FileBlock(v, i, x / BLOCK_SIZE);
    }
  }

  /** Patching the sector of byte p splices data in at p. */
  lemma PatchWrites(v: Volume, i0: nat, p: nat, data: seq<byte>, S: set<Slot>)
    requires Inv(v) && Live(v, i0) && Mapped(v, i0, p) && p % SECTOR_SIZE + |data| <= SECTOR_SIZE
    ensures FileBlock(v, i0, p / BLOCK_SIZE) < NUM_BLOCKS
    ensures var q := SectorOf(v, i0, p);
      Wrote(v, PutSector(v, q, Patch(v.d[q], p % SECTOR_SIZE, data)), i0, S, p, data)
  {
    var s := DataSlot(p / BLOCK_SIZE);
    var b := Ptr(v, i0, s);
    assert Owns(v, i0, s, b);
    var q := SectorOf(v, i0, p);
    assert q / 8 == b;
    var c := Patch(v.d[q], p % SECTOR_SIZE, data);
    DataWriteKeepsPtrs(v, i0, s, b, q, c);
    PatchSplices(v, i0, p, data);
    var v1 := PutSector(v, q, c);
    assert FreeSet(v1) == FreeSet(v);
    assert Missing(v1, i0, S) == Missing(v, i0, S);
  }

  lemma ResizeWrites(v: Volume, i0: nat, u: nat, S: set<Slot>, p: nat)
    requires Inv(v) && Live(v, i0)
    ensures Wrote(v, PutNode(v, i0, v.nodes[i0].(usize := u)), i0, S, p, [])
  {
    var v1 := PutNode(v, i0, v.nodes[i0].(usize := u));
    assert forall i: nat, s :: Live(v, i) && IsSlot(s) ==> Ptr(v1, i, s) == Ptr(v, i, s);
    SamePtrs(v, v1);
    assert FreeSet(v1) == FreeSet(v);
    assert Missing(v1, i0, S) == Missing(v, i0, S);
  }

  // ---------- The slots that a write of n bytes at p needs ----------

  function FirstBlock(p: nat): nat {
    p / BLOCK_SIZE
  }

  function BlockEnd(p: nat, n: nat): nat {
    if n > 0 then (p + n - 1) / BLOCK_SIZE + 1
    else if p % SECTOR_SIZE != 0 then p / BLOCK_SIZE + 1
    else p / BLOCK_SIZE
  }

  ghost function Touched(p: nat, n: nat): set<Slot>
    requires p + n <= MAX_FILE
  {
    (set b | FirstBlock(p) <= b < BlockEnd(p, n) :: DataSlot(b)) +
    (set b | FirstBlock(p) <= b < BlockEnd(p, n) && b >= NUM_DIRECT :: TableSlot(b))
  }

  lemma TouchedHas(p: nat, n: nat, b: nat)
    requires p + n <= MAX_FILE && FirstBlock(p) <= b < BlockEnd(p, n)
    ensures b < MAX_BLOCKS && DataSlot(b) in Touched(p, n)
    ensures b >= NUM_DIRECT ==> TableSlot(b) in Touched(p, n)
  {
  }

  // ---------- The write, sector by sector ----------

  /** The lowest clear bit at or above b; 0 when there is none. */
  function FirstClear(m: seq<bv8>, b: nat): (r: nat)
    ensures m != [] ==> r < 8 * |m|
    decreases 8 * |m| - b
  {
    if b >= 8 * |m| then 0
    else if !Bit(m, b) then b
    else FirstClear(m, b + 1)
  }

  lemma {:induction false} FirstClearIsLeast(m: seq<bv8>, b: nat, c: nat)
    requires b <= c < 8 * |m| && !Bit(m, c)
    ensures b <= FirstClear(m, b) <= c && !Bit(m, FirstClear(m, b))
    decreases 8 * |m| - b
  {
    if Bit(m, b) {
      FirstClearIsLeast(m, b + 1, c);
    }
  }

  function DirectReady(v: Volume, i: nat, k: nat): Volume
    requires i < NUM_INODES && k < NUM_DIRECT
  {
    if v.nodes[i].direct[k] != 0 then v else FillDirect(v, i, k, FirstClear(v.blockMap, 0))
  }

  function TableReady(v: Volume, i: nat, t: nat): Volume
    requires i < NUM_INODES && t < NUM_LEV1
  {
    if v.nodes[i].lev1[t] != 0 then v else FillLev1(v, i, t, FirstClear(v.blockMap, 0))
  }

  function EntryReady(v: Volume, i: nat, t: nat, e: nat): Volume
    requires i < NUM_INODES && t < NUM_LEV1 && e < TABLE_ENTRIES && v.nodes[i].lev1[t] < NUM_BLOCKS
  {
    if EntryAt(v.d, v.nodes[i].lev1[t], e) != 0 then v else FillEntry(v, i, t, e, FirstClear(v.blockMap, 0))
  }

  /** Block b of file i allocated on demand, together with the table through which it is reached. */
  function Ready(v: Volume, i: nat, b: nat): Volume
    requires i < NUM_INODES && b < MAX_BLOCKS
  {
    if b < NUM_DIRECT then DirectReady(v, i, b)
    else
      var t := (b - NUM_DIRECT) / TABLE_ENTRIES;
      var v1 := TableReady(v, i, t);
      if v1.nodes[i].lev1[t] < NUM_BLOCKS then EntryReady(v1, i, t, (b - NUM_DIRECT) % TABLE_ENTRIES) else v1
  }

  function Store(v: Volume, i: nat, x: nat, part: seq<byte>): Volume
    requires i < NUM_INODES && x < MAX_FILE && x % SECTOR_SIZE + |part| <= SECTOR_SIZE
  {
    if FileBlock(v, i, x / BLOCK_SIZE) < NUM_BLOCKS then
      var q := SectorOf(v, i, x);
      PutSector(v, q, Patch(v.d[q], x % SECTOR_SIZE, part))
    else v
  }

  function Step(v: Volume, i: nat, x: nat, part: seq<byte>): Volume
    requires i < NUM_INODES && x < MAX_FILE && x % SECTOR_SIZE + |part| <= SECTOR_SIZE
  {
    Store(Ready(v, i, x / BLOCK_SIZE), i, x, part)
  }

  function ChunkSize(p: nat, n: nat): (c: nat)
    ensures c <= n && p % SECTOR_SIZE + c <= SECTOR_SIZE
    ensures n > 0 ==> c > 0
  {
    var room := SECTOR_SIZE - p % SECTOR_SIZE;
    if n > room then room else n
  }

  /** The write of data at byte p, one sector at a time. */
  function WriteBytes(v: Volume, i: nat, p: nat, data: seq<byte>): Volume
    requires i < NUM_INODES && p + |data| <= MAX_FILE
    decreases |data|
  {
    if data == [] then v
    else
      var c := ChunkSize(p, |data|);
      WriteBytes(Step(v, i, p, data[..c]), i, p + c, data[c..])
  }

  /** An empty write at an unaligned position still visits its sector. */
  function WriteFile(v: Volume, i: nat, p: nat, data: seq<byte>): Volume
    requires i < NUM_INODES && p + |data| <= MAX_FILE
  {
    if data == [] && p % SECTOR_SIZE != 0 then Step(v, i, p, []) else WriteBytes(v, i, p, data)
  }

  // ---------- What the write does ----------

  /** A volume on which every empty slot of S can still be given a block. */
  ghost predicate Roomy(v: Volume, i: nat, S: set<Slot>) {
    Inv(v) && Live(v, i) && Surplus(v, i, S) >= 0
  }

  lemma FreeBlockThere(v: Volume, i0: nat, s0: Slot, S: set<Slot>)
    requires Roomy(v, i0, S) && IsSlot(s0) && s0 in S && Ptr(v, i0, s0) == 0
    ensures Free(v, FirstClear(v.blockMap, 0))
  {
    assert s0 in Missing(v, i0, S);
    assert FreeSet(v) != {};
    var c :| c in FreeSet(v);
    FirstClearIsLeast(v.blockMap, 0, c);
  }

  lemma RoomyWritesNothing(v: Volume, i: nat, S: set<Slot>, p: nat)
    requires Roomy(v, i, S)
    ensures Wrote(v, v, i, S, p, [])
  {
    WroteNothing(v, i, S, p);
  }

  lemma WroteRoomy(v: Volume, v1: Volume, i: nat, S: set<Slot>, p: nat, data: seq<byte>)
    requires Roomy(v, i, S) && Wrote(v, v1, i, S, p, data)
    ensures Roomy(v1, i, S)
  {
  }

  lemma DirectReadyWrites(v: Volume, i0: nat, k: nat, S: set<Slot>, p: nat)
    requires Roomy(v, i0, S) && k < NUM_DIRECT && Direct(k) in S
    ensures Wrote(v, DirectReady(v, i0, k), i0, S, p, [])
    ensures Ptr(DirectReady(v, i0, k), i0, Direct(k)) != 0
  {
    WroteNothing(v, i0, S, p);
    if v.nodes[i0].direct[k] == 0 {
      FreeBlockThere(v, i0, Direct(k), S);
      var b := FirstClear(v.blockMap, 0);
      assert b != 0 by { assert !Free(v, 0); }
      FillDirectWrites(v, i0, k, b, S, p);
    }
  }

  lemma TableReadyWrites(v: Volume, i0: nat, t: nat, S: set<Slot>, p: nat)
    requires Roomy(v, i0, S) && t < NUM_LEV1 && Lev1(t) in S
    ensures Wrote(v, TableReady(v, i0, t), i0, S, p, [])
    ensures 0 < TableReady(v, i0, t).nodes[i0].lev1[t] < NUM_BLOCKS
  {
    WroteNothing(v, i0, S, p);
    var v1 := TableReady(v, i0, t);
    if v.nodes[i0].lev1[t] == 0 {
      FreeBlockThere(v, i0, Lev1(t), S);
      var b := FirstClear(v.blockMap, 0);
      assert b != 0 by { assert !Free(v, 0); }
      FillLev1Writes(v, i0, t, b, S, p);
    } else {
      assert Owns(v, i0, Lev1(t), v.nodes[i0].lev1[t]);
    }
  }

  lemma EntryReadyWrites(v: Volume, i0: nat, t: nat, e: nat, S: set<Slot>, p: nat)
    requires Roomy(v, i0, S) && t < NUM_LEV1 && e < TABLE_ENTRIES && Entry(t, e) in S
    requires 0 < v.nodes[i0].lev1[t] < NUM_BLOCKS
    ensures Wrote(v, EntryReady(v, i0, t, e), i0, S, p, [])
    ensures Ptr(EntryReady(v, i0, t, e), i0, Entry(t, e)) != 0
  {
    WroteNothing(v, i0, S, p);
    if EntryAt(v.d, v.nodes[i0].lev1[t], e) == 0 {
      FreeBlockThere(v, i0, Entry(t, e), S);
      var b := FirstClear(v.blockMap, 0);
      assert b != 0 by { assert !Free(v, 0); }
      FillEntryWrites(v, i0, t, e, b, S, p);
      FillEntryAttaches(v, i0, t, e, b);
    }
  }

  lemma ReadyWrites(v: Volume, i: nat, b: nat, S: set<Slot>, p: nat)
    requires Roomy(v, i, S) && b < MAX_BLOCKS && DataSlot(b) in S
    requires b >= NUM_DIRECT ==> TableSlot(b) in S
    ensures Wrote(v, Ready(v, i, b), i, S, p, [])
    ensures FileBlock(Ready(v, i, b), i, b) != 0
  {
    if b < NUM_DIRECT {
      DirectReadyWrites(v, i, b, S, p);
    } else {
      var t, e := (b - NUM_DIRECT) / TABLE_ENTRIES, (b - NUM_DIRECT) % TABLE_ENTRIES;
      var v1 := TableReady(v, i, t);
      TableReadyWrites(v, i, t, S, p);
      WroteRoomy(v, v1, i, S, p, []);
      EntryReadyWrites(v1, i, t, e, S, p);
      WroteJoin(v, v1, EntryReady(v1, i, t, e), i, S, p, [], []);
    }
  }

  lemma StoreWrites(v: Volume, i: nat, x: nat, part: seq<byte>, S: set<Slot>)
    requires Roomy(v, i, S) && x < MAX_FILE && x % SECTOR_SIZE + |part| <= SECTOR_SIZE && Mapped(v, i, x)
    ensures Wrote(v, Store(v, i, x, part), i, S, x, part) && Mapped(Store(v, i, x, part), i, x)
  {
    PatchWrites(v, i, x, part, S);
    assert Ptr(v, i, DataSlot(x / BLOCK_SIZE)) != 0;
  }

  lemma StepWrites(v: Volume, i: nat, x: nat, part: seq<byte>, S: set<Slot>)
    requires i < NUM_INODES && Roomy(v, i, S) && x < MAX_FILE && x % SECTOR_SIZE + |part| <= SECTOR_SIZE
    requires DataSlot(x / BLOCK_SIZE) in S
    requires x / BLOCK_SIZE >= NUM_DIRECT ==> TableSlot(x / BLOCK_SIZE) in S
    ensures Wrote(v, Step(v, i, x, part), i, S, x, part) && Mapped(Step(v, i, x, part), i, x)
  {
    hide Roomy, Wrote, Ready, Store;
    var v1 := Ready(v, i, x / BLOCK_SIZE);
    ReadyWrites(v, i, x / BLOCK_SIZE, S, x);
    WroteRoomy(v, v1, i, S, x, []);
    StoreWrites(v1, i, x, part, S);
    WroteThen(v, v1, Store(v1, i, x, part), i, S, x, [], part, part);
  }

  ghost predicate Covers(S: set<Slot>, p: nat, n: nat) {
    p + n <= MAX_FILE && forall b {:trigger DataSlot(b)} :: FirstBlock(p) <= b < BlockEnd(p, n) ==>
      DataSlot(b) in S && (b >= NUM_DIRECT ==> TableSlot(b) in S)
  }

  lemma FirstChunk(v: Volume, i: nat, p: nat, data: seq<byte>, a: seq<byte>, b: seq<byte>, S: set<Slot>)
    returns (v1: Volume)
    requires i < NUM_INODES && p + |data| <= MAX_FILE
    requires Roomy(v, i, S) && Covers(S, p, |data|) && data != []
    requires |a| == ChunkSize(p, |data|) && data == a + b
    ensures WriteBytes(v1, i, p + |a|, b) == WriteBytes(v, i, p, data)
    ensures Wrote(v, v1, i, S, p, a) && Roomy(v1, i, S)
    ensures Covers(S, p + |a|, |b|)
  {
    hide Step, Wrote, Roomy;
    assert DataSlot(p / BLOCK_SIZE) in S;
    v1 := Step(v, i, p, a);
    StepWrites(v, i, p, a, S);
    WroteRoomy(v, v1, i, S, p, a);
    CoversRest(S, p, |data|, |a|);
    assert data[..|a|] == a && data[|a|..] == b;
  }

  lemma {:induction false} WriteBytesWrites(v: Volume, i: nat, p: nat, data: seq<byte>, S: set<Slot>, w: Volume)
    requires i < NUM_INODES && p + |data| <= MAX_FILE && Roomy(v, i, S) && Covers(S, p, |data|) && w == WriteBytes(v, i, p, data)
    ensures Wrote(v, w, i, S, p, data)
    decreases |data|
  {
    hide Step, Wrote, Roomy, Covers;
    if data == [] {
      RoomyWritesNothing(v, i, S, p);
    } else {
      var c := ChunkSize(p, |data|);
      var a, b := data[..c], data[c..];
      assert a + b == data && |a| == c;
      var v1 := FirstChunk(v, i, p, data, a, b, S);
      WriteBytesWrites(v1, i, p + |a|, b, S, w);
      WroteThen(v, v1, w, i, S, p, a, b, data);
    }
  }

  lemma CoversRest(S: set<Slot>, p: nat, n: nat, c: nat)
    requires Covers(S, p, n) && c <= n && (c < n ==> (p + c) % SECTOR_SIZE == 0)
    requires c == n ==> n > 0
    ensures Covers(S, p + c, n - c)
  {
  }

  lemma TouchedCovers(p: nat, n: nat)
    requires p + n <= MAX_FILE
    ensures Covers(Touched(p, n), p, n)
  {
    forall b | FirstBlock(p) <= b < BlockEnd(p, n)
      ensures DataSlot(b) in Touched(p, n) && (b >= NUM_DIRECT ==> TableSlot(b) in Touched(p, n))
    {
      TouchedHas(p, n, b);
    }
  }

  /** The write is a splice: bytes [p, p + |data|) of file i become data, every other mapped byte of
      every live file stays, no block gets two owners, and only slots that the range needs are filled. */
  lemma WriteFileWrites(v: Volume, i: nat, p: nat, data: seq<byte>)
    requires p + |data| <= MAX_FILE && Roomy(v, i, Touched(p, |data|))
    ensures Wrote(v, WriteFile(v, i, p, data), i, Touched(p, |data|), p, data)
    ensures p % SECTOR_SIZE != 0 ==> Mapped(WriteFile(v, i, p, data), i, p)
  {
    var S := Touched(p, |data|);
    TouchedCovers(p, |data|);
    if data == [] && p % SECTOR_SIZE != 0 {
      TouchedHas(p, 0, p / BLOCK_SIZE);
      StepWrites(v, i, p, [], S);
    } else {
      WriteBytesWrites(v, i, p, data, S, WriteFile(v, i, p, data));
    }
  }

  /** A write takes exactly one free block for each slot it needed and found empty. */
  lemma WriteFileTakes(v: Volume, i: nat, p: nat, data: seq<byte>)
    requires p + |data| <= MAX_FILE && Roomy(v, i, Touched(p, |data|)) && data != []
    ensures |FreeSet(WriteFile(v, i, p, data))| == |FreeSet(v)| - |Missing(v, i, Touched(p, |data|))|
  {
    var S := Touched(p, |data|);
    var v1 := WriteFile(v, i, p, data);
    WriteFileWrites(v, i, p, data);
    forall s | s in S
      ensures IsSlot(s) && Ptr(v1, i, s) != 0
    {
      var b :| FirstBlock(p) <= b < BlockEnd(p, |data|) && (s == DataSlot(b) || (b >= NUM_DIRECT && s == TableSlot(b)));
      WrittenBlockMapped(v, v1, i, p, data, S, b);
    }
    assert Missing(v1, i, S) == {};
  }

  lemma WrittenBlockMapped(v: Volume, v1: Volume, i: nat, p: nat, data: seq<byte>, S: set<Slot>, b: nat)
    requires Wrote(v, v1, i, S, p, data) && data != [] && p + |data| <= MAX_FILE
    requires FirstBlock(p) <= b < BlockEnd(p, |data|)
    ensures b < MAX_BLOCKS && FileBlock(v1, i, b) != 0
    ensures b >= NUM_DIRECT ==> Ptr(v1, i, TableSlot(b)) != 0
  {
    var x := if b == FirstBlock(p) then p else b * BLOCK_SIZE;
    assert x / BLOCK_SIZE == b && p <= x < p + |data|;
    assert Mapped(v1, i, x);
  }
}
