/** The on-disk format of the file system: sectors, the bit maps, 32-bit words inside a
    block, and the constants of os/fs.h.  Sector numbers are relative to FS_START. */
module FsLayout {
  const SECTOR_SIZE := 512
  const BLOCK_SIZE := 4096
  const NUM_SECTORS := 1048576
  const NUM_BLOCKS := 131072
  const DATA_SECTOR_OFFSET := 546
  /** Blocks that hold the superblock, both maps and the inode sectors. */
  const RESERVED_BLOCKS := 69
  const NUM_INODES := 512
  const NUM_DIRECT := 10
  const NUM_LEV1 := 3
  const TABLE_ENTRIES := 1024
  const DIRECT_BYTES := 40960
  const TABLE_BYTES := 4194304
  /** The byte range that the read and write loops reach: ten blocks and two tables. */
  const MAX_FILE := 8429568
  const MAX_BLOCKS := 2058

  type byte = x: int | 0 <= x < 256
  type Sector = s: seq<byte> | |s| == SECTOR_SIZE witness seq<byte>(SECTOR_SIZE, _ => 0)
  type Disk = d: seq<Sector> | |d| == NUM_SECTORS witness seq<Sector>(NUM_SECTORS, _ => ZeroSector())
  type BlockMap = m: seq<bv8> | |m| == NUM_BLOCKS / 8 witness seq(NUM_BLOCKS / 8, _ => 0)
  type InodeMap = m: seq<bv8> | |m| == NUM_INODES witness seq(NUM_INODES, _ => 0)

  function ZeroSector(): Sector {
    seq<byte>(SECTOR_SIZE, _ => 0)
  }

  // ---------- Bit maps ----------

  /** 1 << j */
  function Mask(j: nat): bv8
    requires j < 8
  {
    match j
    case 0 => 1
    case 1 => 2
    case 2 => 4
    case 3 => 8
    case 4 => 16
    case 5 => 32
    case 6 => 64
    case 7 => 128
  }

  predicate HasBit(b: bv8, j: nat)
    requires j < 8
  {
    b & Mask(j) != 0
  }

  function Raise(b: bv8, j: nat): bv8
    requires j < 8
  {
    b | Mask(j)
  }

  function Lower(b: bv8, j: nat): bv8
    requires j < 8
  {
    b & !Mask(j)
  }

  predicate Bit(m: seq<bv8>, n: nat)
    requires n < 8 * |m|
  {
    HasBit(m[n / 8], n % 8)
  }

  function SetBit(m: seq<bv8>, n: nat): (r: seq<bv8>)
    requires n < 8 * |m|
    ensures |r| == |m|
  {
    m[n / 8 := Raise(m[n / 8], n % 8)]
  }

  function ClearBit(m: seq<bv8>, n: nat): (r: seq<bv8>)
    requires n < 8 * |m|
    ensures |r| == |m|
  {
    m[n / 8 := Lower(m[n / 8], n % 8)]
  }

  lemma MaskBits(b: bv8, j: nat, k: nat)
    requires j < 8 && k < 8
    ensures HasBit(Raise(b, j), k) <==> (j == k || HasBit(b, k))
    ensures HasBit(Lower(b, j), k) <==> (j != k && HasBit(b, k))
  {
  }

  /** Setting or clearing one bit of a map leaves every other bit alone. */
  lemma OneBit(m: seq<bv8>, n: nat, k: nat)
    requires n < 8 * |m| && k < 8 * |m|
    ensures Bit(SetBit(m, n), k) <==> (k == n || Bit(m, k))
    ensures Bit(ClearBit(m, n), k) <==> (k != n && Bit(m, k))
  {
    var i, j, h := n / 8, n % 8, k % 8;
    MaskBits(m[i], j, h);
    if k / 8 == i {
      assert j == h <==> n == k;
      assert SetBit(m, n)[k / 8] == Raise(m[i], j);
      assert ClearBit(m, n)[k / 8] == Lower(m[i], j);
    }
  }

  lemma BitOf(m: seq<bv8>, i: nat, j: nat)
    requires i < |m| && j < 8
    ensures Bit(m, 8 * i + j) == HasBit(m[i], j)
    ensures SetBit(m, 8 * i + j) == m[i := Raise(m[i], j)]
    ensures ClearBit(m, 8 * i + j) == m[i := Lower(m[i], j)]
  {
    assert (8 * i + j) / 8 == i && (8 * i + j) % 8 == j;
  }

  // ---------- 32-bit words ----------

  /** The little-endian word at offset o. */
  function WordAt(s: seq<byte>, o: nat): nat
    requires o + 4 <= |s|
  {
    s[o] as int + 256 * s[o + 1] as int + 65536 * s[o + 2] as int + 16777216 * s[o + 3] as int
  }

  function WordByte(w: nat, k: nat): byte
    requires k < 4
  {
    match k
    case 0 => w % 256
    case 1 => (w / 256) % 256
    case 2 => (w / 65536) % 256
    case 3 => (w / 16777216) % 256
  }

  lemma WordRoundTrip(w: nat)
    requires w < 0x1_0000_0000
    ensures WordByte(w, 0) + 256 * WordByte(w, 1) + 65536 * WordByte(w, 2) + 16777216 * WordByte(w, 3) == w
  {
    var a := w / 256;
    var b := a / 256;
    assert w / 65536 == b && w / 16777216 == b / 256;
  }

  // ---------- Indirect tables ----------

  type Table = t: seq<nat> | |t| == TABLE_ENTRIES && forall k :: 0 <= k < TABLE_ENTRIES ==> t[k] < 0x1_0000_0000
    witness seq(TABLE_ENTRIES, _ => 0)

  /** Entry e of the table stored in block b. */
  function EntryAt(d: Disk, b: nat, e: nat): (r: nat)
    requires b < NUM_BLOCKS && e < TABLE_ENTRIES
    ensures r < 0x1_0000_0000
  {
    WordAt(d[b * 8 + e / 128], (e % 128) * 4)
  }

  function ReadTable(d: Disk, b: nat): Table
    requires b < NUM_BLOCKS
  {
    seq(TABLE_ENTRIES, e requires 0 <= e < TABLE_ENTRIES => EntryAt(d, b, e))
  }

  function TableSector(t: Table, k: nat): Sector
    requires k < 8
  {
    seq<byte>(SECTOR_SIZE, o requires 0 <= o < SECTOR_SIZE => WordByte(t[k * 128 + o / 4], o % 4))
  }

  /** Eight sectors of block b replaced. */
  function PutBlock(d: Disk, b: nat, ss: seq<Sector>): (r: Disk)
    requires b < NUM_BLOCKS && |ss| == 8
    ensures forall q :: 0 <= q < NUM_SECTORS ==> r[q] == if q / 8 == b then ss[q % 8] else d[q]
  {
    d[..b * 8] + ss + d[b * 8 + 8..]
  }

  function WriteTable(d: Disk, b: nat, t: Table): Disk
    requires b < NUM_BLOCKS
  {
    PutBlock(d, b, seq<Sector>(8, k requires 0 <= k < 8 => TableSector(t, k)))
  }

  lemma TableSectorByte(t: Table, e: nat, i: nat)
    requires e < TABLE_ENTRIES && i < 4
    ensures TableSector(t, e / 128)[(e % 128) * 4 + i] == WordByte(t[e], i)
  {
    var o := (e % 128) * 4 + i;
    assert o / 4 == e % 128 && o % 4 == i;
    assert (e / 128) * 128 + o / 4 == e;
  }

  lemma WordOfBytes(s: seq<byte>, o: nat, w: nat)
    requires o + 4 <= |s| && w < 0x1_0000_0000
    requires s[o] == WordByte(w, 0) && s[o + 1] == WordByte(w, 1) && s[o + 2] == WordByte(w, 2) && s[o + 3] == WordByte(w, 3)
    ensures WordAt(s, o) == w
  {
    WordRoundTrip(w);
  }

  /** What is read back from a table block is what was written. */
  lemma TableRoundTrip(d: Disk, b: nat, t: Table, e: nat)
    requires b < NUM_BLOCKS && e < TABLE_ENTRIES
    ensures EntryAt(WriteTable(d, b, t), b, e) == t[e]
  {
    hide WordAt, TableSector, WordByte;
    var k := e / 128;
    assert (b * 8 + k) / 8 == b && (b * 8 + k) % 8 == k;
    assert WriteTable(d, b, t)[b * 8 + k] == TableSector(t, k);
    TableSectorByte(t, e, 0);
    TableSectorByte(t, e, 1);
    TableSectorByte(t, e, 2);
    TableSectorByte(t, e, 3);
    WordOfBytes(TableSector(t, k), (e % 128) * 4, t[e]);
  }

  lemma ZeroTable(d: Disk, b: nat, e: nat)
    requires b < NUM_BLOCKS && e < TABLE_ENTRIES
    ensures EntryAt(PutBlock(d, b, seq<Sector>(8, _ => ZeroSector())), b, e) == 0
  {
    var q := b * 8 + e / 128;
    assert q / 8 == b;
  }

  /** A table reads the same as long as its eight sectors do. */
  lemma SameTable(d: Disk, d': Disk, b: nat, e: nat)
    requires b < NUM_BLOCKS && e < TABLE_ENTRIES
    requires forall q :: 0 <= q < NUM_SECTORS && q / 8 == b ==> d[q] == d'[q]
    ensures EntryAt(d, b, e) == EntryAt(d', b, e)
  {
    assert (b * 8 + e / 128) / 8 == b;
  }

  /** Every data block lies above the sectors of the superblock, the maps and the inodes. */
  lemma DataAboveMetadata(b: nat, k: nat)
    requires RESERVED_BLOCKS <= b < NUM_BLOCKS && k < 8
    ensures DATA_SECTOR_OFFSET <= b * 8 + k < NUM_SECTORS
  {
  }
}
