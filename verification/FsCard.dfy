/** The card as other programs see it: which bit and which bytes stand for what, written out independently of the code. */
module FsCard {
  import opened FsLayout
  import opened FsDirectory

  // ---------- Bit maps ----------

  /** Bit n of a map is bit n % 8 of byte n / 8, counted from the lowest. */
  predicate Marks(m: seq<bv8>, n: nat)
    requires n < 8 * |m|
  {
    (m[n / 8] >> (n % 8)) & 1 == 1
  }

  lemma ByteMarks(b: bv8, j: nat)
    requires j < 8
    ensures HasBit(b, j) <==> (b >> j) & 1 == 1
  {
    if j < 4 {
      if j == 0 {} else if j == 1 {} else if j == 2 {} else {}
    } else {
      if j == 4 {} else if j == 5 {} else if j == 6 {} else {}
    }
  }

  lemma BitOnCard(m: seq<bv8>, n: nat)
    requires n < 8 * |m|
    ensures Bit(m, n) <==> Marks(m, n)
  {
    ByteMarks(m[n / 8], n % 8);
  }

  // ---------- Numbers ----------

  /** The w low bytes of n, lowest first. */
  function Bytes(n: nat, w: nat): (r: seq<byte>)
    ensures |r| == w
  {
    if w == 0 then [] else [n % 256] + Bytes(n / 256, w - 1)
  }

  lemma FourBytes(n: nat)
    ensures Bytes(n, 4) == [n % 256, n / 256 % 256, n / 65536 % 256, n / 16777216 % 256]
  {
    var a := n / 256;
    var b := a / 256;
    var c := b / 256;
    assert n / 65536 == b && n / 16777216 == c;
    assert Bytes(c, 1) == [c % 256] + Bytes(c / 256, 0) == [c % 256];
    assert Bytes(b, 2) == [b % 256] + Bytes(c, 1) == [b % 256, c % 256];
    assert Bytes(a, 3) == [a % 256] + Bytes(b, 2) == [a % 256, b % 256, c % 256];
    assert Bytes(n, 4) == [n % 256] + Bytes(a, 3);
  }

  lemma WordBytes(n: nat)
    ensures Bytes(n, 4) == [WordByte(n, 0), WordByte(n, 1), WordByte(n, 2), WordByte(n, 3)]
  {
    FourBytes(n);
  }

  lemma WordReads(s: seq<byte>, o: nat, n: nat)
    requires o + 4 <= |s| && n < 0x1_0000_0000 && s[o..o + 4] == Bytes(n, 4)
    ensures WordAt(s, o) == n
  {
    hide WordAt, WordByte, Bytes;
    WordBytes(n);
    assert s[o..o + 4][0] == s[o] && s[o..o + 4][1] == s[o + 1] && s[o..o + 4][2] == s[o + 2] && s[o..o + 4][3] == s[o + 3];
    WordOfBytes(s, o, n);
  }

  // ---------- Indirect tables ----------

  /** Block b holds the table: four bytes an entry, 128 entries a sector. */
  ghost predicate TableOnCard(d: Disk, b: nat, t: Table)
    requires b < NUM_BLOCKS
  {
    forall e: nat :: e < 1024 ==> EntryOnCard(d, b, e, t[e])
  }

  predicate EntryOnCard(d: Disk, b: nat, e: nat, n: nat)
    requires b < NUM_BLOCKS && e < 1024
  {
    d[8 * b + e / 128][4 * (e % 128)..4 * (e % 128) + 4] == Bytes(n, 4)
  }

  /** What is written as a table is laid out so, and what is laid out so is read as that table. */
  lemma TableFormat(d: Disk, b: nat, t: Table)
    requires b < NUM_BLOCKS
    ensures TableOnCard(WriteTable(d, b, t), b, t)
    ensures TableOnCard(d, b, t) ==> ReadTable(d, b) == t
  {
    hide WriteTable, ReadTable, Bytes, WordAt, WordByte, EntryOnCard;
    forall e: nat | e < 1024
      ensures EntryOnCard(WriteTable(d, b, t), b, e, t[e])
    {
      EntryWritten(d, b, t, e);
    }
    if TableOnCard(d, b, t) {
      TableReads(d, b, t);
    }
  }

  lemma EntryWritten(d: Disk, b: nat, t: Table, e: nat)
    requires b < NUM_BLOCKS && e < 1024
    ensures EntryOnCard(WriteTable(d, b, t), b, e, t[e])
  {
    hide Bytes, WordByte, TableSector;
    var s, o := TableSector(t, e / 128), 4 * (e % 128);
    assert (b * 8 + e / 128) / 8 == b && (b * 8 + e / 128) % 8 == e / 128;
    assert WriteTable(d, b, t)[b * 8 + e / 128] == s;
    TableSectorByte(t, e, 0);
    TableSectorByte(t, e, 1);
    TableSectorByte(t, e, 2);
    TableSectorByte(t, e, 3);
    WordBytes(t[e]);
    assert s[o..o + 4] == [s[o], s[o + 1], s[o + 2], s[o + 3]];
  }

  lemma TableReads(d: Disk, b: nat, t: Table)
    requires b < NUM_BLOCKS && TableOnCard(d, b, t)
    ensures ReadTable(d, b) == t
  {
    hide Bytes, WordAt;
    forall e: nat | e < 1024
      ensures ReadTable(d, b)[e] == t[e]
    {
      assert EntryOnCard(d, b, e, t[e]);
      WordReads(d[b * 8 + e / 128], (e % 128) * 4, t[e]);
    }
  }

  // ---------- Directories ----------

  /** 32 bytes: the kind, the inode number, and the name with what stands behind it. */
  function DentryBytes(e: Dentry): (r: seq<byte>)
    ensures |r| == 32
  {
    Bytes(e.mode, 4) + Bytes(e.ino, 4) + e.name
  }

  ghost predicate DirOnCard(d: Disk, b: nat, m: DirBlock)
    requires b < NUM_BLOCKS
  {
    forall k: nat :: k < 128 ==> DentryOnCard(d, b, k, m[k])
  }

  predicate DentryOnCard(d: Disk, b: nat, k: nat, e: Dentry)
    requires b < NUM_BLOCKS && k < 128
  {
    d[8 * b + k / 16][32 * (k % 16)..32 * (k % 16) + 32] == DentryBytes(e)
  }

  lemma DentryByteIs(e: Dentry, i: nat)
    requires i < 32
    ensures DentryByte(e, i) == DentryBytes(e)[i]
  {
    hide Bytes, WordByte;
    WordBytes(e.mode);
    WordBytes(e.ino);
  }

  /** What is written as a directory block is laid out so, and what is laid out so is read as that block. */
  lemma DirFormat(d: Disk, b: nat, m: DirBlock)
    requires b < NUM_BLOCKS
    ensures DirOnCard(WriteDir(d, b, m), b, m)
    ensures DirOnCard(d, b, m) ==> ReadDir(d, b) == m
  {
    hide WriteDir, ReadDir, DentryOnCard;
    forall k: nat | k < 128
      ensures DentryOnCard(WriteDir(d, b, m), b, k, m[k])
    {
      DentryWritten(d, b, m, k);
    }
    if DirOnCard(d, b, m) {
      DirReads(d, b, m);
    }
  }

  lemma DentryWritten(d: Disk, b: nat, m: DirBlock, k: nat)
    requires b < NUM_BLOCKS && k < 128
    ensures DentryOnCard(WriteDir(d, b, m), b, k, m[k])
  {
    hide DentryBytes, DentryByte, DirSector, WriteDir;
    var s, o := DirSector(m, k / 16), 32 * (k % 16);
    WriteDirSector(d, b, m, k / 16);
    forall i | 0 <= i < 32
      ensures s[o..o + 32][i] == DentryBytes(m[k])[i]
    {
      DirSectorByte(m, k, i);
      DentryByteIs(m[k], i);
    }
  }

  lemma DirReads(d: Disk, b: nat, m: DirBlock)
    requires b < NUM_BLOCKS && DirOnCard(d, b, m)
    ensures ReadDir(d, b) == m
  {
    hide DentryAt;
    forall k: nat | k < 128
      ensures ReadDir(d, b)[k] == m[k]
    {
      DentryReads(d, b, k, m[k]);
    }
  }

  lemma DentryReads(d: Disk, b: nat, k: nat, e: Dentry)
    requires b < NUM_BLOCKS && k < 128 && DentryOnCard(d, b, k, e)
    ensures DentryAt(d, b, k) == e
  {
    hide DentryByte, DentryBytes, WordAt;
    var s, o := d[b * 8 + k / 16], (k % 16) * 32;
    forall i | o <= i < o + DENTRY_SIZE
      ensures s[i] == DentryByte(e, i - o)
    {
      DentryByteIs(e, i - o);
      assert s[o..o + 32][i - o] == s[i];
    }
    DentryFields(s, o, e);
  }
}
