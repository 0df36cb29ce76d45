/** Directory blocks: 128 entries of 32 bytes, and the names that refer to an inode. */
module FsDirectory {
  import opened FsLayout
  import opened FsVolume

  const DIR := 0
  const FILE := 1
  const DENTRY_SIZE := 32
  const DENTRIES := 128
  const NAME_SIZE := 24

  datatype DentryRec = Dentry(mode: nat, ino: nat, name: seq<byte>)
  type Dentry = e: DentryRec | e.mode < 0x1_0000_0000 && e.ino < 0x1_0000_0000 && |e.name| == NAME_SIZE
    witness DentryRec.Dentry(0, 0, seq<byte>(NAME_SIZE, _ => 0))
  type DirBlock = m: seq<Dentry> | |m| == DENTRIES witness seq<Dentry>(DENTRIES, _ => NoDentry())

  function NoDentry(): Dentry {
    DentryRec.Dentry(0, 0, seq<byte>(NAME_SIZE, _ => 0))
  }

  function DentryAt(d: Disk, b: nat, k: nat): Dentry
    requires b < NUM_BLOCKS && k < DENTRIES
  {
    var s, o := d[b * 8 + k / 16], (k % 16) * DENTRY_SIZE;
    WordBound(s, o);
    WordBound(s, o + 4);
    DentryRec.Dentry(WordAt(s, o), WordAt(s, o + 4), s[o + 8..o + 32])
  }

  lemma WordBound(s: seq<byte>, o: nat)
    requires o + 4 <= |s|
    ensures WordAt(s, o) < 0x1_0000_0000
  {
  }

  function ReadDir(d: Disk, b: nat): DirBlock
    requires b < NUM_BLOCKS
  {
    seq<Dentry>(DENTRIES, k requires 0 <= k < DENTRIES => DentryAt(d, b, k))
  }

  function DentryByte(e: Dentry, i: nat): byte
    requires i < DENTRY_SIZE
  {
    if i < 4 then WordByte(e.mode, i) else if i < 8 then WordByte(e.ino, i - 4) else e.name[i - 8]
  }

  function DirSector(m: DirBlock, s: nat): Sector
    requires s < 8
  {
    seq<byte>(SECTOR_SIZE, o requires 0 <= o < SECTOR_SIZE => DentryByte(m[s * 16 + o / DENTRY_SIZE], o % DENTRY_SIZE))
  }

  function WriteDir(d: Disk, b: nat, m: DirBlock): Disk
    requires b < NUM_BLOCKS
  {
    PutBlock(d, b, seq<Sector>(8, s requires 0 <= s < 8 => DirSector(m, s)))
  }

  lemma DirSectorByte(m: DirBlock, k: nat, i: nat)
    requires k < DENTRIES && i < DENTRY_SIZE
    ensures DirSector(m, k / 16)[(k % 16) * DENTRY_SIZE + i] == DentryByte(m[k], i)
  {
    var o := (k % 16) * DENTRY_SIZE + i;
    assert o / DENTRY_SIZE == k % 16 && o % DENTRY_SIZE == i;
    assert (k / 16) * 16 + o / DENTRY_SIZE == k;
  }

  lemma DentryFields(s: Sector, o: nat, e: Dentry)
    requires o + DENTRY_SIZE <= SECTOR_SIZE
    requires forall i :: o <= i < o + DENTRY_SIZE ==> s[i] == DentryByte(e, i - o)
    ensures WordAt(s, o) == e.mode && WordAt(s, o + 4) == e.ino && s[o + 8..o + 32] == e.name
  {
    WordOfBytes(s, o, e.mode);
    WordOfBytes(s, o + 4, e.ino);
  }

  lemma SectorOfBlock(b: nat, s: nat)
    requires b < NUM_BLOCKS && s < 8
    ensures (b * 8 + s) / 8 == b && (b * 8 + s) % 8 == s
  {
  }

  lemma WriteDirSector(d: Disk, b: nat, m: DirBlock, s: nat)
    requires b < NUM_BLOCKS && s < 8
    ensures WriteDir(d, b, m)[b * 8 + s] == DirSector(m, s)
  {
    hide DirSector;
    SectorOfBlock(b, s);
  }

  lemma DentryRoundTrip(d: Disk, b: nat, m: DirBlock, k: nat)
    requires b < NUM_BLOCKS && k < DENTRIES
    ensures DentryAt(WriteDir(d, b, m), b, k) == m[k]
  {
    hide WordAt, DentryByte, DirSector, WriteDir;
    var s, o := DirSector(m, k / 16), (k % 16) * DENTRY_SIZE;
    WriteDirSector(d, b, m, k / 16);
    forall i | o <= i < o + DENTRY_SIZE
      ensures s[i] == DentryByte(m[k], i - o)
    {
      DirSectorByte(m, k, i - o);
    }
    DentryFields(s, o, m[k]);
  }

  /** A directory block reads back as it was written. */
  lemma DirRoundTrip(d: Disk, b: nat, m: DirBlock)
    requires b < NUM_BLOCKS
    ensures ReadDir(WriteDir(d, b, m), b) == m
  {
    forall k: nat | k < DENTRIES
      ensures ReadDir(WriteDir(d, b, m), b)[k] == m[k]
    {
      DentryRoundTrip(d, b, m, k);
    }
  }

  lemma SameDir(d: Disk, d': Disk, b: nat)
    requires b < NUM_BLOCKS
    requires forall q :: 0 <= q < NUM_SECTORS && q / 8 == b ==> d[q] == d'[q]
    ensures ReadDir(d, b) == ReadDir(d', b)
  {
    forall k: nat | k < DENTRIES
      ensures DentryAt(d, b, k) == DentryAt(d', b, k)
    {
      assert (b * 8 + k / 16) / 8 == b;
    }
  }

  // ---------- Names ----------

  /** A C string without its terminator that fits the name field. */
  predicate IsName(s: seq<byte>) {
    |s| < NAME_SIZE && 0 !in s
  }

  /** strcmp(field, s) == 0 */
  predicate SameName(field: seq<byte>, s: seq<byte>)
    requires IsName(s) && |field| == NAME_SIZE
  {
    field[..|s|] == s && field[|s|] == 0
  }

  /** kstrcpy(field, s) */
  function SetName(field: seq<byte>, s: seq<byte>): (r: seq<byte>)
    requires IsName(s) && |field| == NAME_SIZE
    ensures |r| == NAME_SIZE && SameName(r, s)
  {
    s + [0] + field[|s| + 1..]
  }

  /** The first of the entries from k up to n that has this name; n when there is none. */
  function FindName(m: seq<Dentry>, k: nat, s: seq<byte>): (r: nat)
    requires k <= |m| && IsName(s)
    ensures k <= r <= |m|
    ensures r < |m| ==> SameName(m[r].name, s)
    ensures forall j :: k <= j < r ==> !SameName(m[j].name, s)
    decreases |m| - k
  {
    if k == |m| then |m|
    else if SameName(m[k].name, s) then k
    else FindName(m, k + 1, s)
  }

  predicate IsDir(v: Volume, i: nat) {
    Live(v, i) && v.nodes[i].mode == DIR
  }

  predicate IsFile(v: Volume, i: nat) {
    Live(v, i) && v.nodes[i].mode == FILE
  }

  /** A directory has its block, holds "." and ".." at least, and fits the block. */
  predicate DirShape(v: Volume, i: nat) {
    && i < NUM_INODES
    && 0 < v.nodes[i].direct[0] < NUM_BLOCKS
    && v.nodes[i].usize % DENTRY_SIZE == 0 && 64 <= v.nodes[i].usize <= BLOCK_SIZE
  }

  /** The entries of directory i. */
  function Dentries(v: Volume, i: nat): (r: seq<Dentry>)
    requires DirShape(v, i)
    ensures |r| == v.nodes[i].usize / DENTRY_SIZE
  {
    ReadDir(v.d, v.nodes[i].direct[0])[..v.nodes[i].usize / DENTRY_SIZE]
  }

  function Inos(es: seq<Dentry>): (r: seq<nat>)
    ensures |r| == |es|
  {
    seq<nat>(|es|, k requires 0 <= k < |es| => es[k].ino)
  }

  /** How many entries of directory i name inode f. */
  ghost function NamesIn(v: Volume, i: nat, f: nat): nat {
    if IsDir(v, i) && DirShape(v, i) then multiset(Inos(Dentries(v, i)))[f] else 0
  }

  /** How many entries of the first n inodes' directories name inode f. */
  ghost function NamesUpTo(v: Volume, f: nat, n: nat): nat {
    if n == 0 then 0 else NamesUpTo(v, f, n - 1) + NamesIn(v, n - 1, f)
  }

  ghost function Names(v: Volume, f: nat): nat {
    NamesUpTo(v, f, NUM_INODES)
  }

  /** A change of one directory changes the count by what it changes there. */
  lemma {:induction false} OneDirChanges(v: Volume, v1: Volume, f: nat, i0: nat, n: nat)
    requires forall i: nat :: i != i0 ==> NamesIn(v1, i, f) == NamesIn(v, i, f)
    ensures NamesUpTo(v1, f, n) - NamesUpTo(v, f, n) ==
      if i0 < n then NamesIn(v1, i0, f) - NamesIn(v, i0, f) else 0
  {
    hide NamesIn;
    if n > 0 {
      OneDirChanges(v, v1, f, i0, n - 1);
    }
  }

  /** An entry names a live inode; the first two entries of a directory, "." and "..", name directories. */
  predicate NameOk(v: Volume, es: seq<Dentry>, k: nat)
    requires k < |es|
  {
    Live(v, es[k].ino) && (k < 2 ==> IsDir(v, es[k].ino))
  }

  /** There is a root; directories are well shaped and name only live inodes; live inodes know their number. */
  ghost predicate DirsOk(v: Volume) {
    && IsDir(v, 0)
    && (forall i: nat :: Live(v, i) ==> v.nodes[i].ino == i && (v.nodes[i].mode == DIR || v.nodes[i].mode == FILE))
    && (forall i: nat :: IsDir(v, i) ==> DirShape(v, i))
    && (forall i: nat, k :: IsDir(v, i) && 0 <= k < |Dentries(v, i)| ==> NameOk(v, Dentries(v, i), k))
  }

  /** The link count of a file is the number of directory entries that name it, and it has one. */
  ghost predicate LinksOk(v: Volume) {
    forall f: nat :: IsFile(v, f) ==> v.nodes[f].nlinks == Names(v, f) && Names(v, f) > 0
  }

  /** Storing an int into a 16-bit unsigned field. */
  function U16(x: int): nat {
    x % 0x1_0000
  }

  lemma {:induction false} CountFrom(es: seq<Dentry>, f: nat, k: nat)
    requires k <= |es| && forall j :: 0 <= j < k ==> es[j].ino != f
    ensures multiset(Inos(es))[f] <= |es| - k
    decreases |es|
  {
    if |es| > k {
      var a, b := es[..|es| - 1], es[|es| - 1..];
      assert a + b == es;
      CountFrom(a, f, k);
      assert Inos(es) == Inos(a) + Inos(b) && Inos(b) == [es[|es| - 1].ino];
    } else {
      assert f !in Inos(es);
    }
  }

  /** A file is named at most 126 times in each of at most 512 directories, so a 16-bit count never wraps. */
  lemma {:induction false} NamesBound(v: Volume, f: nat, n: nat)
    requires DirsOk(v) && IsFile(v, f)
    ensures NamesUpTo(v, f, n) <= 126 * n
  {
    if n > 0 {
      NamesBound(v, f, n - 1);
      if IsDir(v, n - 1) {
        var es := Dentries(v, n - 1);
        assert NameOk(v, es, 0) && NameOk(v, es, 1);
        CountFrom(es, f, 2);
      }
    }
  }

  ghost predicate FsOk(v: Volume) {
    Inv(v) && DirsOk(v) && LinksOk(v)
  }
}
