/** What creating, linking and removing names does to the volume. */
module FsNames {
  import opened FsLayout
  import opened FsVolume
  import opened FsContent
  import opened FsDirectory

  const RW_A := 3

  // ---------- The changes ----------

  function FreshInode(i: nat, b: nat, mode: nat, nlinks: nat, usize: nat): Inode {
    InodeRec.Inode(mode, RW_A, nlinks, i, [b] + seq(NUM_DIRECT - 1, _ => 0), seq(NUM_LEV1, _ => 0), usize)
  }

  /** Inode i, with block b as its first direct block, becomes live. */
  function NewInode(v: Volume, i: nat, b: nat, mode: nat, nlinks: nat, usize: nat): Volume
    requires i < NUM_INODES && b < NUM_BLOCKS
  {
    v.(inodeMap := SetBit(v.inodeMap, i), blockMap := SetBit(v.blockMap, b),
       nodes := v.nodes[i := FreshInode(i, b, mode, nlinks, usize)])
  }

  /** "." and ".." in the first sector, which was cleared; the other sectors are what the buffer held. */
  function DotEntries(m: DirBlock, i: nat, parent: nat): DirBlock
    requires i < NUM_INODES && parent < NUM_INODES
  {
    var blank := seq<byte>(NAME_SIZE, _ => 0);
    [DentryRec.Dentry(DIR, i, SetName(blank, Dot())), DentryRec.Dentry(DIR, parent, SetName(blank, Dot() + Dot()))] +
    seq<Dentry>(14, _ => NoDentry()) + m[16..]
  }

  function Dot(): seq<byte> {
    [46]
  }

  /** A new, empty directory. */
  function NewDir(v: Volume, i: nat, b: nat, parent: nat, m: DirBlock): Volume
    requires i < NUM_INODES && b < NUM_BLOCKS && parent < NUM_INODES
  {
    var v1 := NewInode(v, i, b, DIR, 0, 64);
    v1.(d := WriteDir(v1.d, b, DotEntries(m, i, parent)))
  }

  /** One more entry at the end of directory p. */
  function AddDentry(v: Volume, p: nat, mode: nat, ino: nat, name: seq<byte>): Volume
    requires DirShape(v, p) && v.nodes[p].usize < BLOCK_SIZE && IsName(name)
    requires mode < 0x1_0000_0000 && ino < NUM_INODES
  {
    var n := v.nodes[p];
    var m := ReadDir(v.d, n.direct[0]);
    var k := n.usize / DENTRY_SIZE;
    var e := DentryRec.Dentry(mode, ino, SetName(m[k].name, name));
    v.(d := WriteDir(v.d, n.direct[0], m[k := e]),
       nodes := v.nodes[p := n.(nlinks := U16(n.nlinks + 1), usize := n.usize + DENTRY_SIZE)])
  }

  /** Entry k of directory p taken out; the entries after it move up. */
  function CutDentry(v: Volume, p: nat, k: nat): (v1: Volume)
    requires DirShape(v, p) && k < v.nodes[p].usize / DENTRY_SIZE && v.nodes[p].usize > 64
    ensures forall i :: 0 <= i < NUM_INODES ==> v1.nodes[i].lev1 == v.nodes[i].lev1
  {
    var n := v.nodes[p];
    var m := ReadDir(v.d, n.direct[0]);
    v.(d := WriteDir(v.d, n.direct[0], ShiftUp(m, k, n.usize / DENTRY_SIZE)),
       nodes := v.nodes[p := n.(nlinks := U16(n.nlinks - 1), usize := n.usize - DENTRY_SIZE)])
  }

  function ShiftUp(m: DirBlock, k: nat, n: nat): DirBlock
    requires k < n <= DENTRIES
  {
    m[..k] + m[k + 1..n] + m[n - 1..]
  }

  function Relink(v: Volume, i: nat, nlinks: nat): Volume
    requires i < NUM_INODES
  {
    PutNode(v, i, v.nodes[i].(nlinks := nlinks))
  }

  // ---------- A new inode ----------

  lemma NewInodeKeeps(v: Volume, i: nat, b: nat, mode: nat, nlinks: nat, usize: nat)
    requires Inv(v) && i < NUM_INODES && !Live(v, i) && Free(v, b)
    ensures var v1 := NewInode(v, i, b, mode, nlinks, usize);
      && Inv(v1) && Lost(v1) == Lost(v)
      && (forall j: nat :: Live(v1, j) <==> Live(v, j) || j == i)
      && (forall j: nat, s :: Live(v, j) && IsSlot(s) ==> Ptr(v1, j, s) == Ptr(v, j, s))
      && (forall s :: IsSlot(s) ==> Ptr(v1, i, s) == if s == Direct(0) then b else 0)
      && b != 0
      && (forall c: nat :: Free(v1, c) <==> Free(v, c) && c != b)
  {
    var v1 := NewInode(v, i, b, mode, nlinks, usize);
    assert b != 0 by { assert !Free(v, 0); }
    forall j: nat | j < NUM_INODES
      ensures Live(v1, j) <==> Live(v, j) || j == i
    {
      OneBit(v.inodeMap, i, j);
    }
    MarkedFree(v, b);
    forall c: nat ensures Free(v1, c) <==> Free(v, c) && c != b {
      assert Free(v1, c) == Free(Marked(v, b), c);
    }
    forall j: nat, s, c: nat | Owns(v1, j, s, c)
      ensures if j == i then s == Direct(0) && c == b else Owns(v, j, s, c)
    {
    }
    forall j: nat, s, c: nat | Owns(v, j, s, c)
      ensures Owns(v1, j, s, c)
    {
    }
    assert Owns(v1, i, Direct(0), b);
    assert forall c: nat :: Owned(v1, c) <==> Owned(v, c) || c == b;
  }

  /** Directories whose inode and block are untouched hold the same entries. */
  lemma DirKept(v: Volume, v1: Volume, j: nat)
    requires Inv(v) && IsDir(v, j) && DirShape(v, j) && v1.nodes[j].direct[0] == v.nodes[j].direct[0]
    requires v1.nodes[j].mode == v.nodes[j].mode && v1.nodes[j].usize == v.nodes[j].usize && Live(v1, j)
    requires forall q :: 0 <= q < NUM_SECTORS && q / 8 == v.nodes[j].direct[0] ==> v1.d[q] == v.d[q]
    ensures IsDir(v1, j) && DirShape(v1, j) && Dentries(v1, j) == Dentries(v, j)
  {
    SameDir(v.d, v1.d, v.nodes[j].direct[0]);
  }

  // ---------- Entries of one directory ----------

  /** v1 is v with the entries of directory p, and p's own size and count, replaced. */
  ghost predicate DirReplaced(v: Volume, v1: Volume, p: nat, es: seq<Dentry>) {
    && v1.inodeMap == v.inodeMap && v1.blockMap == v.blockMap
    && IsDir(v, p) && IsDir(v1, p) && DirShape(v1, p) && Dentries(v1, p) == es
    && (forall j :: 0 <= j < NUM_INODES && j != p ==> v1.nodes[j] == v.nodes[j])
    && v1.nodes[p].ino == v.nodes[p].ino
    && (forall j: nat, s :: Live(v, j) && IsSlot(s) ==> Ptr(v1, j, s) == Ptr(v, j, s))
    && (forall j: nat :: j != p && IsDir(v, j) && DirShape(v, j) ==> DirShape(v1, j) && Dentries(v1, j) == Dentries(v, j))
  }

  lemma ReplaceDir(v: Volume, p: nat, m: DirBlock, nlinks: nat, usize: nat)
    requires Inv(v) && IsDir(v, p) && DirShape(v, p)
    requires usize % DENTRY_SIZE == 0 && 64 <= usize <= BLOCK_SIZE
    ensures var v1 := v.(d := WriteDir(v.d, v.nodes[p].direct[0], m),
                         nodes := v.nodes[p := v.nodes[p].(nlinks := nlinks, usize := usize)]);
      Inv(v1) && Lost(v1) == Lost(v) && DirReplaced(v, v1, p, m[..usize / DENTRY_SIZE])
  {
    hide WriteDir, ReadDir, Inv, Lost;
    var b := v.nodes[p].direct[0];
    var v0 := v.(d := WriteDir(v.d, b, m));
    var v1 := v0.(nodes := v.nodes[p := v.nodes[p].(nlinks := nlinks, usize := usize)]);
    assert Owns(v, p, Direct(0), b);
    WriteDirOnly(v, b, m);
    DataBlockKeepsPtrs(v, v0, p, Direct(0), b);
    assert forall j: nat, s :: Live(v, j) && IsSlot(s) ==> Ptr(v1, j, s) == Ptr(v0, j, s);
    SamePtrs(v0, v1);
    DirRoundTrip(v.d, b, m);
    forall j: nat | j != p && IsDir(v, j) && DirShape(v, j)
      ensures DirShape(v1, j) && Dentries(v1, j) == Dentries(v, j)
    {
      OtherDirKept(v, v1, p, j, b);
    }
  }

  lemma WriteDirOnly(v: Volume, b: nat, m: DirBlock)
    requires b < NUM_BLOCKS
    ensures OnlyBlock(v, v.(d := WriteDir(v.d, b, m)), b)
  {
  }

  lemma OtherDirKept(v: Volume, v1: Volume, p: nat, j: nat, b: nat)
    requires Inv(v) && Owns(v, p, Direct(0), b) && j != p && IsDir(v, j) && DirShape(v, j)
    requires v1.inodeMap == v.inodeMap && v1.nodes[j] == v.nodes[j]
    requires forall q :: 0 <= q < NUM_SECTORS && q / 8 != b ==> v1.d[q] == v.d[q]
    ensures DirShape(v1, j) && Dentries(v1, j) == Dentries(v, j)
  {
    assert Owns(v, j, Direct(0), v.nodes[j].direct[0]);
    DirKept(v, v1, j);
  }

  lemma AddDentryReplaces(v: Volume, p: nat, mode: nat, ino: nat, name: seq<byte>) returns (e: Dentry)
    requires Inv(v) && IsDir(v, p) && DirShape(v, p) && v.nodes[p].usize < BLOCK_SIZE && IsName(name)
    requires mode < 0x1_0000_0000 && ino < NUM_INODES
    ensures e.ino == ino && e.mode == mode && SameName(e.name, name)
    ensures var v1 := AddDentry(v, p, mode, ino, name);
      Inv(v1) && Lost(v1) == Lost(v) && DirReplaced(v, v1, p, Dentries(v, p) + [e])
  {
    hide DirReplaced, Inv, Lost, WriteDir;
    var n := v.nodes[p];
    var m := ReadDir(v.d, n.direct[0]);
    var k := n.usize / DENTRY_SIZE;
    e := DentryRec.Dentry(mode, ino, SetName(m[k].name, name));
    ReplaceDir(v, p, m[k := e], U16(n.nlinks + 1), n.usize + DENTRY_SIZE);
    assert m[k := e][..k + 1] == m[..k] + [e];
  }

  lemma CutDentryReplaces(v: Volume, p: nat, k: nat)
    requires Inv(v) && IsDir(v, p) && DirShape(v, p) && k < |Dentries(v, p)| && v.nodes[p].usize > 64
    ensures var v1 := CutDentry(v, p, k);
      Inv(v1) && Lost(v1) == Lost(v) &&
      DirReplaced(v, v1, p, Dentries(v, p)[..k] + Dentries(v, p)[k + 1..])
  {
    hide DirReplaced, Inv, Lost, WriteDir;
    var n := v.nodes[p];
    var m := ReadDir(v.d, n.direct[0]);
    var c := n.usize / DENTRY_SIZE;
    ReplaceDir(v, p, ShiftUp(m, k, c), U16(n.nlinks - 1), n.usize - DENTRY_SIZE);
    assert ShiftUp(m, k, c)[..c - 1] == m[..c][..k] + m[..c][k + 1..];
  }

  // ---------- Counting names ----------

  lemma InosConcat(a: seq<Dentry>, b: seq<Dentry>)
    ensures multiset(Inos(a + b)) == multiset(Inos(a)) + multiset(Inos(b))
  {
    assert Inos(a + b) == Inos(a) + Inos(b);
  }

  lemma NamesReplaced(v: Volume, v1: Volume, p: nat, es: seq<Dentry>, f: nat)
    requires DirReplaced(v, v1, p, es) && DirShape(v, p) && DirsOk(v)
    ensures Names(v1, f) + multiset(Inos(Dentries(v, p)))[f] == Names(v, f) + multiset(Inos(es))[f]
  {
    OneDirChanges(v, v1, f, p, NUM_INODES);
  }

  lemma {:induction false} NoNamesMeans(v: Volume, f: nat, n: nat, i: nat, k: nat)
    requires i < n && IsDir(v, i) && DirShape(v, i) && k < |Dentries(v, i)| && Dentries(v, i)[k].ino == f
    ensures NamesUpTo(v, f, n) > 0
  {
    if i == n - 1 {
      var s := Inos(Dentries(v, i));
      assert s[k] == f && f in multiset(s);
    } else {
      NoNamesMeans(v, f, n - 1, i, k);
    }
  }

  lemma {:induction false} UnnamedCount(v: Volume, f: nat, n: nat)
    requires forall i: nat, k :: i < n && IsDir(v, i) && DirShape(v, i) && 0 <= k < |Dentries(v, i)| ==>
      Dentries(v, i)[k].ino != f
    ensures NamesUpTo(v, f, n) == 0
  {
    if n > 0 {
      UnnamedCount(v, f, n - 1);
      if IsDir(v, n - 1) && DirShape(v, n - 1) {
        CountFrom(Dentries(v, n - 1), f, |Dentries(v, n - 1)|);
      }
    }
  }

  // ---------- touch, mkdir, ln ----------

  /** Names, files and liveness after the entries of one directory are replaced. */
  lemma ReplacedKeepsDirs(v: Volume, v1: Volume, p: nat, es: seq<Dentry>)
    requires DirsOk(v) && DirReplaced(v, v1, p, es)
    requires forall k :: 0 <= k < |es| ==> NameOk(v, es, k)
    ensures DirsOk(v1)
    ensures forall f: nat :: IsFile(v1, f) <==> IsFile(v, f)
    ensures forall f: nat :: IsFile(v, f) ==> v1.nodes[f] == v.nodes[f]
  {
    assert forall i: nat :: Live(v1, i) <==> Live(v, i);
    assert forall i: nat :: IsDir(v1, i) <==> IsDir(v, i);
    forall i: nat, k | IsDir(v1, i) && 0 <= k < |Dentries(v1, i)|
      ensures NameOk(v1, Dentries(v1, i), k)
    {
      if i != p {
        assert NameOk(v, Dentries(v, i), k);
      } else {
        assert NameOk(v, es, k);
      }
    }
  }

  lemma AddedNames(v: Volume, v1: Volume, p: nat, e: Dentry, f: nat)
    requires DirsOk(v) && DirShape(v, p) && DirReplaced(v, v1, p, Dentries(v, p) + [e])
    ensures Names(v1, f) == Names(v, f) + if f == e.ino then 1 else 0
  {
    hide DirsOk, Dentries;
    NamesReplaced(v, v1, p, Dentries(v, p) + [e], f);
    InosConcat(Dentries(v, p), [e]);
    assert Inos([e]) == [e.ino];
  }

  /** Directory p has one more entry, at its end. */
  ghost predicate EntryAdded(v: Volume, v1: Volume, p: nat, mode: nat, ino: nat, name: seq<byte>)
    requires IsName(name)
  {
    && IsDir(v1, p) && DirShape(v, p) && DirShape(v1, p)
    && exists e: Dentry :: e.mode == mode && e.ino == ino && SameName(e.name, name) && Dentries(v1, p) == Dentries(v, p) + [e]
  }

  ghost predicate OtherDirsSame(v: Volume, v1: Volume, p: nat) {
    forall j: nat :: j != p && IsDir(v, j) && DirShape(v, j) ==> IsDir(v1, j) && DirShape(v1, j) && Dentries(v1, j) == Dentries(v, j)
  }

  lemma {:induction false} FindLast(es: seq<Dentry>, e: Dentry, k: nat, name: seq<byte>)
    requires IsName(name) && k <= |es| && FindName(es, k, name) == |es| && SameName(e.name, name)
    ensures FindName(es + [e], k, name) == |es|
    decreases |es| - k
  {
    if k < |es| {
      FindLast(es, e, k + 1, name);
    }
  }

  /** A name that was new leads to the inode of the added entry. */
  lemma AddedFound(v: Volume, v1: Volume, p: nat, mode: nat, ino: nat, name: seq<byte>)
    requires IsName(name) && EntryAdded(v, v1, p, mode, ino, name) && !Found(v, p, name)
    ensures LeadsTo(v1, p, name, ino)
  {
    hide Dentries;
    var e: Dentry :| e.mode == mode && e.ino == ino && SameName(e.name, name) && Dentries(v1, p) == Dentries(v, p) + [e];
    FindLast(Dentries(v, p), e, 0, name);
  }

  /** Looking name up in directory p finds inode i. */
  ghost predicate LeadsTo(v: Volume, p: nat, name: seq<byte>, i: nat)
    requires IsName(name)
  {
    DirShape(v, p) && Found(v, p, name) && Dentries(v, p)[Lookup(v, p, name)].ino == i
  }

  /** Adding an entry for a live inode keeps everything but the count of that inode, which grows by one. */
  lemma AddDentryKeeps(v: Volume, p: nat, mode: nat, ino: nat, name: seq<byte>)
    requires Inv(v) && DirsOk(v) && IsDir(v, p) && DirShape(v, p) && v.nodes[p].usize < BLOCK_SIZE && IsName(name)
    requires mode < 0x1_0000_0000 && ino < NUM_INODES && Live(v, ino)
    ensures var v1 := AddDentry(v, p, mode, ino, name);
      && Inv(v1) && Lost(v1) == Lost(v) && DirsOk(v1)
      && v1.inodeMap == v.inodeMap && v1.blockMap == v.blockMap
      && (forall j: nat, s :: Live(v, j) && IsSlot(s) ==> Ptr(v1, j, s) == Ptr(v, j, s))
      && (forall f: nat :: Names(v1, f) == Names(v, f) + if f == ino then 1 else 0)
      && (forall f: nat :: IsFile(v1, f) <==> IsFile(v, f))
      && (forall f: nat :: IsFile(v, f) ==> v1.nodes[f] == v.nodes[f])
      && EntryAdded(v, v1, p, mode, ino, name) && OtherDirsSame(v, v1, p)
  {
    hide AddDentry, Inv, Lost, Names;
    var e := AddDentryReplaces(v, p, mode, ino, name);
    var v1 := AddDentry(v, p, mode, ino, name);
    forall f: nat
      ensures Names(v1, f) == Names(v, f) + if f == ino then 1 else 0
    {
      AddedNames(v, v1, p, e, f);
    }
    forall k | 0 <= k < |Dentries(v, p) + [e]|
      ensures NameOk(v, Dentries(v, p) + [e], k)
    {
      if k < |Dentries(v, p)| {
        assert NameOk(v, Dentries(v, p), k);
      }
    }
    ReplacedKeepsDirs(v, v1, p, Dentries(v, p) + [e]);
  }

  function NextInode(v: Volume): nat {
    FirstClear(v.inodeMap, 0)
  }

  function NextBlock(v: Volume): nat {
    FirstClear(v.blockMap, 0)
  }

  /** A free inode among the 512 that have a sector, a free block, and a place in directory p. */
  ghost predicate HasRoom(v: Volume, p: nat) {
    && (exists i: nat :: i < NUM_INODES && !Live(v, i))
    && (exists b: nat :: Free(v, b))
    && IsDir(v, p) && DirShape(v, p) && v.nodes[p].usize < BLOCK_SIZE
  }

  lemma RoomGives(v: Volume, p: nat)
    requires HasRoom(v, p)
    ensures NextInode(v) < NUM_INODES && !Live(v, NextInode(v)) && Free(v, NextBlock(v)) && NextInode(v) != p
  {
    var i: nat :| i < NUM_INODES && !Live(v, i);
    FirstClearIsLeast(v.inodeMap, 0, i);
    var b: nat :| Free(v, b);
    FirstClearIsLeast(v.blockMap, 0, b);
  }

  /** The number of the inode that a name of directory p refers to. */
  function Lookup(v: Volume, p: nat, name: seq<byte>): (r: nat)
    requires DirShape(v, p) && IsName(name)
    ensures r <= v.nodes[p].usize / DENTRY_SIZE
  {
    FindName(Dentries(v, p), 0, name)
  }

  predicate Found(v: Volume, p: nat, name: seq<byte>)
    requires DirShape(v, p) && IsName(name)
  {
    Lookup(v, p, name) < v.nodes[p].usize / DENTRY_SIZE
  }

  function Touch(v: Volume, p: nat, name: seq<byte>): Volume
    requires DirShape(v, p) && IsName(name) && v.nodes[p].usize < BLOCK_SIZE
    requires NextInode(v) < NUM_INODES && NextInode(v) != p
  {
    if Found(v, p, name) then v
    else AddDentry(NewInode(v, NextInode(v), NextBlock(v), FILE, 1, 0), p, FILE, NextInode(v), name)
  }

  function Mkdir(v: Volume, p: nat, name: seq<byte>): Volume
    requires DirShape(v, p) && IsName(name) && v.nodes[p].usize < BLOCK_SIZE && v.nodes[p].ino == p
    requires NextInode(v) < NUM_INODES && NextInode(v) != p
  {
    if Found(v, p, name) then v
    else
      var m := ReadDir(v.d, v.nodes[p].direct[0]);
      AddDentry(NewDir(v, NextInode(v), NextBlock(v), p, m), p, DIR, NextInode(v), name)
  }

  /** One more name in directory p for inode f, and one more in its count. */
  function LinkTo(v: Volume, p: nat, f: nat, dst: seq<byte>): Volume
    requires DirShape(v, p) && v.nodes[p].usize < BLOCK_SIZE && f < NUM_INODES && IsName(dst)
  {
    var v1 := AddDentry(v, p, FILE, f, dst);
    Relink(v1, f, U16(v1.nodes[f].nlinks + 1))
  }

  /** A new inode that no entry names yet leaves every count as it was. */
  lemma NewInodeKeepsNames(v: Volume, v1: Volume, i: nat)
    requires Inv(v) && DirsOk(v) && i < NUM_INODES && !Live(v, i)
    requires forall j: nat :: Live(v1, j) <==> Live(v, j) || j == i
    requires forall j :: 0 <= j < NUM_INODES && j != i ==> v1.nodes[j] == v.nodes[j]
    requires forall j: nat :: IsDir(v, j) ==> DirShape(v1, j) && Dentries(v1, j) == Dentries(v, j)
    ensures forall f: nat :: f != i ==> Names(v1, f) == Names(v, f) + NamesIn(v1, i, f)
    ensures Names(v, i) == 0
  {
    forall f: nat | f != i
      ensures Names(v1, f) == Names(v, f) + NamesIn(v1, i, f)
    {
      OneDirChanges(v, v1, f, i, NUM_INODES);
    }
    forall j: nat, k | j < NUM_INODES && IsDir(v, j) && DirShape(v, j) && 0 <= k < |Dentries(v, j)|
      ensures Dentries(v, j)[k].ino != i
    {
      assert NameOk(v, Dentries(v, j), k);
    }
    UnnamedCount(v, i, NUM_INODES);
  }

  // ---------- What touch, mkdir and ln keep ----------

  /** Every inode but i, every directory's entries and every free-or-marked state but b's are as before. */
  ghost predicate Grew(v: Volume, v1: Volume, i: nat) {
    && i < NUM_INODES && !Live(v, i)
    && (forall j: nat :: Live(v1, j) <==> Live(v, j) || j == i)
    && (forall j :: 0 <= j < NUM_INODES && j != i ==> v1.nodes[j] == v.nodes[j])
    && (forall j: nat :: IsDir(v, j) ==> DirShape(v1, j) && Dentries(v1, j) == Dentries(v, j))
    && (forall j: nat, s :: Live(v, j) && IsSlot(s) ==> Ptr(v1, j, s) == Ptr(v, j, s))
  }

  lemma NewFileOk(v: Volume, i: nat, b: nat)
    requires FsOk(v) && i < NUM_INODES && !Live(v, i) && Free(v, b)
    ensures var v1 := NewInode(v, i, b, FILE, 1, 0);
      && Inv(v1) && Lost(v1) == Lost(v) && DirsOk(v1) && Grew(v, v1, i)
      && IsFile(v1, i) && v1.nodes[i].nlinks == 1 && Names(v1, i) == 0
      && (forall f: nat :: Names(v1, f) == Names(v, f))
  {
    var v1 := NewInode(v, i, b, FILE, 1, 0);
    NewInodeKeeps(v, i, b, FILE, 1, 0);
    hide Inv, Lost, LinksOk, NamesUpTo, SetBit;
    assert v1.nodes[i] == FreshInode(i, b, FILE, 1, 0);
    NewInodeKeepsNames(v, v1, i);
    OneDirChanges(v, v1, i, i, NUM_INODES);
    GrewDirsOk(v, v1, i);
  }

  lemma GrewDirsOk(v: Volume, v1: Volume, i: nat)
    requires DirsOk(v) && Grew(v, v1, i) && v1.nodes[i].ino == i
    requires v1.nodes[i].mode == FILE || (v1.nodes[i].mode == DIR && DirShape(v1, i))
    requires v1.nodes[i].mode == DIR ==> forall k :: 0 <= k < |Dentries(v1, i)| ==> NameOk(v1, Dentries(v1, i), k)
    ensures DirsOk(v1)
  {
    hide Dentries, DirShape;
    forall j: nat, k | IsDir(v1, j) && 0 <= k < |Dentries(v1, j)|
      ensures NameOk(v1, Dentries(v1, j), k)
    {
      if j != i {
        assert NameOk(v, Dentries(v, j), k);
      }
    }
  }

  lemma DotNames(m: DirBlock, i: nat, p: nat)
    requires i < NUM_INODES && p < NUM_INODES
    ensures DotEntries(m, i, p)[..2] == DotEntries(m, i, p)[..64 / DENTRY_SIZE]
    ensures Inos(DotEntries(m, i, p)[..2]) == [i, p]
    ensures var es := DotEntries(m, i, p);
      es[0].mode == DIR && es[0].ino == i && SameName(es[0].name, Dot()) && es[1].mode == DIR && es[1].ino == p && SameName(es[1].name, Dot() + Dot())
  {
  }

  /** Directory i holds "." for itself and ".." for p. */
  ghost predicate DotDir(v: Volume, i: nat, p: nat) {
    && DirShape(v, i) && |Dentries(v, i)| == 2
    && Dentries(v, i)[0].mode == DIR && Dentries(v, i)[0].ino == i && SameName(Dentries(v, i)[0].name, Dot())
    && Dentries(v, i)[1].mode == DIR && Dentries(v, i)[1].ino == p && SameName(Dentries(v, i)[1].name, Dot() + Dot())
  }

  lemma NewDirOk(v: Volume, i: nat, b: nat, p: nat, m: DirBlock)
    requires FsOk(v) && i < NUM_INODES && !Live(v, i) && Free(v, b) && IsDir(v, p)
    ensures var v1 := NewDir(v, i, b, p, m);
      && Inv(v1) && Lost(v1) == Lost(v) && DirsOk(v1) && Grew(v, v1, i)
      && IsDir(v1, i) && DotDir(v1, i, p)
      && (forall f: nat :: IsFile(v1, f) ==> Names(v1, f) == Names(v, f))
  {
    hide Inv, Lost, LinksOk, Names, NewInode, WriteDir, DotEntries, DotDir, Grew, DirsOk, Dentries, Ptr;
    var v0, v1 := NewInode(v, i, b, DIR, 0, 64), NewDir(v, i, b, p, m);
    NewInodeKeeps(v, i, b, DIR, 0, 64);
    NewInodeNode(v, i, b, DIR, 0, 64);
    DirBlockWritten(v0, i, b, p, m);
    NewDirGrew(v, v0, v1, i, b);
    DotInos(v1, i, p);
    NewDirNames(v, v1, i, p, Dentries(v1, i));
  }

  lemma NewInodeNode(v: Volume, i: nat, b: nat, mode: nat, nlinks: nat, usize: nat)
    requires i < NUM_INODES && b < NUM_BLOCKS
    ensures NewInode(v, i, b, mode, nlinks, usize).nodes == v.nodes[i := FreshInode(i, b, mode, nlinks, usize)]
    ensures NewInode(v, i, b, mode, nlinks, usize).d == v.d
  {
  }

  lemma DotInos(v: Volume, i: nat, p: nat)
    requires DotDir(v, i, p)
    ensures DirShape(v, i) && Inos(Dentries(v, i)) == [i, p]
  {
    hide Dentries;
  }

  /** The first block of a new directory, written with "." and "..". */
  lemma DirBlockWritten(v0: Volume, i: nat, b: nat, p: nat, m: DirBlock)
    requires Inv(v0) && Live(v0, i) && v0.nodes[i] == FreshInode(i, b, DIR, 0, 64) && 0 < b < NUM_BLOCKS && p < NUM_INODES
    ensures var v1 := v0.(d := WriteDir(v0.d, b, DotEntries(m, i, p)));
      && Inv(v1) && Lost(v1) == Lost(v0) && DotDir(v1, i, p) && IsDir(v1, i)
      && (forall j: nat, s :: Live(v0, j) && IsSlot(s) ==> Ptr(v1, j, s) == Ptr(v0, j, s))
      && (forall q :: 0 <= q < NUM_SECTORS && q / 8 != b ==> v1.d[q] == v0.d[q])
  {
    hide Lost, WriteDir, DotEntries, ReadDir;
    assert Owns(v0, i, Direct(0), b);
    var v1 := v0.(d := WriteDir(v0.d, b, DotEntries(m, i, p)));
    WriteDirOnly(v0, b, DotEntries(m, i, p));
    DataBlockKeepsPtrs(v0, v1, i, Direct(0), b);
    DirRoundTrip(v0.d, b, DotEntries(m, i, p));
    DotNames(m, i, p);
  }

  lemma NewDirGrew(v: Volume, v0: Volume, v1: Volume, i: nat, b: nat)
    requires Inv(v) && DirsOk(v) && Inv(v0) && i < NUM_INODES && !Live(v, i) && b != 0
    requires forall j: nat :: Live(v0, j) <==> Live(v, j) || j == i
    requires v0.nodes == v.nodes[i := FreshInode(i, b, DIR, 0, 64)] && v0.d == v.d && v1 == v0.(d := v1.d)
    requires forall j: nat, s :: Live(v, j) && IsSlot(s) ==> Ptr(v0, j, s) == Ptr(v, j, s)
    requires forall j: nat, s :: Live(v0, j) && IsSlot(s) ==> Ptr(v1, j, s) == Ptr(v0, j, s)
    requires forall q :: 0 <= q < NUM_SECTORS && q / 8 != b ==> v1.d[q] == v0.d[q]
    ensures Grew(v, v1, i) && v1.nodes[i].ino == i
  {
    forall j: nat | IsDir(v, j)
      ensures DirShape(v1, j) && Dentries(v1, j) == Dentries(v, j)
    {
      OtherBlock(v, v0, i, j, b);
      DirKept(v, v1, j);
    }
    hide Inv, Dentries, DirShape;
    assert forall j: nat :: Live(v1, j) <==> Live(v0, j);
  }

  /** The block of another directory is not the new one's. */
  lemma OtherBlock(v: Volume, v0: Volume, i: nat, j: nat, b: nat)
    requires Inv(v0) && IsDir(v, j) && DirShape(v, j) && i < NUM_INODES && j != i && b != 0
    requires Live(v0, j) && Live(v0, i) && v0.nodes[i] == FreshInode(i, b, DIR, 0, 64) && v0.nodes[j] == v.nodes[j]
    ensures v.nodes[j].direct[0] != b
  {
    assert Owns(v0, j, Direct(0), v.nodes[j].direct[0]);
    assert v0.nodes[i].direct[0] == b;
    assert Owns(v0, i, Direct(0), b);
  }

  lemma NewDirNames(v: Volume, v1: Volume, i: nat, p: nat, es: seq<Dentry>)
    requires Inv(v) && DirsOk(v) && Grew(v, v1, i) && IsDir(v, p) && v1.nodes[i].ino == i
    requires IsDir(v1, i) && DirShape(v1, i) && Dentries(v1, i) == es && Inos(es) == [i, p]
    ensures DirsOk(v1)
    ensures forall f: nat :: IsFile(v1, f) ==> Names(v1, f) == Names(v, f)
  {
    hide Inv, Dentries, DirShape, NamesUpTo;
    assert es[0].ino == Inos(es)[0] && es[1].ino == Inos(es)[1];
    assert forall k :: 0 <= k < |es| ==> NameOk(v1, es, k);
    GrewDirsOk(v, v1, i);
    NewInodeKeepsNames(v, v1, i);
    forall f: nat | IsFile(v1, f)
      ensures Names(v1, f) == Names(v, f)
    {
      assert f !in Inos(es);
    }
  }

  lemma TouchLinks(v: Volume, v0: Volume, v1: Volume, i: nat)
    requires LinksOk(v) && Grew(v, v0, i) && IsFile(v0, i) && v0.nodes[i].nlinks == 1 && Names(v0, i) == 0
    requires forall f: nat :: Names(v0, f) == Names(v, f)
    requires forall f: nat :: Names(v1, f) == Names(v0, f) + if f == i then 1 else 0
    requires forall f: nat :: IsFile(v1, f) <==> IsFile(v0, f)
    requires forall f: nat :: IsFile(v0, f) ==> v1.nodes[f] == v0.nodes[f]
    ensures LinksOk(v1) && IsFile(v1, i) && v1.nodes[i] == v0.nodes[i] && Names(v1, i) == 1
  {
    hide Names;
    forall f: nat | IsFile(v1, f)
      ensures v1.nodes[f].nlinks == Names(v1, f) && Names(v1, f) > 0
    {
      if f != i {
        assert IsFile(v, f);
      }
    }
  }

  lemma MkdirLinks(v: Volume, v0: Volume, v1: Volume, i: nat)
    requires LinksOk(v) && Grew(v, v0, i) && IsDir(v0, i)
    requires forall f: nat :: IsFile(v0, f) ==> Names(v0, f) == Names(v, f)
    requires forall f: nat :: Names(v1, f) == Names(v0, f) + if f == i then 1 else 0
    requires forall f: nat :: IsFile(v1, f) <==> IsFile(v0, f)
    requires forall f: nat :: IsFile(v0, f) ==> v1.nodes[f] == v0.nodes[f]
    ensures LinksOk(v1)
  {
    hide Names;
    forall f: nat | IsFile(v1, f)
      ensures v1.nodes[f].nlinks == Names(v1, f) && Names(v1, f) > 0
    {
      assert f != i && IsFile(v, f);
    }
  }

  lemma GrewThenReplaced(v: Volume, v0: Volume, v1: Volume, i: nat)
    requires Grew(v, v0, i) && v1.inodeMap == v0.inodeMap
    requires forall j: nat, s :: Live(v0, j) && IsSlot(s) ==> Ptr(v1, j, s) == Ptr(v0, j, s)
    ensures forall j: nat, s :: Live(v, j) && IsSlot(s) ==> Ptr(v1, j, s) == Ptr(v, j, s)
    ensures forall j: nat :: Live(v, j) ==> Live(v1, j)
  {
    hide Dentries, DirShape;
    assert forall j: nat :: Live(v1, j) <==> Live(v0, j);
    forall j: nat, s | Live(v, j) && IsSlot(s)
      ensures Ptr(v1, j, s) == Ptr(v, j, s)
    {
      assert Live(v0, j);
    }
  }

  lemma LnLinks(v: Volume, v0: Volume, v1: Volume, f: nat)
    requires LinksOk(v) && DirsOk(v0) && Live(v0, f)
    requires v1 == Relink(v0, f, U16(v0.nodes[f].nlinks + 1))
    requires forall g: nat :: Names(v0, g) == Names(v, g) + if g == f then 1 else 0
    requires forall g: nat :: Names(v1, g) == Names(v0, g)
    requires forall g: nat :: IsFile(v0, g) <==> IsFile(v, g)
    requires forall g: nat :: IsFile(v1, g) <==> IsFile(v0, g)
    requires forall g: nat :: IsFile(v, g) ==> v0.nodes[g] == v.nodes[g]
    ensures LinksOk(v1)
  {
    if IsFile(v0, f) {
      NamesBound(v0, f, NUM_INODES);
      hide Names, DirsOk;
      assert Names(v0, f) < 0x1_0000;
    }
    hide Names, DirsOk;
    forall g: nat | IsFile(v1, g)
      ensures v1.nodes[g].nlinks == Names(v1, g) && Names(v1, g) > 0
    {
      assert IsFile(v, g);
    }
  }

  lemma AddedThrough(v: Volume, v0: Volume, v1: Volume, i: nat, p: nat, mode: nat, name: seq<byte>)
    requires IsName(name) && Grew(v, v0, i) && IsDir(v, p) && DirShape(v, p) && EntryAdded(v0, v1, p, mode, i, name) && !Found(v, p, name)
    ensures EntryAdded(v, v1, p, mode, i, name) && LeadsTo(v1, p, name, i)
  {
    hide Dentries;
    AddedFound(v, v1, p, mode, i, name);
  }

  /** touch keeps the whole invariant; a new name is added at the end of the directory and leads to a new,
      empty file with one link. */
  lemma TouchOk(v: Volume, p: nat, name: seq<byte>)
    requires FsOk(v) && HasRoom(v, p) && IsName(name)
    ensures NextInode(v) < NUM_INODES && NextInode(v) != p
    ensures var v1 := Touch(v, p, name);
      && FsOk(v1) && Lost(v1) == Lost(v)
      && (Found(v, p, name) ==> v1 == v)
      && (!Found(v, p, name) ==>
           EntryAdded(v, v1, p, FILE, NextInode(v), name) && LeadsTo(v1, p, name, NextInode(v)) &&
           IsFile(v1, NextInode(v)) && v1.nodes[NextInode(v)].usize == 0 && Names(v1, NextInode(v)) == 1)
      && (forall j: nat, s :: Live(v, j) && IsSlot(s) ==> Ptr(v1, j, s) == Ptr(v, j, s))
      && (forall j: nat :: Live(v, j) ==> Live(v1, j))
  {
    RoomGives(v, p);
    if !Found(v, p, name) {
      var i, b := NextInode(v), NextBlock(v);
      var v0 := NewInode(v, i, b, FILE, 1, 0);
      NewFileOk(v, i, b);
      assert v0.nodes[i] == FreshInode(i, b, FILE, 1, 0);
      hide Inv, Lost, Names, NewInode, AddDentry, Found, DirsOk, LinksOk, EntryAdded, LeadsTo;
      assert IsDir(v0, p) && DirShape(v0, p) && v0.nodes[p] == v.nodes[p];
      AddDentryKeeps(v0, p, FILE, i, name);
      var v1 := AddDentry(v0, p, FILE, i, name);
      TouchLinks(v, v0, v1, i);
      GrewThenReplaced(v, v0, v1, i);
      AddedThrough(v, v0, v1, i, p, FILE, name);
    }
  }

  /** mkdir keeps the whole invariant; a new name is added at the end of the directory and leads to a new
      directory that holds "." and ".." and nothing else. */
  lemma MkdirOk(v: Volume, p: nat, name: seq<byte>)
    requires FsOk(v) && HasRoom(v, p) && IsName(name)
    ensures 0 < NextInode(v) < NUM_INODES && NextInode(v) != p && v.nodes[p].ino == p
    ensures var v1 := Mkdir(v, p, name);
      && FsOk(v1) && Lost(v1) == Lost(v)
      && (Found(v, p, name) ==> v1 == v)
      && (!Found(v, p, name) ==>
           EntryAdded(v, v1, p, DIR, NextInode(v), name) && LeadsTo(v1, p, name, NextInode(v)) &&
           IsDir(v1, NextInode(v)) && DotDir(v1, NextInode(v), p))
      && (forall j: nat, s :: Live(v, j) && IsSlot(s) ==> Ptr(v1, j, s) == Ptr(v, j, s))
      && (forall j: nat :: Live(v, j) ==> Live(v1, j))
  {
    RoomGives(v, p);
    if !Found(v, p, name) {
      var i, b, m := NextInode(v), NextBlock(v), ReadDir(v.d, v.nodes[p].direct[0]);
      var v0 := NewDir(v, i, b, p, m);
      NewDirOk(v, i, b, p, m);
      hide Inv, Lost, Names, NewDir, AddDentry, Found, DirsOk, LinksOk, EntryAdded, LeadsTo, DotDir, OtherDirsSame;
      assert IsDir(v0, p) && DirShape(v0, p) && v0.nodes[p] == v.nodes[p];
      AddDentryKeeps(v0, p, DIR, i, name);
      var v1 := AddDentry(v0, p, DIR, i, name);
      MkdirLinks(v, v0, v1, i);
      GrewThenReplaced(v, v0, v1, i);
      AddedThrough(v, v0, v1, i, p, DIR, name);
      DotDirKept(v0, v1, i, p);
    }
  }

  lemma DotDirKept(v: Volume, v1: Volume, i: nat, p: nat)
    requires IsDir(v, i) && DotDir(v, i, p) && OtherDirsSame(v, v1, p) && i != p
    ensures IsDir(v1, i) && DotDir(v1, i, p)
  {
    hide Dentries, DirShape;
  }

  /** Changing only link counts changes no directory and no pointer. */
  lemma RelinkKeeps(v: Volume, f: nat, n: nat)
    requires Inv(v) && DirsOk(v) && f < NUM_INODES
    ensures var v1 := Relink(v, f, n);
      && Inv(v1) && Lost(v1) == Lost(v) && DirsOk(v1)
      && (forall g: nat :: Names(v1, g) == Names(v, g))
      && (forall g: nat :: IsFile(v1, g) <==> IsFile(v, g))
      && (forall j: nat, s :: Live(v, j) && IsSlot(s) ==> Ptr(v1, j, s) == Ptr(v, j, s))
      && (forall j: nat :: IsDir(v, j) ==> DirShape(v1, j) && Dentries(v1, j) == Dentries(v, j))
  {
    var v1 := Relink(v, f, n);
    assert forall j: nat, s :: Live(v, j) && IsSlot(s) ==> Ptr(v1, j, s) == Ptr(v, j, s);
    SamePtrs(v, v1);
    hide Inv, Lost;
    assert forall j: nat :: IsDir(v1, j) <==> IsDir(v, j);
    assert forall j: nat :: IsDir(v, j) ==> DirShape(v1, j) && Dentries(v1, j) == Dentries(v, j);
    forall j: nat, k | IsDir(v1, j) && 0 <= k < |Dentries(v1, j)|
      ensures NameOk(v1, Dentries(v1, j), k)
    {
      assert NameOk(v, Dentries(v, j), k);
    }
    forall g: nat
      ensures Names(v1, g) == Names(v, g)
    {
      OneDirChanges(v, v1, g, NUM_INODES, NUM_INODES);
    }
  }

  /** A new link keeps the invariant: it stands at the end of the directory for inode f, which has one more name
      and, when it is a file, one more in its count. */
  lemma LinkToOk(v: Volume, p: nat, f: nat, dst: seq<byte>)
    requires FsOk(v) && IsDir(v, p) && DirShape(v, p) && v.nodes[p].usize < BLOCK_SIZE && IsName(dst) && Live(v, f)
    ensures var v1 := LinkTo(v, p, f, dst);
      && FsOk(v1) && Lost(v1) == Lost(v)
      && v1.inodeMap == v.inodeMap && v1.blockMap == v.blockMap
      && (forall j: nat, s :: Live(v, j) && IsSlot(s) ==> Ptr(v1, j, s) == Ptr(v, j, s))
      && (forall g: nat :: Names(v1, g) == Names(v, g) + (if g == f then 1 else 0))
      && EntryAdded(v, v1, p, FILE, f, dst)
  {
    hide Inv, Lost, Names, AddDentry, Dentries, DirsOk, LinksOk, DirShape, Relink, Found, EntryAdded, OtherDirsSame, Ptr;
    AddDentryKeeps(v, p, FILE, f, dst);
    var v0 := AddDentry(v, p, FILE, f, dst);
    var n := U16(v0.nodes[f].nlinks + 1);
    RelinkKeeps(v0, f, n);
    RelinkMaps(v0, f, n);
    LnLinks(v, v0, Relink(v0, f, n), f);
    AddedKept(v, v0, f, n, p, FILE, f, dst);
  }

  lemma RelinkMaps(v: Volume, f: nat, n: nat)
    requires f < NUM_INODES
    ensures Relink(v, f, n).inodeMap == v.inodeMap && Relink(v, f, n).blockMap == v.blockMap
  {
  }

  lemma AddedKept(v: Volume, v0: Volume, f: nat, n: nat, p: nat, mode: nat, ino: nat, name: seq<byte>)
    requires IsName(name) && f < NUM_INODES && EntryAdded(v, v0, p, mode, ino, name)
    ensures EntryAdded(v, Relink(v0, f, n), p, mode, ino, name)
  {
    var v1 := Relink(v0, f, n);
    assert DirShape(v1, p) && Dentries(v1, p) == Dentries(v0, p);
  }
}
