/** The calls that make, name and remove files, and every sequence of calls on a fresh volume. */
module FsCalls {
  import opened FsLayout
  import opened FsVolume
  import opened FsContent
  import opened FsDirectory
  import opened FsNames
  import opened FileSystem
  import opened FsRemove
  import opened FsLife
  import opened FsPath

  /** Finds the lowest clear bit of the inode map and sets it; what it gives when there is none is not defined. */
  method AllocInode(fs: FileSys) returns (ino: nat)
    requires exists k: nat :: k < 8 * |fs.inodeMap| && !Bit(fs.inodeMap, k)
    modifies fs`inodeMap
    ensures ino == FirstClear(old(fs.inodeMap), 0) && ino < 8 * |old(fs.inodeMap)|
    ensures fs.inodeMap == SetBit(old(fs.inodeMap), ino)
  {
    hide HasBit, Raise, Bit, SetBit;
    ino := 0;
    ghost var c: nat :| c < 8 * |fs.inodeMap| && !Bit(fs.inodeMap, c);
    FirstClearIsLeast(fs.inodeMap, 0, c);
    for i := 0 to |fs.inodeMap|
      invariant fs.inodeMap == old(fs.inodeMap)
      invariant FirstClear(fs.inodeMap, 0) == FirstClear(fs.inodeMap, 8 * i)
      invariant 8 * i <= c
    {
      for j := 0 to 8
        invariant fs.inodeMap == old(fs.inodeMap)
        invariant FirstClear(fs.inodeMap, 0) == FirstClear(fs.inodeMap, 8 * i + j)
        invariant 8 * i + j <= c
      {
        BitOf(fs.inodeMap, i, j);
        if !HasBit(fs.inodeMap[i], j) {
          ino := 8 * i + j;
          fs.inodeMap := fs.inodeMap[i := Raise(fs.inodeMap[i], j)];
          return;
        }
      }
    }
    assert false;
  }

  method ClearDataBlock(fs: FileSys, b: nat)
    requires b < NUM_BLOCKS
    modifies fs`blockMap
    ensures fs.blockMap == ClearBit(old(fs.blockMap), b)
  {
    fs.blockMap := fs.blockMap[b / 8 := Lower(fs.blockMap[b / 8], b % 8)];
  }

  method ClearInodeMap(fs: FileSys, ino: nat)
    requires ino < NUM_INODES
    modifies fs`inodeMap
    ensures fs.inodeMap == ClearBit(old(fs.inodeMap), ino)
  {
    fs.inodeMap := fs.inodeMap[ino / 8 := Lower(fs.inodeMap[ino / 8], ino % 8)];
  }

  /** The loops over direct pointers and over table entries: every nonzero block number is cleared. */
  method ClearList(fs: FileSys, ps: seq<nat>)
    requires forall k :: 0 <= k < |ps| ==> ps[k] < NUM_BLOCKS
    modifies fs`blockMap
    ensures fs.blockMap == ClearEach(old(fs.blockMap), ps)
  {
    for k := 0 to |ps|
      invariant ClearEach(old(fs.blockMap), ps) == ClearEach(fs.blockMap, ps[k..])
    {
      assert ps[k..][1..] == ps[k + 1..];
      if ps[k] != 0 {
        ClearDataBlock(fs, ps[k]);
      }
    }
  }

  lemma {:induction false} ClearEachConcat(m: BlockMap, a: seq<nat>, b: seq<nat>)
    ensures ClearEach(m, a + b) == ClearEach(ClearEach(m, a), b)
    decreases |a|
  {
    if a == [] {
      assert a + b == b;
    } else {
      assert (a + b)[0] == a[0] && (a + b)[1..] == a[1..] + b;
      ClearEachConcat(if 0 < a[0] < NUM_BLOCKS then ClearBit(m, a[0]) else m, a[1..], b);
    }
  }

  /** The index of the first entry with this name; the number of entries when there is none. */
  method LookupEntry(fs: FileSys, p: nat, name: seq<byte>) returns (k: nat)
    requires DirShape(fs.V(), p) && IsName(name)
    ensures k == Lookup(fs.V(), p, name)
  {
    var m := ReadDir(fs.d, fs.nodes[p].direct[0]);
    ghost var es := Dentries(fs.V(), p);
    k := 0;
    while k < fs.nodes[p].usize / DENTRY_SIZE
      invariant k <= |es| && FindName(es, 0, name) == FindName(es, k, name)
    {
      assert m[k] == es[k];
      if SameName(m[k].name, name) {
        return;
      }
      k := k + 1;
    }
  }

  /** One more entry in directory p, and the directory's own count and size. */
  method AppendEntry(fs: FileSys, p: nat, mode: nat, ino: nat, name: seq<byte>)
    requires DirShape(fs.V(), p) && fs.nodes[p].usize < BLOCK_SIZE && IsName(name)
    requires mode < 0x1_0000_0000 && ino < NUM_INODES
    modifies fs`d, fs`nodes
    ensures fs.V() == AddDentry(old(fs.V()), p, mode, ino, name)
  {
    hide WriteDir, ReadDir, SetName;
    var b := fs.nodes[p].direct[0];
    var m := ReadDir(fs.d, b);
    var k := fs.nodes[p].usize / DENTRY_SIZE;
    m := m[k := DentryRec.Dentry(mode, ino, SetName(m[k].name, name))];
    fs.d := WriteDir(fs.d, b, m);
    var n := fs.nodes[p];
    fs.nodes := fs.nodes[p := n.(nlinks := U16(n.nlinks + 1), usize := n.usize + DENTRY_SIZE)];
  }

  /** The fields of a new inode, with one data block. */
  method FillInode(fs: FileSys, i: nat, mode: nat, nlinks: nat, usize: nat, ghost v: Volume)
    requires i < NUM_INODES && Free(v, NextBlock(v)) && fs.V() == v.(inodeMap := SetBit(v.inodeMap, i))
    modifies fs`blockMap, fs`nodes
    ensures fs.V() == NewInode(v, i, NextBlock(v), mode, nlinks, usize)
  {
    var b := fs.AllocDataBlock();
    fs.nodes := fs.nodes[i := FreshInode(i, b, mode, nlinks, usize)];
  }

  /** What a call that makes an inode relies on. */
  ghost predicate CanMake(v: Volume, p: nat) {
    && (exists k: nat :: k < 8 * |v.inodeMap| && !Bit(v.inodeMap, k))
    && 0 < NextInode(v) < NUM_INODES && NextInode(v) != p && Free(v, NextBlock(v))
    && DirShape(v, p) && v.nodes[p].usize < BLOCK_SIZE && v.nodes[p].ino == p
  }

  lemma RoomCanMake(v: Volume, p: nat)
    requires FsOk(v) && HasRoom(v, p)
    ensures CanMake(v, p)
  {
    hide Inv, LinksOk, NextBlock, Dentries;
    RoomGives(v, p);
    assert !Bit(v.inodeMap, NextInode(v));
  }

  lemma TouchSteps(v: Volume, p: nat, name: seq<byte>)
    requires CanMake(v, p) && IsName(name)
    ensures NextInode(v) < NUM_INODES && NextInode(v) != p && DirShape(v, p) && v.nodes[p].usize < BLOCK_SIZE
    ensures Found(v, p, name) ==> Touch(v, p, name) == v
    ensures !Found(v, p, name) ==> (Touch(v, p, name) ==
      AddDentry(NewInode(v, NextInode(v), NextBlock(v), FILE, 1, 0), p, FILE, NextInode(v), name))
  {
    hide AddDentry, FirstClear, Dentries, SetBit;
  }

  lemma MkdirSteps(v: Volume, p: nat, name: seq<byte>)
    requires CanMake(v, p) && IsName(name)
    ensures NextInode(v) < NUM_INODES && NextInode(v) != p && DirShape(v, p) && v.nodes[p].usize < BLOCK_SIZE && v.nodes[p].ino == p
    ensures Found(v, p, name) ==> Mkdir(v, p, name) == v
    ensures !Found(v, p, name) ==>
      var m := ReadDir(v.d, v.nodes[p].direct[0]);
      DirShape(NewDir(v, NextInode(v), NextBlock(v), p, m), p) &&
      Mkdir(v, p, name) == AddDentry(NewDir(v, NextInode(v), NextBlock(v), p, m), p, DIR, NextInode(v), name)
  {
    hide AddDentry, FirstClear, ReadDir, Dentries, SetBit, WriteDir;
  }

  lemma NewInodeShape(v: Volume, i: nat, b: nat, mode: nat, nlinks: nat, usize: nat, p: nat)
    requires DirShape(v, p) && i < NUM_INODES && b < NUM_BLOCKS && p != i
    ensures DirShape(NewInode(v, i, b, mode, nlinks, usize), p)
    ensures NewInode(v, i, b, mode, nlinks, usize).nodes[p] == v.nodes[p]
    ensures NewInode(v, i, b, mode, nlinks, usize).nodes[i].direct[0] == b
    ensures NewInode(v, i, b, mode, nlinks, usize).d == v.d
  {
  }

  method CreateFile(fs: FileSys, p: nat, name: seq<byte>)
    requires CanMake(fs.V(), p) && IsName(name)
    modifies fs`inodeMap, fs`blockMap, fs`nodes, fs`d
    ensures var v := old(fs.V());
      fs.V() == AddDentry(NewInode(v, NextInode(v), NextBlock(v), FILE, 1, 0), p, FILE, NextInode(v), name)
  {
    hide NewInode, AddDentry, FirstClear, SetBit;
    ghost var v := fs.V();
    var i := AllocInode(fs);
    FillInode(fs, i, FILE, 1, 0, v);
    NewInodeShape(v, i, NextBlock(v), FILE, 1, 0, p);
    AppendEntry(fs, p, FILE, i, name);
  }

  /** m is what the sector buffer holds: the parent's block, read by the lookup. */
  method CreateDir(fs: FileSys, p: nat, name: seq<byte>, m: DirBlock)
    requires CanMake(fs.V(), p) && IsName(name)
    modifies fs`inodeMap, fs`blockMap, fs`nodes, fs`d
    ensures var v := old(fs.V());
      DirShape(NewDir(v, NextInode(v), NextBlock(v), p, m), p) &&
      fs.V() == AddDentry(NewDir(v, NextInode(v), NextBlock(v), p, m), p, DIR, NextInode(v), name)
  {
    hide NewInode, AddDentry, FirstClear, SetBit, WriteDir, DotEntries;
    ghost var v := fs.V();
    var i := AllocInode(fs);
    if i == 0 {
      assert false;
      return;
    }
    FillInode(fs, i, DIR, 0, 64, v);
    NewInodeShape(v, i, NextBlock(v), DIR, 0, 64, p);
    fs.d := WriteDir(fs.d, fs.nodes[i].direct[0], DotEntries(m, i, fs.nodes[p].ino));
    assert fs.V() == NewDir(v, i, NextBlock(v), p, m);
    AppendEntry(fs, p, DIR, i, name);
  }

  method DoTouch(fs: FileSys, name: seq<byte>)
    requires fs.formatted ==> FsOk(fs.V()) && HasRoom(fs.V(), fs.cwd) && IsName(name)
    modifies fs`inodeMap, fs`blockMap, fs`nodes, fs`d
    ensures !fs.formatted ==> fs.V() == old(fs.V())
    ensures fs.formatted ==> FsOk(fs.V())
    ensures fs.formatted ==> NextInode(old(fs.V())) < NUM_INODES && NextInode(old(fs.V())) != fs.cwd
    ensures fs.formatted ==> fs.V() == Touch(old(fs.V()), fs.cwd, name)
  {
    hide FsOk, AddDentry, NewInode, Lookup, HasRoom, CanMake, Dentries, FirstClear, ReadDir, Mkdir, Touch, EntryAdded, LeadsTo, Lost, Ptr, Names;
    if !fs.formatted {
      return;
    }
    RoomCanMake(fs.V(), fs.cwd);
    TouchSteps(fs.V(), fs.cwd, name);
    TouchOk(fs.V(), fs.cwd, name);
    var k := LookupEntry(fs, fs.cwd, name);
    if k < fs.nodes[fs.cwd].usize / DENTRY_SIZE {
      return;
    }
    CreateFile(fs, fs.cwd, name);
  }

  method DoMkdir(fs: FileSys, name: seq<byte>)
    requires fs.formatted ==> FsOk(fs.V()) && HasRoom(fs.V(), fs.cwd) && IsName(name)
    modifies fs`inodeMap, fs`blockMap, fs`nodes, fs`d
    ensures !fs.formatted ==> fs.V() == old(fs.V())
    ensures fs.formatted ==> FsOk(fs.V())
    ensures fs.formatted ==> NextInode(old(fs.V())) < NUM_INODES && NextInode(old(fs.V())) != fs.cwd
    ensures fs.formatted ==> old(fs.nodes[fs.cwd].ino) == fs.cwd
    ensures fs.formatted ==> fs.V() == Mkdir(old(fs.V()), fs.cwd, name)
  {
    hide FsOk, AddDentry, NewDir, Lookup, HasRoom, CanMake, Dentries, FirstClear, ReadDir, Mkdir, Touch, EntryAdded, LeadsTo, DotDir, Lost, Ptr;
    if !fs.formatted {
      return;
    }
    RoomCanMake(fs.V(), fs.cwd);
    MkdirSteps(fs.V(), fs.cwd, name);
    MkdirOk(fs.V(), fs.cwd, name);
    var k := LookupEntry(fs, fs.cwd, name);
    var m := ReadDir(fs.d, fs.nodes[fs.cwd].direct[0]);
    if k < fs.nodes[fs.cwd].usize / DENTRY_SIZE {
      return;
    }
    CreateDir(fs, fs.cwd, name, m);
  }

  // ---------- Paths, cd and ln ----------

  /** The second loop of find_dir: what stands from position k on. */
  method CopyFrom(path: seq<byte>, k: nat) returns (tail: seq<byte>)
    requires k <= |path| + 1
    ensures tail == if k <= |path| then path[k..] else []
  {
    tail := [];
    var i := k;
    while i < |path|
      invariant k <= i && (k <= |path| ==> i <= |path| && tail == path[k..i])
      invariant k > |path| ==> tail == []
    {
      tail := tail + [path[i]];
      i := i + 1;
    }
  }

  /** The first name of a path and what follows its slash, character by character. */
  method SplitPath(path: seq<byte>) returns (head: seq<byte>, tail: seq<byte>)
    ensures head == Head(path) && tail == Tail(path)
  {
    hide Head, Tail;
    head := [];
    var i := 0;
    while i < |path| && path[i] != SLASH
      invariant i <= |path| && head == path[..i] && SLASH !in head
    {
      head := head + [path[i]];
      i := i + 1;
    }
    tail := CopyFrom(path, i + 1);
    assert path == if i < |path| then head + [SLASH] + path[i + 1..] else head;
    HeadTail(head, tail);
  }

  /** find_dir: the current directory moves along with the search, and the flag find says what a call inside
      found. */
  method FindPath(fs: FileSys, path: seq<byte>) returns (found: bool, find: bool)
    requires Walkable(fs.V(), fs.cwd, path)
    modifies fs`cwd
    ensures FindDir(fs.V(), old(fs.cwd), path) == Search(found, fs.cwd)
    ensures SearchPath(fs.V(), old(fs.cwd), path) == Search(find, fs.cwd)
    decreases |path|
  {
    hide Lookup, IsName, ReadDir, Head, Tail;
    var rest := path;
    if path != [] && path[0] == SLASH {
      fs.cwd := 0;
      if |path| == 1 {
        assert path == [SLASH];
        return true, false;
      }
      rest := path[1..];
    }
    var head, tail := SplitPath(rest);
    var k := LookupEntry(fs, fs.cwd, head);
    if k == fs.nodes[fs.cwd].usize / DENTRY_SIZE {
      return false, false;
    }
    fs.cwd := ReadDir(fs.d, fs.nodes[fs.cwd].direct[0])[k].ino;
    if tail == [] {
      return true, true;
    }
    found, find := FindPath(fs, tail);
    found := find;
  }

  /** A path that leads to no directory leaves the current one. */
  method DoCd(fs: FileSys, path: seq<byte>)
    requires fs.formatted ==> DirsOk(fs.V()) && IsDir(fs.V(), fs.cwd) && (path != [] ==> Walkable(fs.V(), fs.cwd, path))
    modifies fs`cwd
    ensures fs.cwd == if fs.formatted then AfterCd(fs.V(), old(fs.cwd), path) else old(fs.cwd)
    ensures fs.formatted ==> IsDir(fs.V(), fs.cwd)
  {
    hide Walkable, FindDir, SearchPath;
    if !fs.formatted {
      return;
    }
    CdEnds(fs.V(), fs.cwd, path);
    var temp := fs.cwd;
    if path != [] {
      FindDirEnds(fs.V(), fs.cwd, path);
      var found, _ := FindPath(fs, path);
      if !found || fs.nodes[fs.cwd].mode != DIR {
        fs.cwd := temp;
        return;
      }
    }
    if fs.nodes[fs.cwd].mode == FILE {
      assert false;
    }
  }

  /** One more name for inode f, as ln makes it. */
  method AddLink(fs: FileSys, p: nat, f: nat, dst: seq<byte>)
    requires DirShape(fs.V(), p) && fs.nodes[p].usize < BLOCK_SIZE && f < NUM_INODES && IsName(dst)
    modifies fs`nodes, fs`d
    ensures fs.V() == LinkTo(old(fs.V()), p, f, dst)
  {
    hide AddDentry;
    AppendEntry(fs, p, FILE, f, dst);
    fs.nodes := fs.nodes[f := fs.nodes[f].(nlinks := U16(fs.nodes[f].nlinks + 1))];
  }

  lemma LnSafe(v: Volume, cwd: nat, src: seq<byte>, dst: seq<byte>)
    requires FsOk(v) && LnReady(v, cwd, src, dst)
    ensures FsOk(Ln(v, cwd, src, dst)) && (FindDir(v, cwd, src).found ==> FindDir(v, cwd, src).at < NUM_INODES)
  {
    hide FsOk, Ln, FindDir, LnReady, EntryAdded, Names, Lost, Ptr;
    LnOk(v, cwd, src, dst);
  }

  /** Links dst to what the path src leads to; a destination name that exists is not refused. When the path leads
      nowhere, the current directory is not put back. */
  method DoLn(fs: FileSys, src: seq<byte>, dst: seq<byte>)
    requires fs.formatted ==> FsOk(fs.V()) && LnReady(fs.V(), fs.cwd, src, dst)
    modifies fs`nodes, fs`d, fs`cwd
    ensures !fs.formatted ==> fs.V() == old(fs.V()) && fs.cwd == old(fs.cwd)
    ensures fs.formatted ==> FsOk(fs.V())
    ensures fs.formatted ==> LnReady(old(fs.V()), old(fs.cwd), src, dst) && fs.V() == Ln(old(fs.V()), old(fs.cwd), src, dst)
    ensures fs.formatted ==> fs.cwd == AfterSearch(old(fs.V()), old(fs.cwd), src)
  {
    hide FsOk, LinkTo, Walkable, FindDir, SearchPath;
    if !fs.formatted {
      return;
    }
    LnSafe(fs.V(), fs.cwd, src, dst);
    var father := fs.cwd;
    var found, _ := FindPath(fs, src);
    if !found {
      return;
    }
    var f := fs.cwd;
    fs.cwd := father;
    AddLink(fs, father, f, dst);
  }

  // ---------- rm ----------

  /** The first entry with this name is taken out of the buffer; the others move up over it. */
  method ShiftOut(m0: DirBlock, n: nat, name: seq<byte>) returns (m: DirBlock)
    requires IsName(name) && n <= DENTRIES && FindName(m0[..n], 0, name) < n
    ensures m == ShiftUp(m0, FindName(m0[..n], 0, name), n)
  {
    hide ShiftUp;
    ghost var f := FindName(m0[..n], 0, name);
    m := m0;
    var found := false;
    for k := 0 to n
      invariant found <==> f < k
      invariant m == if f < k then ShiftUp(m0, f, k) else m0
    {
      if f <= k {
        ShiftMore(m0, f, k);
      }
      if found {
        m := m[k - 1 := m[k]];
      }
      assert m0[..n][k] == m0[k];
      if SameName(m[k].name, name) {
        found := true;
      }
    }
  }

  lemma ShiftMore(m: DirBlock, f: nat, k: nat)
    requires f <= k < DENTRIES
    ensures f < k ==> ShiftUp(m, f, k)[k] == m[k] && ShiftUp(m, f, k)[k - 1 := m[k]] == ShiftUp(m, f, k + 1)
    ensures f == k ==> ShiftUp(m, f, k + 1) == m
  {
  }

  /** Gives back the inode and the blocks that its direct pointers, and the tables its size shows, name. */
  method ReleaseInode(fs: FileSys, f: nat)
    requires Inv(fs.V()) && Live(fs.V(), f) && TablesThere(fs.V(), f)
    modifies fs`inodeMap, fs`blockMap
    ensures fs.nodes[f].lev1[0] < NUM_BLOCKS && fs.nodes[f].lev1[1] < NUM_BLOCKS
    ensures fs.V() == Release(old(fs.V()), f)
  {
    ReleaseRange(fs.V(), f);
    hide Inv, ClearEach, ReadTable;
    ghost var m, v := fs.blockMap, fs.V();
    var node := fs.nodes[f];
    ClearInodeMap(fs, f);
    ClearList(fs, node.direct);
    if node.usize > DIRECT_BYTES {
      ClearList(fs, ReadTable(fs.d, node.lev1[0]));
      ClearDataBlock(fs, node.lev1[0]);
      ClearTable(v, ClearEach(m, node.direct), f, 0);
    } else {
      ClearNone(ClearEach(m, node.direct));
    }
    ghost var m1 := fs.blockMap;
    if node.usize > TABLE_BYTES + DIRECT_BYTES && node.usize < 2 * TABLE_BYTES + DIRECT_BYTES {
      ClearList(fs, ReadTable(fs.d, node.lev1[1]));
      ClearDataBlock(fs, node.lev1[1]);
      ClearTable(v, m1, f, 1);
    } else {
      ClearNone(m1);
    }
    ClearEachConcat(m, node.direct, TableBlocks(v, f, 0));
    ClearEachConcat(m, node.direct + TableBlocks(v, f, 0), TableBlocks(v, f, 1));
  }

  lemma ClearNone(m: BlockMap)
    ensures ClearEach(m, []) == m
  {
  }

  lemma ClearTable(v: Volume, m: BlockMap, f: nat, t: nat)
    requires f < NUM_INODES && t < 2 && 0 < v.nodes[f].lev1[t] < NUM_BLOCKS && TableFreed(v.nodes[f].usize, t)
    ensures ClearEach(m, TableBlocks(v, f, t)) == ClearBit(ClearEach(m, ReadTable(v.d, v.nodes[f].lev1[t])), v.nodes[f].lev1[t])
  {
    ClearEachConcat(m, ReadTable(v.d, v.nodes[f].lev1[t]), [v.nodes[f].lev1[t]]);
  }

  lemma ReleaseRange(v: Volume, f: nat)
    requires Inv(v) && Live(v, f) && TablesThere(v, f)
    ensures forall t :: 0 <= t < NUM_LEV1 ==> v.nodes[f].lev1[t] < NUM_BLOCKS
    ensures forall k :: 0 <= k < NUM_DIRECT ==> v.nodes[f].direct[k] < NUM_BLOCKS
    ensures forall t :: 0 <= t < 2 && TableFreed(v.nodes[f].usize, t) ==> v.nodes[f].lev1[t] > 0
    ensures forall t, e :: 0 <= t < 2 && TableFreed(v.nodes[f].usize, t) && 0 <= e < TABLE_ENTRIES ==>
      ReadTable(v.d, v.nodes[f].lev1[t])[e] < NUM_BLOCKS
  {
    TablesInRange(v, f);
    forall k | 0 <= k < NUM_DIRECT
      ensures v.nodes[f].direct[k] < NUM_BLOCKS
    {
      if v.nodes[f].direct[k] != 0 {
        assert Owns(v, f, Direct(k), v.nodes[f].direct[k]);
      }
    }
    forall t, e | 0 <= t < 2 && TableFreed(v.nodes[f].usize, t) && 0 <= e < TABLE_ENTRIES
      ensures ReadTable(v.d, v.nodes[f].lev1[t])[e] < NUM_BLOCKS
    {
      if ReadTable(v.d, v.nodes[f].lev1[t])[e] != 0 {
        assert Owns(v, f, Entry(t, e), ReadTable(v.d, v.nodes[f].lev1[t])[e]);
      }
    }
  }

  method DoRm(fs: FileSys, name: seq<byte>)
    requires fs.formatted ==> FsOk(fs.V()) && RmReady(fs.V(), fs.cwd, name)
    modifies fs`inodeMap, fs`blockMap, fs`nodes, fs`d
    ensures !fs.formatted ==> fs.V() == old(fs.V())
    ensures fs.formatted ==> FsOk(fs.V())
    ensures fs.formatted ==> RmDefined(old(fs.V()), fs.cwd, name) && fs.V() == Rm(old(fs.V()), fs.cwd, name)
  {
    hide FsOk, Inv, Lookup, RmReady, ReadDir, WriteDir, Release, FindName, ShiftUp;
    if !fs.formatted {
      return;
    }
    ghost var v := fs.V();
    RmSetup(v, fs.cwd, name);
    var p := fs.cwd;
    var k := LookupEntry(fs, p, name);
    var n := fs.nodes[p].usize / DENTRY_SIZE;
    if k == n {
      return;
    }
    var m := ReadDir(fs.d, fs.nodes[p].direct[0]);
    var f := m[k].ino;
    m := ShiftOut(m, n, name);
    fs.d := WriteDir(fs.d, fs.nodes[p].direct[0], m);
    fs.nodes := fs.nodes[p := fs.nodes[p].(usize := fs.nodes[p].usize - DENTRY_SIZE, nlinks := U16(fs.nodes[p].nlinks - 1))];
    assert fs.V() == CutDentry(v, p, k);
    RmCut(v, p, name);
    var c := U16(fs.nodes[f].nlinks - 1);
    if c == 0 {
      ReleaseInode(fs, f);
    } else {
      fs.nodes := fs.nodes[f := fs.nodes[f].(nlinks := c)];
    }
  }

  predicate RmDefined(v: Volume, p: nat, name: seq<byte>) {
    DirShape(v, p) && IsName(name) && (Found(v, p, name) ==>
      v.nodes[p].usize > 64 && Target(v, p, name) < NUM_INODES &&
      forall t :: 0 <= t < NUM_LEV1 ==> v.nodes[Target(v, p, name)].lev1[t] < NUM_BLOCKS)
  }

  lemma RmSetup(v: Volume, p: nat, name: seq<byte>)
    requires FsOk(v) && RmReady(v, p, name)
    ensures RmDefined(v, p, name) && FsOk(Rm(v, p, name))
    ensures Lookup(v, p, name) == FindName(ReadDir(v.d, v.nodes[p].direct[0])[..v.nodes[p].usize / DENTRY_SIZE], 0, name)
  {
    RmOk(v, p, name);
  }

  lemma RmCut(v: Volume, p: nat, name: seq<byte>)
    requires FsOk(v) && RmReady(v, p, name) && Found(v, p, name) && v.nodes[p].usize > 64
    ensures var f := Target(v, p, name); var v1 := CutDentry(v, p, Lookup(v, p, name));
      Inv(v1) && Live(v1, f) && TablesThere(v1, f)
  {
    var f, v1 := RmSteps(v, p, name);
    RmInRange(v, p, name);
    CutDentryKeeps(v, p, Lookup(v, p, name));
  }

  // ---------- mkfs and open ----------

  /** The map of a fresh volume: only the reserved blocks below k are marked. */
  function ReservedMap(k: nat): (m: BlockMap)
    requires k <= RESERVED_BLOCKS
  {
    if k == 0 then seq<bv8>(NUM_BLOCKS / 8, _ => 0) else SetBit(ReservedMap(k - 1), k - 1)
  }

  lemma {:induction false} ReservedMapBits(k: nat, b: nat)
    requires k <= RESERVED_BLOCKS && b < NUM_BLOCKS
    ensures Bit(ReservedMap(k), b) <==> b < k
  {
    if k == 0 {
      assert ReservedMap(0)[b / 8] == 0;
    } else {
      ReservedMapBits(k - 1, b);
      OneBit(ReservedMap(k - 1), k - 1, b);
    }
  }

  function EmptyInodeMap(): InodeMap {
    seq<bv8>(NUM_INODES, _ => 0)
  }

  /** A fresh volume; d, nodes and buf are whatever the card and the buffer held before. */
  function Mkfs(d: Disk, nodes: InodeTable, buf: DirBlock): Volume {
    Volume(WriteDir(d, RESERVED_BLOCKS, DotEntries(buf, 0, 0)),
           SetBit(ReservedMap(RESERVED_BLOCKS), RESERVED_BLOCKS),
           SetBit(EmptyInodeMap(), 0),
           nodes[0 := FreshInode(0, RESERVED_BLOCKS, DIR, 0, 64)])
  }

  lemma MkfsMaps(d: Disk, nodes: InodeTable, buf: DirBlock)
    ensures var v := Mkfs(d, nodes, buf);
      (forall j: nat :: Live(v, j) <==> j == 0) && (forall b: nat :: Free(v, b) <==> RESERVED_BLOCKS < b < NUM_BLOCKS)
  {
    var v := Mkfs(d, nodes, buf);
    forall b: nat | b < NUM_BLOCKS
      ensures Free(v, b) <==> RESERVED_BLOCKS < b
    {
      ReservedMapBits(RESERVED_BLOCKS, b);
      OneBit(ReservedMap(RESERVED_BLOCKS), RESERVED_BLOCKS, b);
    }
    forall j: nat | j < NUM_INODES
      ensures Live(v, j) <==> j == 0
    {
      OneBit(EmptyInodeMap(), 0, j);
      assert EmptyInodeMap()[j / 8] == 0;
    }
  }

  /** A fresh volume has one inode, the root, whose directory holds only "." and "..", both for itself; its block
      is the only one taken, and nothing is lost. */
  lemma MkfsOk(d: Disk, nodes: InodeTable, buf: DirBlock)
    ensures FsOk(Mkfs(d, nodes, buf)) && NoLeak(Mkfs(d, nodes, buf)) && RootOnly(Mkfs(d, nodes, buf))
    ensures DotDir(Mkfs(d, nodes, buf), 0, 0)
  {
    hide Mkfs;
    MkfsMaps(d, nodes, buf);
    MkfsParts(d, nodes, buf);
    RootOnlyInv(Mkfs(d, nodes, buf));
    RootOnlyDirs(Mkfs(d, nodes, buf), d, buf);
    RootEntries(Mkfs(d, nodes, buf), d, buf);
  }

  /** Only the root is live, and only its block is marked beyond the reserved ones. */
  ghost predicate RootOnly(v: Volume) {
    && (forall j: nat :: Live(v, j) <==> j == 0) && (forall b: nat :: Free(v, b) <==> RESERVED_BLOCKS < b < NUM_BLOCKS)
    && v.nodes[0] == FreshInode(0, RESERVED_BLOCKS, DIR, 0, 64)
  }

  lemma RootOnlyInv(v: Volume)
    requires RootOnly(v)
    ensures Inv(v) && NoLeak(v)
  {
    forall i: nat, s, b: nat | Owns(v, i, s, b)
      ensures i == 0 && s == Direct(0) && b == RESERVED_BLOCKS
    {
    }
    assert Owns(v, 0, Direct(0), RESERVED_BLOCKS);
  }

  lemma RootOnlyDirs(v: Volume, d: Disk, buf: DirBlock)
    requires RootOnly(v) && v.d == WriteDir(d, RESERVED_BLOCKS, DotEntries(buf, 0, 0))
    ensures DirsOk(v) && LinksOk(v)
  {
    RootEntries(v, d, buf);
    RootNames(v, Dentries(v, 0));
  }

  lemma RootEntries(v: Volume, d: Disk, buf: DirBlock)
    requires RootOnly(v) && v.d == WriteDir(d, RESERVED_BLOCKS, DotEntries(buf, 0, 0))
    ensures DirShape(v, 0) && Inos(Dentries(v, 0)) == [0, 0] && DotDir(v, 0, 0)
  {
    hide WriteDir, ReadDir, NamesUpTo, Inos;
    DirRoundTrip(d, RESERVED_BLOCKS, DotEntries(buf, 0, 0));
    DotNames(buf, 0, 0);
  }

  lemma RootNames(v: Volume, es: seq<Dentry>)
    requires RootOnly(v) && DirShape(v, 0) && Dentries(v, 0) == es && Inos(es) == [0, 0]
    ensures DirsOk(v) && LinksOk(v)
  {
    hide Dentries, DirShape, NamesUpTo;
    assert es[0].ino == Inos(es)[0] && es[1].ino == Inos(es)[1];
  }

  lemma MkfsParts(d: Disk, nodes: InodeTable, buf: DirBlock)
    ensures Mkfs(d, nodes, buf).nodes[0] == FreshInode(0, RESERVED_BLOCKS, DIR, 0, 64)
    ensures Mkfs(d, nodes, buf).d == WriteDir(d, RESERVED_BLOCKS, DotEntries(buf, 0, 0))
  {
  }

  lemma FirstDataBlock()
    ensures FirstClear(ReservedMap(RESERVED_BLOCKS), 0) == RESERVED_BLOCKS
  {
    var m := ReservedMap(RESERVED_BLOCKS);
    ReservedMapBits(RESERVED_BLOCKS, RESERVED_BLOCKS);
    FirstClearIsLeast(m, 0, RESERVED_BLOCKS);
    ReservedMapBits(RESERVED_BLOCKS, FirstClear(m, 0));
  }

  /** Clears the block map and marks the blocks of the superblock, the maps and the inodes. */
  method MarkReserved(fs: FileSys)
    modifies fs`blockMap
    ensures fs.blockMap == ReservedMap(RESERVED_BLOCKS)
  {
    hide HasBit, Raise, SetBit;
    fs.blockMap := seq<bv8>(NUM_BLOCKS / 8, _ => 0);
    for i := 0 to RESERVED_BLOCKS
      invariant fs.blockMap == ReservedMap(i)
    {
      BitOf(fs.blockMap, i / 8, i % 8);
      fs.blockMap := fs.blockMap[i / 8 := Raise(fs.blockMap[i / 8], i % 8)];
    }
  }

  method DoMkfs(fs: FileSys, buf: DirBlock)
    modifies fs
    ensures fs.formatted && fs.cwd == 0 && fs.fds == old(fs.fds)
    ensures fs.V() == Mkfs(old(fs.d), old(fs.nodes), buf)
    ensures FsOk(fs.V()) && NoLeak(fs.V())
  {
    hide FsOk, NoLeak, RootOnly, DotDir, WriteDir, FirstClear, DotEntries, EmptyInodeMap, HasBit, Raise, SetBit;
    MkfsOk(fs.d, fs.nodes, buf);
    FirstDataBlock();
    MarkReserved(fs);
    fs.inodeMap := EmptyInodeMap();
    BitOf(fs.inodeMap, 0, 0);
    fs.inodeMap := fs.inodeMap[0 := Raise(fs.inodeMap[0], 0)];
    ReservedMapBits(RESERVED_BLOCKS, RESERVED_BLOCKS);
    hide ReservedMap;
    var b := fs.AllocDataBlock();
    fs.nodes := fs.nodes[0 := FreshInode(0, b, DIR, 0, 64)];
    fs.d := WriteDir(fs.d, b, DotEntries(buf, 0, 0));
    fs.formatted, fs.cwd := true, 0;
  }

  datatype OpenResult = NoFileSystem | NoSuchFile | Denied | Opened(fd: nat)

  /** Opens what the path leads to in the first free slot of the table of open files. When it leads nowhere, the
      current directory is not put back. */
  method DoFopen(fs: FileSys, path: seq<byte>, access: nat) returns (r: OpenResult)
    requires fs.formatted ==> DirsOk(fs.V()) && Walkable(fs.V(), fs.cwd, path)
    requires exists k :: 0 <= k < |fs.fds| && fs.fds[k].ino == 0
    modifies fs`fds, fs`cwd
    ensures !r.Opened? ==> fs.fds == old(fs.fds)
    ensures r.NoFileSystem? <==> !fs.formatted
    ensures fs.cwd == if fs.formatted then AfterSearch(fs.V(), old(fs.cwd), path) else old(fs.cwd)
    ensures fs.formatted ==> (r.NoSuchFile? <==> !FindDir(fs.V(), old(fs.cwd), path).found)
    ensures fs.formatted && FindDir(fs.V(), old(fs.cwd), path).found ==>
      var f := FindDir(fs.V(), old(fs.cwd), path).at;
      Live(fs.V(), f) && (r.Opened? <==> fs.nodes[f].access == RW_A || fs.nodes[f].access == access)
    ensures r.Opened? ==>
      r.fd < |old(fs.fds)| && old(fs.fds[r.fd].ino) == 0 && (forall k :: 0 <= k < r.fd ==> old(fs.fds[k].ino) != 0) &&
      fs.formatted && fs.fds == old(fs.fds)[r.fd := Fd(FindDir(fs.V(), old(fs.cwd), path).at, access, 0, 0)]
  {
    hide Walkable, FindDir, SearchPath, Dentries;
    if !fs.formatted {
      return NoFileSystem;
    }
    FindDirEnds(fs.V(), fs.cwd, path);
    var father := fs.cwd;
    var found, _ := FindPath(fs, path);
    if !found {
      return NoSuchFile;
    }
    var f := fs.cwd;
    fs.cwd := father;
    if fs.nodes[f].access != RW_A && fs.nodes[f].access != access {
      return Denied;
    }
    var i := 0;
    while i < |fs.fds| && fs.fds[i].ino != 0
      invariant i <= |fs.fds| && forall j :: 0 <= j < i ==> fs.fds[j].ino != 0
    {
      i := i + 1;
    }
    assert fs.nodes[f].ino == f;
    fs.fds := fs.fds[i := Fd(fs.nodes[f].ino, access, 0, 0)];
    return Opened(i);
  }

  // ---------- Every sequence of calls ----------

  datatype Call =
    | Create(name: seq<byte>)
    | MakeDir(name: seq<byte>)
    | Link(src: seq<byte>, dst: seq<byte>)
    | Remove(name: seq<byte>)
    | Write(ino: nat, p: nat, data: seq<byte>)
    | Open(path: seq<byte>)
    | ChangeDir(path: seq<byte>)

  datatype System = System(v: Volume, cwd: nat)

  /** What each call asks of its caller. */
  ghost predicate Admits(s: System, c: Call) {
    match c
    case Create(name) => HasRoom(s.v, s.cwd) && IsName(name)
    case MakeDir(name) => HasRoom(s.v, s.cwd) && IsName(name)
    case Link(src, dst) => LnReady(s.v, s.cwd, src, dst)
    case Remove(name) => RmReady(s.v, s.cwd, name)
    case Write(ino, p, data) => IsFile(s.v, ino) && p + |data| <= MAX_FILE && Roomy(s.v, ino, Touched(p, |data|))
    case Open(path) => Walkable(s.v, s.cwd, path)
    case ChangeDir(path) => path != [] ==> Walkable(s.v, s.cwd, path)
  }

  /** The effect of one call; a call that is not admitted is not made. */
  ghost function Apply(s: System, c: Call): System
    requires FsOk(s.v)
  {
    if !Admits(s, c) then s
    else
      match c
      case Create(name) => (TouchOk(s.v, s.cwd, name); s.(v := Touch(s.v, s.cwd, name)))
      case MakeDir(name) => (MkdirOk(s.v, s.cwd, name); s.(v := Mkdir(s.v, s.cwd, name)))
      case Link(src, dst) => (LnOk(s.v, s.cwd, src, dst); System(Ln(s.v, s.cwd, src, dst), AfterSearch(s.v, s.cwd, src)))
      case Remove(name) => (RmOk(s.v, s.cwd, name); s.(v := Rm(s.v, s.cwd, name)))
      case Write(ino, p, data) => s.(v := Written(s.v, ino, p, data))
      case Open(path) => s.(cwd := AfterSearch(s.v, s.cwd, path))
      case ChangeDir(path) => s.(cwd := AfterCd(s.v, s.cwd, path))
  }

  /** Does a removal give back everything? */
  ghost predicate Tidy(s: System, c: Call) {
    c.Remove? && RmReady(s.v, s.cwd, c.name) && LastLink(s.v, s.cwd, c.name) ==> SizeShowsTables(s.v, Target(s.v, s.cwd, c.name))
  }

  /** What a call loses: with the last name of a file, the tables that its size does not show. */
  ghost function CallLoses(s: System, c: Call): set<nat> {
    if c.Remove? && RmReady(s.v, s.cwd, c.name) then LostBy(s.v, s.cwd, c.name) else {}
  }

  /** Each call keeps the invariant; only removals lose blocks, and exactly the untidy ones. */
  lemma ApplyKeeps(s: System, c: Call)
    requires FsOk(s.v)
    ensures FsOk(Apply(s, c).v)
    ensures Lost(Apply(s, c).v) == Lost(s.v) + CallLoses(s, c) && Lost(s.v) !! CallLoses(s, c)
    ensures CallLoses(s, c) == {} <==> Tidy(s, c)
  {
    hide FsOk, Lost, Touch, Mkdir, Ln, Rm, Written, Roomy, Touched, LostBy, SizeShowsTables, LastLink, FindDir, Walkable;
    if Admits(s, c) {
      match c
      case Create(name) => TouchOk(s.v, s.cwd, name);
      case MakeDir(name) => MkdirOk(s.v, s.cwd, name);
      case Link(src, dst) => LnOk(s.v, s.cwd, src, dst);
      case Remove(name) => RmOk(s.v, s.cwd, name);
      case Write(ino, p, data) => WrittenOk(s.v, ino, p, data);
      case Open(path) =>
      case ChangeDir(path) =>
    }
  }

  ghost function Run(s: System, cs: seq<Call>): System
    requires FsOk(s.v)
    decreases |cs|
  {
    if cs == [] then s else (ApplyKeeps(s, cs[0]); Run(Apply(s, cs[0]), cs[1..]))
  }

  /** Every removal of the run is tidy. */
  ghost predicate TidyRun(s: System, cs: seq<Call>)
    requires FsOk(s.v)
    decreases |cs|
  {
    cs == [] || (Tidy(s, cs[0]) && (ApplyKeeps(s, cs[0]); TidyRun(Apply(s, cs[0]), cs[1..])))
  }

  /** Every run keeps the invariant. What is lost stays lost, and a run loses nothing exactly when all its
      removals are tidy. */
  lemma {:induction false} RunKeeps(s: System, cs: seq<Call>)
    requires FsOk(s.v)
    ensures FsOk(Run(s, cs).v)
    ensures Lost(s.v) <= Lost(Run(s, cs).v)
    ensures Lost(Run(s, cs).v) == Lost(s.v) <==> TidyRun(s, cs)
    decreases |cs|
  {
    hide FsOk, Lost, Apply, Tidy, CallLoses;
    if cs != [] {
      ApplyKeeps(s, cs[0]);
      RunKeeps(Apply(s, cs[0]), cs[1..]);
      if !Tidy(s, cs[0]) {
        var b :| b in CallLoses(s, cs[0]);
        assert b in Lost(Run(s, cs).v) && b !in Lost(s.v);
      }
    }
  }

  /** In every state that any calls reach from a fresh volume, no block has two owners, every owned block
      is marked, and every link count is the number of names.  Exactly the owned and the reserved blocks are
      marked if and only if all removals were tidy. */
  lemma ReachableOk(d: Disk, nodes: InodeTable, buf: DirBlock, cs: seq<Call>)
    ensures FsOk(Mkfs(d, nodes, buf))
    ensures var s := System(Mkfs(d, nodes, buf), 0);
      FsOk(Run(s, cs).v) && (NoLeak(Run(s, cs).v) <==> TidyRun(s, cs))
  {
    hide Mkfs, NoLeak;
    MkfsOk(d, nodes, buf);
    NoneLost(Mkfs(d, nodes, buf));
    RunKeeps(System(Mkfs(d, nodes, buf), 0), cs);
    NoneLost(Run(System(Mkfs(d, nodes, buf), 0), cs).v);
  }

  /** mkdir a, then open a/x: there is no a/x, and the current directory is now a. */
  lemma OpenLosesDir(d: Disk, nodes: InodeTable, buf: DirBlock)
    ensures FsOk(Mkfs(d, nodes, buf))
    ensures var s := System(Mkfs(d, nodes, buf), 0); Run(s, [MakeDir([97]), Open([97, SLASH, 120])]).cwd != s.cwd
  {
    hide Mkfs, Lost, Mkdir, Walkable, AfterSearch, Inv, DirsOk, LinksOk, Found, LeadsTo, DotDir, Ptr, Names, Dentries;
    var v := Mkfs(d, nodes, buf);
    MkfsOk(d, nodes, buf);
    assert !Live(v, 1) && Free(v, RESERVED_BLOCKS + 1);
    DotFound(v, 0, 0, [97]);
    MkdirOk(v, 0, [97]);
    var v1, i := Mkdir(v, 0, [97]), NextInode(v);
    DownAndLost(v1, 0, [97], i, [120]);
    var s, cs := System(v, 0), [MakeDir([97]), Open([97, SLASH, 120])];
    assert Apply(s, cs[0]) == System(v1, 0);
    assert [97] + [SLASH] + [120] == [97, SLASH, 120];
    assert cs[1..] == [Open([97, SLASH, 120])] && cs[1..][1..] == [];
    assert Apply(System(v1, 0), cs[1]) == System(v1, i);
    assert Run(s, cs) == Run(System(v1, 0), cs[1..]) == Run(System(v1, i), []);
  }
}
