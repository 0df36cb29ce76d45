/** What every inode shows besides its blocks: who may open it, and how many names a directory holds. */
module FsOpen {
  import opened FsLayout
  import opened FsVolume
  import opened FsContent
  import opened FsDirectory
  import opened FsNames
  import opened FileSystem
  import opened FsRemove
  import opened FsPath
  import opened FsCalls

  /** Every inode may be opened for reading and writing. */
  ghost predicate OpenToAll(v: Volume) {
    forall i: nat :: Live(v, i) ==> v.nodes[i].access == 3
  }

  /** Every directory counts the names that it holds besides the two dots. */
  ghost predicate Counts(v: Volume) {
    forall i: nat :: IsDir(v, i) ==> v.nodes[i].usize == 64 + 32 * v.nodes[i].nlinks
  }

  /** v1 shows what v does: new inodes are open to all, and the counts of directories are right if they were. */
  ghost predicate StillShows(v: Volume, v1: Volume) {
    (OpenToAll(v) ==> OpenToAll(v1)) && (Counts(v) ==> Counts(v1))
  }

  // ---------- Every call keeps it ----------

  lemma AddDentryShows(v: Volume, p: nat, mode: nat, ino: nat, name: seq<byte>)
    requires IsDir(v, p) && DirShape(v, p) && v.nodes[p].usize < BLOCK_SIZE && IsName(name)
    requires mode < 0x1_0000_0000 && ino < NUM_INODES
    ensures StillShows(v, AddDentry(v, p, mode, ino, name))
  {
    hide ReadDir, WriteDir, SetName;
  }

  lemma CutDentryShows(v: Volume, p: nat, k: nat)
    requires IsDir(v, p) && DirShape(v, p) && k < v.nodes[p].usize / DENTRY_SIZE && v.nodes[p].usize > 64
    ensures StillShows(v, CutDentry(v, p, k))
  {
    hide ReadDir, WriteDir, ShiftUp;
  }

  lemma NewInodeShows(v: Volume, i: nat, b: nat, mode: nat, nlinks: nat, usize: nat)
    requires i < NUM_INODES && b < NUM_BLOCKS && (mode == DIR ==> usize == 64 + 32 * nlinks)
    ensures StillShows(v, NewInode(v, i, b, mode, nlinks, usize))
    ensures forall j: nat :: Live(v, j) ==> Live(NewInode(v, i, b, mode, nlinks, usize), j)
  {
    forall j: nat | j < NUM_INODES
      ensures Bit(SetBit(v.inodeMap, i), j) <==> j == i || Bit(v.inodeMap, j)
    {
      OneBit(v.inodeMap, i, j);
    }
  }

  lemma RelinkShows(v: Volume, f: nat, n: nat)
    requires IsFile(v, f)
    ensures StillShows(v, Relink(v, f, n))
  {
  }

  lemma ReleaseShows(v: Volume, f: nat)
    requires f < NUM_INODES && v.nodes[f].lev1[0] < NUM_BLOCKS && v.nodes[f].lev1[1] < NUM_BLOCKS
    ensures StillShows(v, Release(v, f))
  {
    forall j: nat | j < NUM_INODES
      ensures Bit(ClearBit(v.inodeMap, f), j) ==> Bit(v.inodeMap, j)
    {
      OneBit(v.inodeMap, f, j);
    }
  }

  lemma MkfsShows(d: Disk, nodes: InodeTable, buf: DirBlock)
    ensures OpenToAll(Mkfs(d, nodes, buf)) && Counts(Mkfs(d, nodes, buf))
  {
    hide Mkfs;
    MkfsMaps(d, nodes, buf);
    MkfsParts(d, nodes, buf);
  }

  lemma TouchShows(v: Volume, p: nat, name: seq<byte>)
    requires FsOk(v) && HasRoom(v, p) && IsName(name)
    ensures NextInode(v) < NUM_INODES && NextInode(v) != p && StillShows(v, Touch(v, p, name))
  {
    hide OpenToAll, Counts, Inv, DirsOk, LinksOk, Found, NewInode, AddDentry;
    RoomGives(v, p);
    var i, b := NextInode(v), NextBlock(v);
    NewInodeShows(v, i, b, FILE, 1, 0);
    NewInodeNode(v, i, b, FILE, 1, 0);
    if !Found(v, p, name) {
      AddDentryShows(NewInode(v, i, b, FILE, 1, 0), p, FILE, i, name);
    }
  }

  lemma MkdirShows(v: Volume, p: nat, name: seq<byte>)
    requires FsOk(v) && HasRoom(v, p) && IsName(name)
    ensures NextInode(v) < NUM_INODES && NextInode(v) != p && v.nodes[p].ino == p && StillShows(v, Mkdir(v, p, name))
  {
    hide OpenToAll, Counts, Inv, LinksOk, Found, NewInode, AddDentry;
    RoomGives(v, p);
    var i, b := NextInode(v), NextBlock(v);
    NewInodeShows(v, i, b, DIR, 0, 64);
    NewInodeNode(v, i, b, DIR, 0, 64);
    if !Found(v, p, name) {
      var v0 := NewDir(v, i, b, p, ReadDir(v.d, v.nodes[p].direct[0]));
      SameShows(NewInode(v, i, b, DIR, 0, 64), v0);
      AddDentryShows(v0, p, DIR, i, name);
    }
  }

  lemma SameShows(v: Volume, v1: Volume)
    requires v1.inodeMap == v.inodeMap && v1.nodes == v.nodes
    ensures StillShows(v, v1)
  {
  }

  /** A link to a file keeps the counts; a link to a directory makes that directory count one name too many. */
  lemma LinkToShows(v: Volume, p: nat, f: nat, dst: seq<byte>)
    requires IsDir(v, p) && DirShape(v, p) && v.nodes[p].usize < BLOCK_SIZE && IsName(dst)
    requires Live(v, f) && (v.nodes[f].mode == DIR || v.nodes[f].mode == FILE)
    ensures OpenToAll(v) ==> OpenToAll(LinkTo(v, p, f, dst))
    ensures Counts(v) ==> (Counts(LinkTo(v, p, f, dst)) <==> IsFile(v, f))
  {
    hide AddDentry;
    AddDentryShows(v, p, FILE, f, dst);
    var v1 := AddDentry(v, p, FILE, f, dst);
    AddDentryNode(v, p, FILE, f, dst);
    var n := v1.nodes[f].nlinks;
    assert U16(n + 1) != n;
    var v2 := LinkTo(v, p, f, dst);
    if IsFile(v, f) {
      RelinkShows(v1, f, U16(n + 1));
    } else if Counts(v) {
      assert IsDir(v1, f) && v1.nodes[f].usize == 64 + 32 * n;
      assert IsDir(v2, f) && v2.nodes[f].usize != 64 + 32 * v2.nodes[f].nlinks;
    }
  }

  lemma AddDentryNode(v: Volume, p: nat, mode: nat, ino: nat, name: seq<byte>)
    requires DirShape(v, p) && v.nodes[p].usize < BLOCK_SIZE && IsName(name)
    requires mode < 0x1_0000_0000 && ino < NUM_INODES
    ensures AddDentry(v, p, mode, ino, name).inodeMap == v.inodeMap
    ensures forall i :: 0 <= i < NUM_INODES ==> AddDentry(v, p, mode, ino, name).nodes[i].mode == v.nodes[i].mode
  {
    hide ReadDir, WriteDir, SetName;
  }

  lemma RmShows(v: Volume, p: nat, name: seq<byte>)
    requires FsOk(v) && RmReady(v, p, name)
    ensures Found(v, p, name) ==> v.nodes[p].usize > 64 && Target(v, p, name) < NUM_INODES
    ensures Found(v, p, name) ==> forall t :: 0 <= t < NUM_LEV1 ==> v.nodes[Target(v, p, name)].lev1[t] < NUM_BLOCKS
    ensures StillShows(v, Rm(v, p, name))
  {
    hide Found, Target, Dentries, CutDentry, Inv, DirsOk, LinksOk, Release, Relink, StillShows, DirShape;
    if Found(v, p, name) {
      RmInRange(v, p, name);
      CutOne(v, p, Lookup(v, p, name), Target(v, p, name));
    } else {
      SameStillShows(v);
    }
  }

  lemma SameStillShows(v: Volume)
    ensures StillShows(v, v)
  {
  }

  /** An entry goes, and then the inode or one of its links. */
  lemma CutOne(v: Volume, p: nat, k: nat, f: nat)
    requires IsDir(v, p) && DirShape(v, p) && k < v.nodes[p].usize / DENTRY_SIZE && v.nodes[p].usize > 64 && IsFile(v, f)
    requires forall t :: 0 <= t < NUM_LEV1 ==> v.nodes[f].lev1[t] < NUM_BLOCKS
    ensures var v1 := CutDentry(v, p, k);
      StillShows(v, Release(v1, f)) && StillShows(v, Relink(v1, f, U16(v1.nodes[f].nlinks - 1)))
  {
    hide OpenToAll, Counts, CutDentry, Release, Relink;
    CutDentryShows(v, p, k);
    CutDentryModes(v, p, k);
    var v1 := CutDentry(v, p, k);
    RelinkShows(v1, f, U16(v1.nodes[f].nlinks - 1));
    ReleaseShows(v1, f);
  }

  lemma CutDentryModes(v: Volume, p: nat, k: nat)
    requires DirShape(v, p) && k < v.nodes[p].usize / DENTRY_SIZE && v.nodes[p].usize > 64
    ensures CutDentry(v, p, k).inodeMap == v.inodeMap
    ensures forall i :: 0 <= i < NUM_INODES ==> CutDentry(v, p, k).nodes[i].mode == v.nodes[i].mode
  {
    hide ReadDir, WriteDir, ShiftUp;
  }

  lemma WrittenShows(v: Volume, i: nat, p: nat, data: seq<byte>)
    requires IsFile(v, i) && p + |data| <= MAX_FILE && Roomy(v, i, Touched(p, |data|))
    ensures StillShows(v, Written(v, i, p, data))
  {
    hide Written, Touched;
    WrittenSplices(v, i, p, data);
  }

  // ---------- Every run ----------

  /** A link whose path leads to a directory. */
  predicate LinksDir(s: System, c: Call) {
    c.Link? && LnReady(s.v, s.cwd, c.src, c.dst) &&
    FindDir(s.v, s.cwd, c.src).found && IsDir(s.v, FindDir(s.v, s.cwd, c.src).at)
  }

  /** Every call keeps all inodes open to all, and it keeps the counts of the directories right if and only if it is
      not a link to a directory. */
  lemma ApplyShows(s: System, c: Call)
    requires FsOk(s.v)
    ensures OpenToAll(s.v) ==> OpenToAll(Apply(s, c).v)
    ensures Counts(s.v) ==> (Counts(Apply(s, c).v) <==> !LinksDir(s, c))
  {
    hide OpenToAll, Counts, Lost, Touch, Mkdir, LinkTo, Rm, Written, Roomy, Touched, FindDir, Walkable, Inv, LinksOk, HasRoom;
    if Admits(s, c) {
      match c {
        case Create(name) => TouchShows(s.v, s.cwd, name);
        case MakeDir(name) => MkdirShows(s.v, s.cwd, name);
        case Link(src, dst) =>
          FindDirEnds(s.v, s.cwd, src);
          if FindDir(s.v, s.cwd, src).found {
            LinkToShows(s.v, s.cwd, FindDir(s.v, s.cwd, src).at, dst);
          }
        case Remove(name) => RmShows(s.v, s.cwd, name);
        case Write(ino, p, data) => WrittenShows(s.v, ino, p, data);
        case Open(path) =>
        case ChangeDir(path) =>
      }
    }
  }

  ghost predicate NoDirLinks(s: System, cs: seq<Call>)
    requires FsOk(s.v)
    decreases |cs|
  {
    cs == [] || (!LinksDir(s, cs[0]) && (ApplyKeeps(s, cs[0]); NoDirLinks(Apply(s, cs[0]), cs[1..])))
  }

  lemma {:induction false} RunShows(s: System, cs: seq<Call>)
    requires FsOk(s.v)
    ensures FsOk(Run(s, cs).v)
    ensures OpenToAll(s.v) ==> OpenToAll(Run(s, cs).v)
    ensures Counts(s.v) && NoDirLinks(s, cs) ==> Counts(Run(s, cs).v)
    decreases |cs|
  {
    hide FsOk, OpenToAll, Counts, Apply, LinksDir;
    if cs != [] {
      ApplyKeeps(s, cs[0]);
      ApplyShows(s, cs[0]);
      RunShows(Apply(s, cs[0]), cs[1..]);
    }
  }

  /** In every state that calls reach from a fresh volume every inode is open to all; and as long as no link was made
      to a directory, every directory counts just its names. */
  lemma ReachableShows(d: Disk, nodes: InodeTable, buf: DirBlock, cs: seq<Call>)
    ensures FsOk(Mkfs(d, nodes, buf))
    ensures var s := System(Mkfs(d, nodes, buf), 0);
      FsOk(Run(s, cs).v) && OpenToAll(Run(s, cs).v) &&
      (NoDirLinks(s, cs) ==> forall i: nat :: IsDir(Run(s, cs).v, i) ==>
         DirShape(Run(s, cs).v, i) && |Dentries(Run(s, cs).v, i)| == Run(s, cs).v.nodes[i].nlinks + 2)
  {
    hide Mkfs, Inv, LinksOk, Apply, ReadDir;
    MkfsOk(d, nodes, buf);
    MkfsShows(d, nodes, buf);
    RunShows(System(Mkfs(d, nodes, buf), 0), cs);
  }

  /** mkdir a, then ln a b: a holds no name besides its dots and counts one. */
  lemma DirLinkMiscounts(d: Disk, nodes: InodeTable, buf: DirBlock)
    ensures FsOk(Mkfs(d, nodes, buf))
    ensures !Counts(Run(System(Mkfs(d, nodes, buf), 0), [MakeDir([97]), Link([97], [98])]).v)
  {
    hide Mkfs, Counts, OpenToAll, FsOk, Apply, LinksDir;
    MkfsOk(d, nodes, buf);
    var s, cs := System(Mkfs(d, nodes, buf), 0), [MakeDir([97]), Link([97], [98])];
    MkfsShows(d, nodes, buf);
    ApplyKeeps(s, cs[0]);
    ApplyShows(s, cs[0]);
    NoLinksDir(s, cs[0]);
    MkdirThenLink(d, nodes, buf);
    var s1 := Apply(s, cs[0]);
    ApplyKeeps(s1, cs[1]);
    ApplyShows(s1, cs[1]);
    assert cs[1..] == [cs[1]] && cs[1..][1..] == [];
    assert Run(s, cs) == Run(s1, cs[1..]) == Run(Apply(s1, cs[1]), []);
  }

  lemma NoLinksDir(s: System, c: Call)
    requires !c.Link?
    ensures !LinksDir(s, c)
  {
  }

  lemma MkdirThenLink(d: Disk, nodes: InodeTable, buf: DirBlock)
    requires FsOk(Mkfs(d, nodes, buf))
    ensures LinksDir(Apply(System(Mkfs(d, nodes, buf), 0), MakeDir([97])), Link([97], [98]))
  {
    hide Mkfs, Lost, Mkdir, Inv, DirsOk, LinksOk, Found, LeadsTo, DotDir, Ptr, Names, Dentries, FindDir, Walkable, EntryAdded;
    var v := Mkfs(d, nodes, buf);
    MkfsOk(d, nodes, buf);
    MkfsParts(d, nodes, buf);
    assert !Live(v, 1) && Free(v, RESERVED_BLOCKS + 1);
    DotFound(v, 0, 0, [97]);
    MkdirOk(v, 0, [97]);
    var v1, i := Mkdir(v, 0, [97]), NextInode(v);
    SizeAdded(v, v1, 0, i, [97]);
    LeadsThere(v1, 0, [97], i);
  }

  lemma SizeAdded(v: Volume, v1: Volume, p: nat, i: nat, name: seq<byte>)
    requires DirShape(v, p) && IsName(name) && EntryAdded(v, v1, p, DIR, i, name)
    ensures IsDir(v1, p) && DirShape(v1, p) && v1.nodes[p].usize == v.nodes[p].usize + 32
  {
    hide ReadDir;
    assert |Dentries(v1, p)| == |Dentries(v, p)| + 1;
  }

  // ---------- Opening ----------

  /** On a volume whose inodes are open to all, opening a path succeeds with every access if and only if the path
      leads to something. */
  method OpenFound(fs: FileSys, path: seq<byte>, access: nat) returns (r: OpenResult)
    requires fs.formatted && DirsOk(fs.V()) && OpenToAll(fs.V()) && Walkable(fs.V(), fs.cwd, path)
    requires exists k :: 0 <= k < |fs.fds| && fs.fds[k].ino == 0
    modifies fs`fds, fs`cwd
    ensures r.Opened? <==> FindDir(fs.V(), old(fs.cwd), path).found
    ensures r.Opened? || r.NoSuchFile?
  {
    hide FindDir, Walkable, DirsOk;
    r := DoFopen(fs, path, access);
  }

  /** touch of a new name and open of it, with any access: the lowest free descriptor stands at the front of an empty file
      whose inode was not in use. */
  method TouchAndOpen(fs: FileSys, name: seq<byte>, access: nat) returns (r: OpenResult)
    requires fs.formatted && FsOk(fs.V()) && OpenToAll(fs.V()) && HasRoom(fs.V(), fs.cwd)
    requires IsName(name) && IsPart(name) && |name| < HEAD_SIZE && !Found(fs.V(), fs.cwd, name)
    requires exists k :: 0 <= k < |fs.fds| && fs.fds[k].ino == 0
    modifies fs
    ensures FsOk(fs.V()) && fs.cwd == old(fs.cwd)
    ensures r.Opened? && r.fd < |old(fs.fds)| == |fs.fds| && old(fs.fds)[r.fd].ino == 0
    ensures forall k :: 0 <= k < r.fd ==> old(fs.fds)[k].ino != 0
    ensures var f := fs.fds[r.fd];
      f.access == access && f.rPtr == 0 && f.wPtr == 0 && !old(Live(fs.V(), f.ino)) &&
      IsFile(fs.V(), f.ino) && fs.nodes[f.ino].usize == 0 && LeadsTo(fs.V(), fs.cwd, name, f.ino)
    ensures forall k :: 0 <= k < |fs.fds| && k != r.fd ==> fs.fds[k] == old(fs.fds)[k]
  {
    hide Inv, LinksOk, DirsOk, Found, HasRoom, Touch, OpenToAll, EntryAdded, LeadsTo, Walkable, FindDir, Lost, Ptr, Names;
    ghost var v := fs.V();
    RoomGives(v, fs.cwd);
    TouchOk(v, fs.cwd, name);
    TouchShows(v, fs.cwd, name);
    ghost var k :| 0 <= k < |fs.fds| && fs.fds[k].ino == 0;
    DoTouch(fs, name);
    AddedDir(v, fs.V(), fs.cwd, FILE, NextInode(v), name);
    assert fs.fds[k].ino == 0;
    LeadsThere(fs.V(), fs.cwd, name, NextInode(v));
    AccessOf(fs.V(), NextInode(v));
    r := DoFopen(fs, name, access);
  }

  lemma AccessOf(v: Volume, i: nat)
    requires OpenToAll(v) && Live(v, i)
    ensures v.nodes[i].access == 3
  {
  }

  lemma AddedDir(v: Volume, v1: Volume, p: nat, mode: nat, ino: nat, name: seq<byte>)
    requires IsName(name) && EntryAdded(v, v1, p, mode, ino, name)
    ensures IsDir(v1, p)
  {
  }

  /** A path of one name that the current directory holds is found. */
  lemma LeadsThere(v: Volume, p: nat, name: seq<byte>, i: nat)
    requires IsDir(v, p) && IsName(name) && IsPart(name) && |name| < HEAD_SIZE && LeadsTo(v, p, name, i)
    ensures Walkable(v, p, name) && FindDir(v, p, name) == Search(true, i)
  {
    hide Dentries, Found;
    HeadTail(name, []);
  }
}
