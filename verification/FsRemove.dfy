/** Removing names, giving blocks back, and what a file's whole life leaves behind. */
module FsRemove {
  import opened FsLayout
  import opened FsVolume
  import opened FsDirectory
  import opened FsNames

  const ONE_TABLE := 4235264   // DIRECT_BYTES + TABLE_BYTES

  function ClearEach(m: BlockMap, ps: seq<nat>): BlockMap
    decreases |ps|
  {
    if ps == [] then m
    else ClearEach(if 0 < ps[0] < NUM_BLOCKS then ClearBit(m, ps[0]) else m, ps[1..])
  }

  lemma {:induction false} ClearEachBits(m: BlockMap, ps: seq<nat>, c: nat)
    requires c < NUM_BLOCKS
    ensures Bit(ClearEach(m, ps), c) <==> Bit(m, c) && (c == 0 || c !in ps)
    decreases |ps|
  {
    if ps != [] {
      var m1: BlockMap := if 0 < ps[0] < NUM_BLOCKS then ClearBit(m, ps[0]) else m;
      ClearEachBits(m1, ps[1..], c);
      if 0 < ps[0] < NUM_BLOCKS {
        OneBit(m, ps[0], c);
      }
      assert c in ps <==> c == ps[0] || c in ps[1..];
    }
  }

  /** Does the size of the file make rm look at table t? */
  predicate TableFreed(usize: nat, t: nat) {
    (t == 0 && usize > DIRECT_BYTES) || (t == 1 && ONE_TABLE < usize < MAX_FILE)
  }

  function TableBlocks(v: Volume, f: nat, t: nat): seq<nat>
    requires f < NUM_INODES && t < NUM_LEV1 && v.nodes[f].lev1[t] < NUM_BLOCKS
  {
    if TableFreed(v.nodes[f].usize, t) then ReadTable(v.d, v.nodes[f].lev1[t]) + [v.nodes[f].lev1[t]] else []
  }

  /** The blocks that rm gives back, in its order. */
  function FreedList(v: Volume, f: nat): seq<nat>
    requires f < NUM_INODES && v.nodes[f].lev1[0] < NUM_BLOCKS && v.nodes[f].lev1[1] < NUM_BLOCKS
  {
    v.nodes[f].direct + TableBlocks(v, f, 0) + TableBlocks(v, f, 1)
  }

  /** rm reads the tables that the size says are there. */
  predicate TablesThere(v: Volume, f: nat)
    requires f < NUM_INODES
  {
    && (TableFreed(v.nodes[f].usize, 0) ==> v.nodes[f].lev1[0] != 0)
    && (TableFreed(v.nodes[f].usize, 1) ==> v.nodes[f].lev1[1] != 0)
  }

  /** Every table the file has is one that its size makes rm look at. */
  predicate SizeShowsTables(v: Volume, f: nat)
    requires f < NUM_INODES
  {
    forall t :: 0 <= t < NUM_LEV1 && v.nodes[f].lev1[t] != 0 ==> TableFreed(v.nodes[f].usize, t)
  }

  function Release(v: Volume, f: nat): Volume
    requires f < NUM_INODES && v.nodes[f].lev1[0] < NUM_BLOCKS && v.nodes[f].lev1[1] < NUM_BLOCKS
  {
    v.(inodeMap := ClearBit(v.inodeMap, f), blockMap := ClearEach(v.blockMap, FreedList(v, f)))
  }

  predicate FreedSlot(v: Volume, f: nat, s: Slot)
    requires f < NUM_INODES && IsSlot(s)
  {
    match s
    case Direct(k) => true
    case Lev1(t) => TableFreed(v.nodes[f].usize, t)
    case Entry(t, e) => TableFreed(v.nodes[f].usize, t)
  }

  lemma FreedSlotListed(v: Volume, f: nat, s: Slot)
    requires Inv(v) && Live(v, f) && IsSlot(s) && FreedSlot(v, f, s) && Ptr(v, f, s) != 0
    ensures v.nodes[f].lev1[0] < NUM_BLOCKS && v.nodes[f].lev1[1] < NUM_BLOCKS
    ensures Ptr(v, f, s) in FreedList(v, f)
  {
    TablesInRange(v, f);
    match s
    case Direct(k) =>
      assert v.nodes[f].direct[k] in v.nodes[f].direct;
    case Lev1(t) =>
      assert v.nodes[f].lev1[t] in TableBlocks(v, f, t);
    case Entry(t, e) =>
      assert Ptr(v, f, s) == ReadTable(v.d, v.nodes[f].lev1[t])[e];
      assert Ptr(v, f, s) in TableBlocks(v, f, t);
  }

  lemma TablesInRange(v: Volume, f: nat)
    requires Inv(v) && Live(v, f)
    ensures forall t :: 0 <= t < NUM_LEV1 ==> v.nodes[f].lev1[t] < NUM_BLOCKS
  {
    forall t | 0 <= t < NUM_LEV1
      ensures v.nodes[f].lev1[t] < NUM_BLOCKS
    {
      if v.nodes[f].lev1[t] != 0 {
        assert Owns(v, f, Lev1(t), v.nodes[f].lev1[t]);
      }
    }
  }

  lemma ListedIsFreedSlot(v: Volume, f: nat, c: nat) returns (s: Slot)
    requires Inv(v) && Live(v, f) && TablesThere(v, f) && c != 0
    requires v.nodes[f].lev1[0] < NUM_BLOCKS && v.nodes[f].lev1[1] < NUM_BLOCKS
    requires c in FreedList(v, f)
    ensures IsSlot(s) && FreedSlot(v, f, s) && Owns(v, f, s, c)
  {
    if c in v.nodes[f].direct {
      var k :| 0 <= k < NUM_DIRECT && v.nodes[f].direct[k] == c;
      s := Direct(k);
    } else {
      var t := if c in TableBlocks(v, f, 0) then 0 else 1;
      assert c in TableBlocks(v, f, t);
      if c == v.nodes[f].lev1[t] {
        s := Lev1(t);
      } else {
        var tb := ReadTable(v.d, v.nodes[f].lev1[t]);
        assert c in tb;
        var e :| 0 <= e < TABLE_ENTRIES && tb[e] == c;
        s := Entry(t, e);
      }
    }
  }

  lemma ReleaseFree(v: Volume, f: nat, c: nat)
    requires Inv(v) && Live(v, f) && TablesThere(v, f)
    requires v.nodes[f].lev1[0] < NUM_BLOCKS && v.nodes[f].lev1[1] < NUM_BLOCKS
    ensures Free(Release(v, f), c) <==> Free(v, c) || (0 < c < NUM_BLOCKS && c in FreedList(v, f))
  {
    if c < NUM_BLOCKS {
      ClearEachBits(v.blockMap, FreedList(v, f), c);
    }
  }

  lemma ReleaseLive(v: Volume, f: nat)
    requires Live(v, f)
    requires v.nodes[f].lev1[0] < NUM_BLOCKS && v.nodes[f].lev1[1] < NUM_BLOCKS
    ensures forall j: nat :: Live(Release(v, f), j) <==> Live(v, j) && j != f
  {
    forall j: nat | j < NUM_INODES
      ensures Live(Release(v, f), j) <==> Live(v, j) && j != f
    {
      OneBit(v.inodeMap, f, j);
    }
  }

  /** Giving an inode back keeps the pointers of every other inode sound. */
  lemma ReleaseInv(v: Volume, f: nat)
    requires Inv(v) && Live(v, f) && TablesThere(v, f)
    requires v.nodes[f].lev1[0] < NUM_BLOCKS && v.nodes[f].lev1[1] < NUM_BLOCKS
    ensures Inv(Release(v, f))
  {
    var v1 := Release(v, f);
    ReleaseLive(v, f);
    assert forall i: nat, s, b: nat :: Owns(v1, i, s, b) <==> Owns(v, i, s, b) && i != f;
    forall b: nat | b < NUM_BLOCKS && !Free(v, b) && Free(v1, b)
      ensures b >= RESERVED_BLOCKS && exists s :: Owns(v, f, s, b)
    {
      ReleaseFree(v, f, b);
      var s := ListedIsFreedSlot(v, f, b);
      assert Owns(v, f, s, b);
    }
  }

  /** Block b of inode f stands in, or under, a table that rm does not look at. */
  ghost predicate Hidden(v: Volume, f: nat, b: nat)
    requires f < NUM_INODES
  {
    exists s :: Owns(v, f, s, b) && !FreedSlot(v, f, s)
  }

  ghost function Unshown(v: Volume, f: nat): set<nat>
    requires f < NUM_INODES
  {
    set b: nat | RESERVED_BLOCKS <= b < NUM_BLOCKS && Hidden(v, f, b)
  }

  /** Exactly the blocks that the inode names in places that rm looks at become free. */
  lemma ReleaseGives(v: Volume, f: nat, b: nat)
    requires Inv(v) && Live(v, f) && TablesThere(v, f)
    requires v.nodes[f].lev1[0] < NUM_BLOCKS && v.nodes[f].lev1[1] < NUM_BLOCKS
    ensures Free(Release(v, f), b) <==> Free(v, b) || exists s :: Owns(v, f, s, b) && FreedSlot(v, f, s)
    ensures Hidden(v, f, b) ==> !Free(Release(v, f), b)
  {
    ReleaseFree(v, f, b);
    if 0 < b < NUM_BLOCKS && b in FreedList(v, f) {
      var s := ListedIsFreedSlot(v, f, b);
      assert Owns(v, f, s, b) && FreedSlot(v, f, s);
    }
    if s :| Owns(v, f, s, b) && FreedSlot(v, f, s) {
      FreedSlotListed(v, f, s);
    }
  }

  /** What is lost when an inode is given back: its tables that the size does not show, with the blocks they
      name; so nothing exactly when the size shows every table. */
  lemma ReleaseLeaks(v: Volume, f: nat)
    requires Inv(v) && Live(v, f) && TablesThere(v, f)
    requires v.nodes[f].lev1[0] < NUM_BLOCKS && v.nodes[f].lev1[1] < NUM_BLOCKS
    ensures Lost(Release(v, f)) == Lost(v) + Unshown(v, f) && Lost(v) !! Unshown(v, f)
    ensures Unshown(v, f) == {} <==> SizeShowsTables(v, f)
  {
    var v1 := Release(v, f);
    ReleaseLive(v, f);
    assert forall i: nat, s, b: nat :: Owns(v1, i, s, b) <==> Owns(v, i, s, b) && i != f;
    forall b: nat | RESERVED_BLOCKS <= b < NUM_BLOCKS
      ensures b in Lost(v1) <==> b in Lost(v) || b in Unshown(v, f)
      ensures !(b in Lost(v) && b in Unshown(v, f))
    {
      ReleaseLost(v, f, b);
    }
    UnshownNone(v, f);
  }

  lemma ReleaseLost(v: Volume, f: nat, b: nat)
    requires Inv(v) && Live(v, f) && TablesThere(v, f) && RESERVED_BLOCKS <= b < NUM_BLOCKS
    requires v.nodes[f].lev1[0] < NUM_BLOCKS && v.nodes[f].lev1[1] < NUM_BLOCKS
    requires forall i: nat, s, c: nat :: Owns(Release(v, f), i, s, c) <==> Owns(v, i, s, c) && i != f
    ensures !Free(Release(v, f), b) && !Owned(Release(v, f), b) <==> (!Free(v, b) && !Owned(v, b)) || Hidden(v, f, b)
    ensures Hidden(v, f, b) ==> Owned(v, b)
  {
    hide Release, TablesThere, FreedSlot;
    ReleaseGives(v, f, b);
    if Owned(v, b) {
      var i: nat, s :| Owns(v, i, s, b);
      if i != f {
        assert Owns(Release(v, f), i, s, b);
      }
    }
  }

  lemma UnshownNone(v: Volume, f: nat)
    requires Inv(v) && Live(v, f)
    ensures Unshown(v, f) == {} <==> SizeShowsTables(v, f)
  {
    if SizeShowsTables(v, f) {
      TablesInRange(v, f);
      assert forall b: nat, s :: Owns(v, f, s, b) ==> FreedSlot(v, f, s);
    } else {
      var t :| 0 <= t < NUM_LEV1 && v.nodes[f].lev1[t] != 0 && !TableFreed(v.nodes[f].usize, t);
      assert Owns(v, f, Lev1(t), v.nodes[f].lev1[t]);
      assert Hidden(v, f, v.nodes[f].lev1[t]);
      assert v.nodes[f].lev1[t] in Unshown(v, f);
    }
  }

  // ---------- rm ----------

  /** The inode that the name refers to. */
  function Target(v: Volume, p: nat, name: seq<byte>): nat
    requires DirShape(v, p) && IsName(name) && Found(v, p, name)
  {
    Dentries(v, p)[Lookup(v, p, name)].ino
  }

  function Rm(v: Volume, p: nat, name: seq<byte>): Volume
    requires DirShape(v, p) && IsName(name)
    requires Found(v, p, name) ==> v.nodes[p].usize > 64 && Target(v, p, name) < NUM_INODES
    requires Found(v, p, name) ==>
      forall t :: 0 <= t < NUM_LEV1 ==> v.nodes[Target(v, p, name)].lev1[t] < NUM_BLOCKS
  {
    if !Found(v, p, name) then v
    else
      var f := Target(v, p, name);
      var v1 := CutDentry(v, p, Lookup(v, p, name));
      var n := U16(v1.nodes[f].nlinks - 1);
      if n == 0 then Release(v1, f) else Relink(v1, f, n)
  }

  /** What rm asks of its caller: the name is a file's, and the last link's tables exist as the size says. */
  ghost predicate RmReady(v: Volume, p: nat, name: seq<byte>) {
    && IsDir(v, p) && DirShape(v, p) && IsName(name)
    && (Found(v, p, name) ==> IsFile(v, Target(v, p, name)) && TablesThere(v, Target(v, p, name)))
  }

  lemma RmInRange(v: Volume, p: nat, name: seq<byte>)
    requires FsOk(v) && RmReady(v, p, name) && Found(v, p, name)
    ensures Lookup(v, p, name) < |Dentries(v, p)|
    ensures v.nodes[p].usize > 64 && 2 <= Lookup(v, p, name) && Target(v, p, name) != p
    ensures forall t :: 0 <= t < NUM_LEV1 ==> v.nodes[Target(v, p, name)].lev1[t] < NUM_BLOCKS
  {
    assert NameOk(v, Dentries(v, p), Lookup(v, p, name));
    TablesInRange(v, Target(v, p, name));
  }

  /** v1 is v with one name of inode f less in some directory. */
  ghost predicate NameCut(v: Volume, v1: Volume, f: nat) {
    && Inv(v1) && Lost(v1) == Lost(v) && DirsOk(v1)
    && v1.inodeMap == v.inodeMap && v1.blockMap == v.blockMap
    && (forall j: nat, s :: Live(v, j) && IsSlot(s) ==> Ptr(v1, j, s) == Ptr(v, j, s))
    && (forall g: nat :: Names(v1, g) + (if g == f then 1 else 0) == Names(v, g))
    && (forall g: nat :: IsFile(v1, g) <==> IsFile(v, g))
    && (forall g: nat :: IsFile(v, g) ==> v1.nodes[g] == v.nodes[g])
  }

  /** Taking entry k out keeps the directories, and lowers the count of the inode it named by one. */
  lemma CutDentryKeeps(v: Volume, p: nat, k: nat)
    requires Inv(v) && DirsOk(v) && IsDir(v, p) && DirShape(v, p) && 2 <= k < |Dentries(v, p)|
    ensures v.nodes[p].usize > 64
    ensures var v1 := CutDentry(v, p, k); var f := Dentries(v, p)[k].ino;
      && NameCut(v, v1, f)
      && IsDir(v1, p) && DirShape(v1, p) && Dentries(v1, p) == Dentries(v, p)[..k] + Dentries(v, p)[k + 1..]
  {
    hide Inv, Lost, Names, CutDentry;
    var es, v1 := Dentries(v, p), CutDentry(v, p, k);
    var rest := es[..k] + es[k + 1..];
    CutDentryReplaces(v, p, k);
    forall j | 0 <= j < |rest|
      ensures NameOk(v, rest, j)
    {
      assert NameOk(v, es, if j < k then j else j + 1);
    }
    ReplacedKeepsDirs(v, v1, p, rest);
    forall g: nat
      ensures Names(v1, g) + (if g == es[k].ino then 1 else 0) == Names(v, g)
    {
      NamesReplaced(v, v1, p, rest, g);
      CutInos(es, k);
    }
  }

  lemma CutInos(es: seq<Dentry>, k: nat)
    requires k < |es|
    ensures multiset(Inos(es)) == multiset(Inos(es[..k] + es[k + 1..])) + multiset{es[k].ino}
  {
    InosConcat(es[..k], es[k + 1..]);
    assert es == es[..k] + ([es[k]] + es[k + 1..]);
    InosConcat(es[..k], [es[k]] + es[k + 1..]);
    InosConcat([es[k]], es[k + 1..]);
    assert Inos([es[k]]) == [es[k].ino];
  }

  /** An inode that nobody names can be given back without hurting any directory or count. */
  lemma ReleaseKeepsNames(v: Volume, f: nat)
    requires Inv(v) && DirsOk(v) && IsFile(v, f) && Names(v, f) == 0 && TablesThere(v, f)
    requires v.nodes[f].lev1[0] < NUM_BLOCKS && v.nodes[f].lev1[1] < NUM_BLOCKS
    ensures var v1 := Release(v, f);
      && Inv(v1) && DirsOk(v1)
      && (forall j: nat :: Live(v1, j) <==> Live(v, j) && j != f)
      && v1.nodes == v.nodes && v1.d == v.d
      && (forall g: nat :: Names(v1, g) == Names(v, g))
  {
    var v1 := Release(v, f);
    ReleaseInv(v, f);
    ReleaseLive(v, f);
    hide Inv, Release;
    assert v1.d == v.d && v1.nodes == v.nodes by { assert v1 == v.(inodeMap := v1.inodeMap, blockMap := v1.blockMap); }
    assert forall j: nat :: IsDir(v1, j) <==> IsDir(v, j);
    forall j: nat, k | IsDir(v1, j) && 0 <= k < |Dentries(v1, j)|
      ensures NameOk(v1, Dentries(v1, j), k)
    {
      assert NameOk(v, Dentries(v, j), k);
      if Dentries(v, j)[k].ino == f {
        NoNamesMeans(v, f, NUM_INODES, j, k);
        assert false;
      }
    }
    forall g: nat
      ensures Names(v1, g) == Names(v, g)
    {
      OneDirChanges(v, v1, g, NUM_INODES, NUM_INODES);
    }
  }

  /** The link that rm takes away is the last one. */
  predicate LastLink(v: Volume, p: nat, name: seq<byte>)
    requires DirShape(v, p) && IsName(name)
  {
    Found(v, p, name) && Target(v, p, name) < NUM_INODES && v.nodes[Target(v, p, name)].nlinks == 1
  }

  /** The directories hold the same entries, and every inode has as many names. */
  ghost predicate SameEntries(v: Volume, v1: Volume) {
    && (forall j: nat :: IsDir(v, j) && DirShape(v, j) ==> DirShape(v1, j) && Dentries(v1, j) == Dentries(v, j))
    && forall g: nat :: Names(v1, g) == Names(v, g)
  }

  lemma EntriesByDisk(v: Volume, v1: Volume)
    requires v1.d == v.d && v1.nodes == v.nodes && forall g: nat :: Names(v1, g) == Names(v, g)
    ensures SameEntries(v, v1)
  {
    hide Names;
  }

  lemma RmLastOk(v: Volume, v1: Volume, f: nat)
    requires FsOk(v) && NameCut(v, v1, f) && IsFile(v, f) && v.nodes[f].nlinks == 1 && TablesThere(v, f)
    requires v.nodes[f].lev1[0] < NUM_BLOCKS && v.nodes[f].lev1[1] < NUM_BLOCKS
    ensures v1.nodes[f] == v.nodes[f]
    ensures FsOk(Release(v1, f))
    ensures Lost(Release(v1, f)) == Lost(v) + Unshown(v, f) && Lost(v) !! Unshown(v, f)
    ensures Unshown(v, f) == {} <==> SizeShowsTables(v, f)
    ensures forall b: nat :: Free(Release(v1, f), b) <==> Free(v, b) || exists s :: Owns(v, f, s, b) && FreedSlot(v, f, s)
    ensures forall j: nat :: Live(Release(v1, f), j) <==> Live(v, j) && j != f
    ensures forall j: nat, s :: Live(v, j) && IsSlot(s) ==> Ptr(Release(v1, f), j, s) == Ptr(v, j, s)
    ensures Release(v1, f).inodeMap == ClearBit(v.inodeMap, f)
    ensures SameEntries(v1, Release(v1, f))
  {
    assert Release(v1, f).inodeMap == ClearBit(v1.inodeMap, f);
    hide Inv, Lost, Names, DirsOk, Release;
    assert Names(v1, f) == 0;
    ReleaseKeepsNames(v1, f);
    RmLastLinks(v, v1, Release(v1, f), f);
    ReleaseLeaks(v1, f);
    OwnsThroughCut(v, v1, f);
    forall b: nat
      ensures Free(Release(v1, f), b) <==> Free(v, b) || exists s :: Owns(v, f, s, b) && FreedSlot(v, f, s)
    {
      ReleaseGives(v1, f, b);
      assert Free(v1, b) <==> Free(v, b);
    }
    PtrsThroughRelease(v, v1, f);
    EntriesByDisk(v1, Release(v1, f));
  }

  lemma OwnsThroughCut(v: Volume, v1: Volume, f: nat)
    requires f < NUM_INODES && v1.inodeMap == v.inodeMap && v1.nodes[f] == v.nodes[f]
    requires forall j: nat, s :: Live(v, j) && IsSlot(s) ==> Ptr(v1, j, s) == Ptr(v, j, s)
    ensures forall s, b: nat :: Owns(v1, f, s, b) <==> Owns(v, f, s, b)
    ensures forall s :: IsSlot(s) ==> (FreedSlot(v1, f, s) <==> FreedSlot(v, f, s))
    ensures Unshown(v1, f) == Unshown(v, f)
  {
    assert forall b: nat, s :: Owns(v1, f, s, b) <==> Owns(v, f, s, b);
    assert forall b: nat :: Hidden(v1, f, b) <==> Hidden(v, f, b);
  }

  lemma RmOneOk(v: Volume, v1: Volume, f: nat, n: nat)
    requires FsOk(v) && NameCut(v, v1, f) && IsFile(v, f) && n == v.nodes[f].nlinks - 1 > 0
    ensures v1.nodes[f] == v.nodes[f]
    ensures FsOk(Relink(v1, f, n)) && Lost(Relink(v1, f, n)) == Lost(v)
    ensures forall j: nat :: Live(Relink(v1, f, n), j) <==> Live(v, j)
    ensures forall j: nat, s :: Live(v, j) && IsSlot(s) ==> Ptr(Relink(v1, f, n), j, s) == Ptr(v, j, s)
    ensures Relink(v1, f, n).nodes[f].nlinks == v.nodes[f].nlinks - 1 && Relink(v1, f, n).blockMap == v.blockMap && Relink(v1, f, n).inodeMap == v.inodeMap
    ensures SameEntries(v1, Relink(v1, f, n))
  {
    hide Inv, Lost, Names, DirsOk;
    RelinkKeeps(v1, f, n);
    RmLinks(v, v1, Relink(v1, f, n), f, n);
    hide Relink;
    assert forall j: nat :: Live(v1, j) <==> Live(v, j);
  }

  /** The link count as rm computes it, in 16 bits. */
  lemma CountDown(v: Volume, f: nat)
    requires FsOk(v) && IsFile(v, f)
    ensures v.nodes[f].nlinks >= 1
    ensures U16(v.nodes[f].nlinks - 1) == v.nodes[f].nlinks - 1
  {
    NamesBound(v, f, NUM_INODES);
  }

  /** rm keeps the invariant, and takes out the first entry of that name and nothing else.  The file has one
      name less, and unless it was the last one also one less in its count.  With the last one the inode goes and
      the blocks it names, but the tables that its size does not show, with their blocks, are lost. */
  lemma RmOk(v: Volume, p: nat, name: seq<byte>)
    requires FsOk(v) && RmReady(v, p, name)
    ensures Found(v, p, name) ==> (
      v.nodes[p].usize > 64 && Target(v, p, name) < NUM_INODES &&
      forall t :: 0 <= t < NUM_LEV1 ==> v.nodes[Target(v, p, name)].lev1[t] < NUM_BLOCKS)
    ensures FsOk(Rm(v, p, name)) && (!Found(v, p, name) ==> Rm(v, p, name) == v)
    ensures Lost(Rm(v, p, name)) == Lost(v) + LostBy(v, p, name) && Lost(v) !! LostBy(v, p, name)
    ensures LostBy(v, p, name) == {} <==> (LastLink(v, p, name) ==> SizeShowsTables(v, Target(v, p, name)))
    ensures Found(v, p, name) ==> forall j: nat :: Live(Rm(v, p, name), j) <==>
      Live(v, j) && !(LastLink(v, p, name) && j == Target(v, p, name))
    ensures Found(v, p, name) ==> EntryGone(v, Rm(v, p, name), p, Lookup(v, p, name))
    ensures Found(v, p, name) && !LastLink(v, p, name) ==> var v1, f := Rm(v, p, name), Target(v, p, name);
      v1.nodes[f].nlinks == v.nodes[f].nlinks - 1 && v1.inodeMap == v.inodeMap && v1.blockMap == v.blockMap
    ensures forall j: nat, s :: Live(v, j) && IsSlot(s) ==> Ptr(Rm(v, p, name), j, s) == Ptr(v, j, s)
    ensures LastLink(v, p, name) ==> var v1, f := Rm(v, p, name), Target(v, p, name);
      v1.inodeMap == ClearBit(v.inodeMap, f) &&
      forall b: nat :: Free(v1, b) <==> Free(v, b) || exists s :: Owns(v, f, s, b) && FreedSlot(v, f, s)
  {
    hide Inv, Lost, CutDentry, Names, DirsOk, LinksOk, Release, Relink, DirShape, Dentries, Lookup, Found, Rm, Target, NameCut, FreedSlot, Free, Owns, SizeShowsTables, Unshown, SameEntries, EntryGone;
    if Found(v, p, name) {
      var f, v1 := RmSteps(v, p, name);
      if v.nodes[f].nlinks == 1 {
        RmLastOk(v, v1, f);
      } else {
        RmOneOk(v, v1, f, v.nodes[f].nlinks - 1);
      }
      GoneThen(v, v1, Rm(v, p, name), p, Lookup(v, p, name));
    } else {
      RmMisses(v, p, name);
    }
  }

  /** What a removal loses. */
  ghost function LostBy(v: Volume, p: nat, name: seq<byte>): set<nat>
    requires DirShape(v, p) && IsName(name)
  {
    if LastLink(v, p, name) then Unshown(v, Target(v, p, name)) else {}
  }

  /** Entry k of directory p is gone, and with it one name of its inode. */
  ghost predicate EntryGone(v: Volume, v1: Volume, p: nat, k: nat)
    requires DirShape(v, p)
  {
    && k < |Dentries(v, p)| && DirShape(v1, p)
    && Dentries(v1, p) == Dentries(v, p)[..k] + Dentries(v, p)[k + 1..]
    && forall g: nat :: Names(v1, g) + (if g == Dentries(v, p)[k].ino then 1 else 0) == Names(v, g)
  }

  lemma GoneThen(v: Volume, v1: Volume, v2: Volume, p: nat, k: nat)
    requires DirShape(v, p) && EntryGone(v, v1, p, k) && IsDir(v1, p) && SameEntries(v1, v2)
    ensures EntryGone(v, v2, p, k)
  {
    hide Names, Dentries;
  }

  /** On any volume, tidy or not: with the last name of a file whose size shows its tables, exactly the blocks
      that the file names become free. */
  lemma RmFreesOwned(v: Volume, p: nat, name: seq<byte>, b: nat)
    requires FsOk(v) && RmReady(v, p, name) && LastLink(v, p, name) && SizeShowsTables(v, Target(v, p, name))
    ensures v.nodes[p].usize > 64 && forall t :: 0 <= t < NUM_LEV1 ==> v.nodes[Target(v, p, name)].lev1[t] < NUM_BLOCKS
    ensures Free(Rm(v, p, name), b) <==> Free(v, b) || exists s :: Owns(v, Target(v, p, name), s, b)
  {
    hide Rm, Names, DirsOk, LinksOk, Lookup, Found, Target, DirShape, Dentries, Free;
    RmOk(v, p, name);
    ShownFreed(v, Target(v, p, name));
  }

  lemma ShownFreed(v: Volume, f: nat)
    requires Inv(v) && f < NUM_INODES && SizeShowsTables(v, f)
    ensures forall s, b: nat :: Owns(v, f, s, b) ==> FreedSlot(v, f, s)
  {
  }

  lemma RmMisses(v: Volume, p: nat, name: seq<byte>)
    requires DirShape(v, p) && IsName(name) && !Found(v, p, name)
    ensures Rm(v, p, name) == v && !LastLink(v, p, name)
  {
  }

  /** The two stages of rm: the entry goes, then the inode is given back or its count goes down. */
  lemma RmSteps(v: Volume, p: nat, name: seq<byte>) returns (f: nat, v1: Volume)
    requires FsOk(v) && RmReady(v, p, name) && Found(v, p, name)
    ensures f == Target(v, p, name) && IsFile(v, f) && v.nodes[p].usize > 64 && TablesThere(v, f)
    ensures forall t :: 0 <= t < NUM_LEV1 ==> v.nodes[f].lev1[t] < NUM_BLOCKS
    ensures NameCut(v, v1, f) && v1.nodes[f] == v.nodes[f] && v.nodes[f].nlinks >= 1
    ensures IsDir(v1, p) && EntryGone(v, v1, p, Lookup(v, p, name))
    ensures Rm(v, p, name) == if v.nodes[f].nlinks == 1 then Release(v1, f) else Relink(v1, f, v.nodes[f].nlinks - 1)
  {
    hide Inv, Lost, CutDentry, Names, DirsOk, LinksOk, Release, Relink, Dentries, DirShape, FindName;
    RmInRange(v, p, name);
    f := Target(v, p, name);
    var k := Lookup(v, p, name);
    v1 := CutDentry(v, p, k);
    CutDentryKeeps(v, p, k);
    CountDown(v, f);
  }

  lemma RmLastLinks(v: Volume, v1: Volume, v2: Volume, f: nat)
    requires LinksOk(v) && (forall g: nat :: Names(v1, g) + (if g == f then 1 else 0) == Names(v, g))
    requires (forall g: nat :: IsFile(v1, g) <==> IsFile(v, g)) && (forall g: nat :: IsFile(v, g) ==> v1.nodes[g] == v.nodes[g])
    requires (forall j: nat :: Live(v2, j) <==> Live(v1, j) && j != f) && v2.nodes == v1.nodes
    requires forall g: nat :: Names(v2, g) == Names(v1, g)
    ensures LinksOk(v2)
  {
    hide Names;
    forall g: nat | IsFile(v2, g)
      ensures v2.nodes[g].nlinks == Names(v2, g) && Names(v2, g) > 0
    {
      assert IsFile(v1, g) && IsFile(v, g);
    }
  }

  lemma RmLinks(v: Volume, v1: Volume, v2: Volume, f: nat, n: nat)
    requires LinksOk(v) && (forall g: nat :: Names(v1, g) + (if g == f then 1 else 0) == Names(v, g))
    requires (forall g: nat :: IsFile(v1, g) <==> IsFile(v, g)) && (forall g: nat :: IsFile(v, g) ==> v1.nodes[g] == v.nodes[g])
    requires IsFile(v, f) && v2 == Relink(v1, f, n) && n == v.nodes[f].nlinks - 1 > 0
    requires (forall g: nat :: Names(v2, g) == Names(v1, g)) && (forall g: nat :: IsFile(v2, g) <==> IsFile(v1, g))
    ensures LinksOk(v2)
    ensures forall j: nat :: Live(v2, j) <==> Live(v1, j)
  {
    hide Names;
    forall g: nat | IsFile(v2, g)
      ensures v2.nodes[g].nlinks == Names(v2, g) && Names(v2, g) > 0
    {
      assert IsFile(v, g);
    }
  }

  lemma PtrsThroughRelease(v: Volume, v1: Volume, f: nat)
    requires IsFile(v1, f) && v1.nodes[f].lev1[0] < NUM_BLOCKS && v1.nodes[f].lev1[1] < NUM_BLOCKS
    requires v1.inodeMap == v.inodeMap
    requires forall j: nat, s :: Live(v, j) && IsSlot(s) ==> Ptr(v1, j, s) == Ptr(v, j, s)
    ensures forall j: nat, s :: Live(v, j) && IsSlot(s) ==> Ptr(Release(v1, f), j, s) == Ptr(v, j, s)
  {
  }
}
