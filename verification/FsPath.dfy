/** find_dir: how a path leads to an inode, and where it leaves the current directory. */
module FsPath {
  import opened FsLayout
  import opened FsVolume
  import opened FsDirectory
  import opened FsNames
  import opened FsRemove

  const SLASH: byte := 47
  const HEAD_SIZE := 20
  const TAIL_SIZE := 100

  /** What a search ends with: whether the whole path was found, and the inode it ended at. */
  datatype Search = Search(found: bool, at: nat)

  // ---------- find_dir ----------

  function Head(s: seq<byte>): (r: seq<byte>)
    ensures |r| <= |s|
  {
    if s == [] || s[0] == SLASH then [] else [s[0]] + Head(s[1..])
  }

  function Tail(s: seq<byte>): (r: seq<byte>)
    ensures |r| <= |s| && (s != [] ==> |r| < |s|)
  {
    if s == [] then [] else if s[0] == SLASH then s[1..] else Tail(s[1..])
  }

  /** Where a search starts, and what is left to look for. */
  function Start(cwd: nat, path: seq<byte>): nat {
    if path != [] && path[0] == SLASH then 0 else cwd
  }

  function Relative(path: seq<byte>): (r: seq<byte>)
    ensures |r| <= |path| && (path != [] && path[0] == SLASH ==> |r| < |path|)
  {
    if path != [] && path[0] == SLASH then path[1..] else path
  }

  /** The path fits the buffers, and every inode in which a name is looked up is a directory. */
  predicate Walkable(v: Volume, cwd: nat, path: seq<byte>)
    decreases |path|
  {
    path == [SLASH] ||
    var p, h, t := Start(cwd, path), Head(Relative(path)), Tail(Relative(path));
    && IsDir(v, p) && DirShape(v, p) && IsName(h) && |h| < HEAD_SIZE && |t| < TAIL_SIZE
    && (Found(v, p, h) && t != [] ==> Walkable(v, Target(v, p, h), t))
  }

  /** What the flag find says after a search, and where the search ended. A tail that starts with a slash is
      searched from the root again; a lone slash does not set the flag. */
  function SearchPath(v: Volume, cwd: nat, path: seq<byte>): Search
    requires Walkable(v, cwd, path)
    decreases |path|
  {
    if path == [SLASH] then Search(false, 0)
    else
      var p, h, t := Start(cwd, path), Head(Relative(path)), Tail(Relative(path));
      if !Found(v, p, h) then Search(false, p)
      else if t == [] then Search(true, Target(v, p, h))
      else SearchPath(v, Target(v, p, h), t)
  }

  /** What find_dir returns, and where it ended: only the call itself makes the root of a lone slash. */
  function FindDir(v: Volume, cwd: nat, path: seq<byte>): Search
    requires Walkable(v, cwd, path)
  {
    if path == [SLASH] then Search(true, 0) else SearchPath(v, cwd, path)
  }

  // ---------- What a path means ----------

  /** Names looked up one after the other, each in what the one before it led to. */
  predicate CanWalk(v: Volume, at: nat, names: seq<seq<byte>>)
    decreases |names|
  {
    names == [] ||
    (IsDir(v, at) && DirShape(v, at) && IsName(names[0]) &&
     (Found(v, at, names[0]) ==> CanWalk(v, Target(v, at, names[0]), names[1..])))
  }

  function Walk(v: Volume, at: nat, names: seq<seq<byte>>): Search
    requires CanWalk(v, at, names)
    decreases |names|
  {
    if names == [] then Search(true, at)
    else if !Found(v, at, names[0]) then Search(false, at)
    else Walk(v, Target(v, at, names[0]), names[1..])
  }

  /** A nonempty name without a slash. */
  predicate IsPart(s: seq<byte>) {
    s != [] && SLASH !in s
  }

  /** The names, each with a slash behind it. */
  function Joined(names: seq<seq<byte>>): seq<byte> {
    if names == [] then [] else names[0] + [SLASH] + Joined(names[1..])
  }

  lemma {:induction false} HeadTail(a: seq<byte>, b: seq<byte>)
    requires SLASH !in a
    ensures Head(a + [SLASH] + b) == a && Tail(a + [SLASH] + b) == b
    ensures Head(a) == a && Tail(a) == []
  {
    var s := a + [SLASH] + b;
    if a == [] {
      assert s[1..] == b;
    } else {
      HeadTail(a[1..], b);
      assert s[1..] == a[1..] + [SLASH] + b && s[0] == a[0];
      assert [a[0]] + a[1..] == a;
    }
  }

  /** Names in front of a path are looked up one after the other, and the path from where they lead. */
  lemma {:induction false} FindBehind(v: Volume, cwd: nat, names: seq<seq<byte>>, rest: seq<byte>)
    requires (forall k :: 0 <= k < |names| ==> IsPart(names[k])) && rest != [] && Walkable(v, cwd, Joined(names) + rest)
    ensures CanWalk(v, cwd, names)
    ensures var w := Walk(v, cwd, names);
      if w.found then Walkable(v, w.at, rest) && SearchPath(v, cwd, Joined(names) + rest) == SearchPath(v, w.at, rest)
      else SearchPath(v, cwd, Joined(names) + rest) == w
    decreases |names|
  {
    hide Found, Target, IsDir, DirShape;
    if names == [] {
      assert Joined(names) + rest == rest;
    } else {
      var n, r := names[0], Joined(names[1..]) + rest;
      assert Joined(names) + rest == n + [SLASH] + r;
      HeadTail(n, r);
      if Found(v, cwd, n) {
        FindBehind(v, Target(v, cwd, n), names[1..], rest);
      }
    }
  }

  lemma FindLastName(v: Volume, cwd: nat, last: seq<byte>, trailing: bool)
    requires IsPart(last) && Walkable(v, cwd, if trailing then last + [SLASH] else last)
    ensures CanWalk(v, cwd, [last])
    ensures SearchPath(v, cwd, if trailing then last + [SLASH] else last) == Walk(v, cwd, [last])
  {
    hide Found, Target, IsDir, DirShape;
    HeadTail(last, []);
    assert last + [SLASH] + [] == last + [SLASH];
  }

  lemma {:induction false} WalkJoin(v: Volume, at: nat, a: seq<seq<byte>>, b: seq<seq<byte>>)
    requires CanWalk(v, at, a) && (Walk(v, at, a).found ==> CanWalk(v, Walk(v, at, a).at, b))
    ensures CanWalk(v, at, a + b)
    ensures var w := Walk(v, at, a); Walk(v, at, a + b) == if w.found then Walk(v, w.at, b) else w
    decreases |a|
  {
    hide Found, Target, IsDir, DirShape;
    if a == [] {
      assert a + b == b;
    } else {
      assert (a + b)[0] == a[0] && (a + b)[1..] == a[1..] + b;
      if Found(v, at, a[0]) {
        WalkJoin(v, Target(v, at, a[0]), a[1..], b);
      }
    }
  }

  lemma FromRoot(v: Volume, cwd: nat, path: seq<byte>)
    requires path != [] && path[0] != SLASH && Walkable(v, cwd, [SLASH] + path)
    ensures Walkable(v, 0, path) && SearchPath(v, cwd, [SLASH] + path) == SearchPath(v, 0, path)
  {
    assert ([SLASH] + path)[1..] == path;
  }

  /** A path: names with a slash between them, perhaps one in front and one behind. */
  function Path(absolute: bool, names: seq<seq<byte>>, trailing: bool): seq<byte>
    requires names != []
  {
    (if absolute then [SLASH] else []) +
    (Joined(names[..|names| - 1]) + if trailing then names[|names| - 1] + [SLASH] else names[|names| - 1])
  }

  /** find_dir looks the names of a path up one after the other, from the root if a slash is in front; one
      slash behind makes no difference. */
  lemma FindDirWalks(v: Volume, cwd: nat, absolute: bool, names: seq<seq<byte>>, trailing: bool)
    requires names != [] && (forall k :: 0 <= k < |names| ==> IsPart(names[k]))
    requires Walkable(v, cwd, Path(absolute, names, trailing))
    ensures CanWalk(v, if absolute then 0 else cwd, names)
    ensures FindDir(v, cwd, Path(absolute, names, trailing)) == Walk(v, if absolute then 0 else cwd, names)
  {
    hide Found, Target, IsDir, DirShape, Walkable, SearchPath, Walk, CanWalk;
    var init, last := names[..|names| - 1], names[|names| - 1];
    var rest := if trailing then last + [SLASH] else last;
    var path, at := Joined(init) + rest, if absolute then 0 else cwd;
    if init != [] {
      JoinedStarts(init);
    }
    assert path[0] == if init == [] then rest[0] else Joined(init)[0];
    assert Path(absolute, names, trailing) == (if absolute then [SLASH] else []) + path;
    if absolute {
      FromRoot(v, cwd, path);
    } else {
      assert [] + path == path;
    }
    FindBehind(v, at, init, rest);
    var w := Walk(v, at, init);
    if w.found {
      FindLastName(v, w.at, last, trailing);
    }
    WalkJoin(v, at, init, [last]);
    assert names == init + [last];
  }

  lemma JoinedStarts(names: seq<seq<byte>>)
    requires names != [] && IsPart(names[0])
    ensures Joined(names) != [] && Joined(names)[0] != SLASH
  {
    assert Joined(names)[0] == names[0][0];
  }

  /** A second slash in a row starts again at the root; at the end of a path it makes the search fail. */
  lemma DoubledSlash(v: Volume, cwd: nat, names: seq<seq<byte>>, path: seq<byte>)
    requires names != [] && (forall k :: 0 <= k < |names| ==> IsPart(names[k])) && (path != [] ==> path[0] != SLASH)
    requires Walkable(v, cwd, Joined(names) + ([SLASH] + path))
    ensures CanWalk(v, cwd, names) && (Walk(v, cwd, names).found && path != [] ==> Walkable(v, 0, path))
    ensures FindDir(v, cwd, Joined(names) + ([SLASH] + path)) ==
      if !Walk(v, cwd, names).found then Walk(v, cwd, names) else if path == [] then Search(false, 0) else FindDir(v, 0, path)
  {
    hide Found, Target, IsDir, DirShape, Walkable, Walk, CanWalk;
    FindBehind(v, cwd, names, [SLASH] + path);
    JoinedStarts(names);
    if Walk(v, cwd, names).found {
      if path == [] {
        assert [SLASH] + path == [SLASH];
      } else {
        FromRoot(v, Walk(v, cwd, names).at, path);
      }
    }
  }

  /** Name k is the first that is not in the directory to which the names before it lead. */
  predicate Misses(v: Volume, at: nat, names: seq<seq<byte>>, k: nat) {
    && k < |names| && CanWalk(v, at, names[..k]) && Walk(v, at, names[..k]).found
    && DirShape(v, Walk(v, at, names[..k]).at) && IsName(names[k]) && !Found(v, Walk(v, at, names[..k]).at, names[k])
  }

  lemma {:induction false} MissStops(v: Volume, at: nat, names: seq<seq<byte>>, k: nat)
    requires CanWalk(v, at, names) && Misses(v, at, names, k)
    ensures Walk(v, at, names) == Search(false, Walk(v, at, names[..k]).at)
    decreases k
  {
    hide Found, Target, IsDir, DirShape, IsName;
    if k > 0 {
      assert names[..k][0] == names[0] && names[..k][1..] == names[1..][..k - 1];
      MissStops(v, Target(v, at, names[0]), names[1..], k - 1);
    }
  }

  lemma {:induction false} StopMisses(v: Volume, at: nat, names: seq<seq<byte>>) returns (k: nat)
    requires CanWalk(v, at, names) && !Walk(v, at, names).found
    ensures Misses(v, at, names, k)
    decreases |names|
  {
    hide Found, Target, IsDir, DirShape, IsName;
    if !Found(v, at, names[0]) {
      k := 0;
    } else {
      k := StopMisses(v, Target(v, at, names[0]), names[1..]);
      k := k + 1;
      assert names[..k][0] == names[0] && names[..k][1..] == names[1..][..k - 1];
    }
  }

  /** A walk fails if and only if a name is missing where the names before it lead, and ends there. */
  lemma WalkFails(v: Volume, at: nat, names: seq<seq<byte>>)
    requires CanWalk(v, at, names)
    ensures !Walk(v, at, names).found <==> exists k: nat :: Misses(v, at, names, k)
    ensures forall k: nat :: Misses(v, at, names, k) ==> Walk(v, at, names).at == Walk(v, at, names[..k]).at
  {
    hide Walk, CanWalk, Found, DirShape;
    if !Walk(v, at, names).found {
      var k := StopMisses(v, at, names);
    }
    forall k: nat | Misses(v, at, names, k)
      ensures Walk(v, at, names) == Search(false, Walk(v, at, names[..k]).at)
    {
      MissStops(v, at, names, k);
    }
  }

  // ---------- Who changes the current directory ----------

  /** cd goes to the directory that the path leads to, and stays when there is none. */
  function AfterCd(v: Volume, cwd: nat, path: seq<byte>): nat
    requires path != [] ==> Walkable(v, cwd, path)
  {
    if path == [] then cwd
    else
      var s := FindDir(v, cwd, path);
      if s.found && s.at < NUM_INODES && v.nodes[s.at].mode == DIR then s.at else cwd
  }

  /** open and ln come back only when they found the path: otherwise the search's last directory stays current. */
  function AfterSearch(v: Volume, cwd: nat, path: seq<byte>): nat
    requires Walkable(v, cwd, path)
  {
    var s := FindDir(v, cwd, path);
    if s.found then cwd else s.at
  }

  /** Where a search ends there is an inode, and a directory if it failed. */
  lemma {:induction false} FindDirEnds(v: Volume, cwd: nat, path: seq<byte>)
    requires DirsOk(v) && Walkable(v, cwd, path)
    ensures var s := SearchPath(v, cwd, path); if s.found then Live(v, s.at) else IsDir(v, s.at)
    ensures var s := FindDir(v, cwd, path); if s.found then Live(v, s.at) else IsDir(v, s.at)
    decreases |path|
  {
    hide Dentries, FindName;
    if path != [SLASH] {
      var p, h, t := Start(cwd, path), Head(Relative(path)), Tail(Relative(path));
      if Found(v, p, h) {
        assert NameOk(v, Dentries(v, p), Lookup(v, p, h));
        if t != [] {
          FindDirEnds(v, Target(v, p, h), t);
        }
      }
    }
  }

  /** What ln asks of its caller: a place in the current directory, and names that fit. */
  predicate LnReady(v: Volume, cwd: nat, src: seq<byte>, dst: seq<byte>) {
    IsDir(v, cwd) && DirShape(v, cwd) && v.nodes[cwd].usize < BLOCK_SIZE && IsName(dst) && Walkable(v, cwd, src)
  }

  function Ln(v: Volume, cwd: nat, src: seq<byte>, dst: seq<byte>): Volume
    requires LnReady(v, cwd, src, dst)
  {
    var s := FindDir(v, cwd, src);
    if s.found && s.at < NUM_INODES then LinkTo(v, cwd, s.at, dst) else v
  }

  /** ln keeps the invariant: the new name is added at the end of the current directory, for the inode that the
      path leads to, which has one more name and, when it is a file, one more in its count. */
  lemma LnOk(v: Volume, cwd: nat, src: seq<byte>, dst: seq<byte>)
    requires FsOk(v) && LnReady(v, cwd, src, dst)
    ensures FindDir(v, cwd, src).found ==> Live(v, FindDir(v, cwd, src).at)
    ensures var v1 := Ln(v, cwd, src, dst);
      && FsOk(v1) && Lost(v1) == Lost(v)
      && v1.inodeMap == v.inodeMap && v1.blockMap == v.blockMap
      && (forall j: nat, s :: Live(v, j) && IsSlot(s) ==> Ptr(v1, j, s) == Ptr(v, j, s))
      && (!FindDir(v, cwd, src).found ==> v1 == v)
      && (FindDir(v, cwd, src).found ==> var f := FindDir(v, cwd, src).at;
           EntryAdded(v, v1, cwd, FILE, f, dst) &&
           forall g: nat :: Names(v1, g) == Names(v, g) + (if g == f then 1 else 0))
  {
    hide Inv, Lost, Names, LinkTo, DirsOk, LinksOk, DirShape, EntryAdded, Ptr, FindDir, Walkable;
    FindDirEnds(v, cwd, src);
    if FindDir(v, cwd, src).found {
      LinkToOk(v, cwd, FindDir(v, cwd, src).at, dst);
    }
  }

  /** An open or ln keeps the current directory if and only if no name of the path is missing, or the names in
      front of the missing one lead back to it. */
  lemma SearchKeepsDirIff(v: Volume, cwd: nat, absolute: bool, names: seq<seq<byte>>, trailing: bool)
    requires names != [] && (forall j :: 0 <= j < |names| ==> IsPart(names[j]))
    requires Walkable(v, cwd, Path(absolute, names, trailing))
    ensures var at := if absolute then 0 else cwd;
      AfterSearch(v, cwd, Path(absolute, names, trailing)) == cwd <==>
        forall k: nat :: Misses(v, at, names, k) ==> Walk(v, at, names[..k]).at == cwd
  {
    hide Walk, CanWalk, Walkable, FindDir, Path, Found, DirShape;
    FindDirWalks(v, cwd, absolute, names, trailing);
    WalkFails(v, if absolute then 0 else cwd, names);
  }

  /** cd always ends in a directory. */
  lemma CdEnds(v: Volume, cwd: nat, path: seq<byte>)
    requires DirsOk(v) && IsDir(v, cwd) && (path != [] ==> Walkable(v, cwd, path))
    ensures IsDir(v, AfterCd(v, cwd, path))
  {
    if path != [] {
      FindDirEnds(v, cwd, path);
    }
  }

  /** cd goes where the names of its path lead when none of them is missing and the last leads to a directory; in
      every other case the current directory stays. */
  lemma CdGoesIff(v: Volume, cwd: nat, absolute: bool, names: seq<seq<byte>>, trailing: bool)
    requires names != [] && (forall j :: 0 <= j < |names| ==> IsPart(names[j]))
    requires DirsOk(v) && Walkable(v, cwd, Path(absolute, names, trailing))
    ensures var at, after := if absolute then 0 else cwd, AfterCd(v, cwd, Path(absolute, names, trailing));
      CanWalk(v, at, names) &&
      if (forall k: nat :: !Misses(v, at, names, k)) && IsDir(v, Walk(v, at, names).at) then after == Walk(v, at, names).at
      else after == cwd
  {
    hide Walk, CanWalk, Walkable, FindDir, Found, DirShape, Joined, Misses;
    FindDirEnds(v, cwd, Path(absolute, names, trailing));
    FindDirWalks(v, cwd, absolute, names, trailing);
    WalkFails(v, if absolute then 0 else cwd, names);
  }

  /** cd without a name stays, and a lone slash leads to the root. */
  lemma CdNone(v: Volume, cwd: nat)
    requires DirsOk(v)
    ensures AfterCd(v, cwd, []) == cwd && AfterCd(v, cwd, [SLASH]) == 0
  {
  }

  // ---------- New directories ----------

  lemma FindTwo(es: seq<Dentry>, name: seq<byte>)
    requires IsName(name) && |es| == 2
    ensures SameName(es[0].name, name) ==> FindName(es, 0, name) == 0
    ensures !SameName(es[0].name, name) && SameName(es[1].name, name) ==> FindName(es, 0, name) == 1
    ensures !SameName(es[0].name, name) && !SameName(es[1].name, name) ==> FindName(es, 0, name) == 2
  {
  }

  lemma OneString(field: seq<byte>, a: seq<byte>, b: seq<byte>)
    requires IsName(a) && IsName(b) && |field| == NAME_SIZE && SameName(field, a) && SameName(field, b)
    ensures a == b
  {
    assert forall j :: 0 <= j < |a| ==> field[j] == a[j];
    assert forall j :: 0 <= j < |b| ==> field[j] == b[j];
  }

  /** In a directory of only the two dot entries "." leads to itself, ".." to p, and nothing else is found. */
  lemma DotFound(v: Volume, i: nat, p: nat, name: seq<byte>)
    requires DotDir(v, i, p) && IsName(name)
    ensures Found(v, i, name) <==> name == Dot() || name == Dot() + Dot()
    ensures name == Dot() ==> Target(v, i, name) == i
    ensures name == Dot() + Dot() ==> Target(v, i, name) == p
  {
    hide Dentries, DirShape;
    var es := Dentries(v, i);
    FindTwo(es, name);
    if SameName(es[0].name, name) {
      OneString(es[0].name, name, Dot());
    }
    if SameName(es[1].name, name) {
      OneString(es[1].name, name, Dot() + Dot());
    }
  }

  lemma NamedFound(v: Volume, p: nat, name: seq<byte>, i: nat)
    requires IsName(name) && LeadsTo(v, p, name, i)
    ensures DirShape(v, p) && Found(v, p, name) && Target(v, p, name) == i
  {
  }

  lemma FindOne(v: Volume, p: nat, name: seq<byte>, i: nat)
    requires IsDir(v, p) && DirShape(v, p) && IsName(name) && IsPart(name) && |name| < HEAD_SIZE
    requires Found(v, p, name) && Target(v, p, name) == i
    ensures Walkable(v, p, name) && FindDir(v, p, name) == SearchPath(v, p, name) == Search(true, i)
  {
    hide Found, Target, IsDir, DirShape;
    HeadTail(name, []);
  }

  lemma FindTwoNames(v: Volume, p: nat, name: seq<byte>, i: nat, rest: seq<byte>)
    requires IsDir(v, p) && DirShape(v, p) && IsName(name) && IsPart(name) && |name| < HEAD_SIZE && 0 < |rest| < TAIL_SIZE
    requires Found(v, p, name) && Target(v, p, name) == i && Walkable(v, i, rest)
    ensures Walkable(v, p, name + [SLASH] + rest) && FindDir(v, p, name + [SLASH] + rest) == SearchPath(v, i, rest)
  {
    hide Found, Target, IsDir, DirShape;
    HeadTail(name, rest);
  }

  lemma DownAndUp(v: Volume, p: nat, name: seq<byte>, i: nat)
    requires IsDir(v, p) && IsDir(v, i) && IsName(name) && IsPart(name) && |name| < HEAD_SIZE
    requires LeadsTo(v, p, name, i) && DotDir(v, i, p)
    ensures var back := name + [SLASH] + (Dot() + Dot());
      Walkable(v, p, name) && AfterCd(v, p, name) == i && Walkable(v, p, back) && AfterCd(v, p, back) == p
  {
    hide Found, Target, Dentries, FindDir, Walkable;
    NamedFound(v, p, name, i);
    FindOne(v, p, name, i);
    DotFound(v, i, p, Dot() + Dot());
    FindOne(v, i, Dot() + Dot(), p);
    FindTwoNames(v, p, name, i, Dot() + Dot());
  }

  /** From a directory just made, ".." leads back to the directory it was made in. */
  lemma MkdirAndBack(v: Volume, p: nat, name: seq<byte>)
    requires FsOk(v) && HasRoom(v, p) && IsName(name) && IsPart(name) && |name| < HEAD_SIZE && !Found(v, p, name)
    ensures NextInode(v) < NUM_INODES && NextInode(v) != p && v.nodes[p].ino == p
    ensures var v1, back := Mkdir(v, p, name), name + [SLASH] + (Dot() + Dot());
      && Walkable(v1, p, name) && AfterCd(v1, p, name) == NextInode(v)
      && Walkable(v1, p, back) && AfterCd(v1, p, back) == p
  {
    hide FsOk, Lost, Mkdir, Found, Ptr, DotDir, Dentries, DirShape, LeadsTo, AfterCd, Walkable, NextInode;
    MkdirOk(v, p, name);
    DownAndUp(Mkdir(v, p, name), p, name, NextInode(v));
  }

  /** A search in a directory just made for something that is not there ends in it. */
  lemma DownAndLost(v: Volume, p: nat, name: seq<byte>, i: nat, x: seq<byte>)
    requires IsDir(v, p) && IsDir(v, i) && IsName(name) && IsPart(name) && |name| < HEAD_SIZE
    requires IsName(x) && IsPart(x) && |x| < HEAD_SIZE && x != Dot() && x != Dot() + Dot()
    requires LeadsTo(v, p, name, i) && DotDir(v, i, p)
    ensures Walkable(v, p, name + [SLASH] + x) && AfterSearch(v, p, name + [SLASH] + x) == i
  {
    hide Found, Target, Dentries;
    NamedFound(v, p, name, i);
    DotFound(v, i, p, x);
    HeadTail(x, []);
    FindTwoNames(v, p, name, i, x);
  }
}
