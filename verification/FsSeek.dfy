/** What seeking is for: appending behind the end, reading again, and coming back. */
module FsSeek {
  import opened FsLayout
  import opened FsVolume
  import opened FsContent
  import opened FileSystem

  /** v1 is v with data put behind the end of file i, which had u bytes: every byte below u that was there is as
      it was. */
  ghost predicate Appended(v: Volume, v1: Volume, i: nat, u: nat, data: seq<byte>) {
    && i < NUM_INODES && v1.nodes[i].usize == u + |data|
    && (forall x: nat {:trigger Mapped(v1, i, x)} :: u <= x < u + |data| ==> Mapped(v1, i, x) && ByteAt(v1, i, x) == data[x - u])
    && (forall x: nat {:trigger Mapped(v, i, x)} :: x < u && Mapped(v, i, x) ==> Mapped(v1, i, x) && ByteAt(v1, i, x) == ByteAt(v, i, x))
  }

  lemma WrittenAppends(v: Volume, i: nat, u: nat, data: seq<byte>)
    requires u + |data| <= MAX_FILE && Roomy(v, i, Touched(u, |data|))
    ensures i < NUM_INODES && Inv(Written(v, i, u, data)) && Appended(v, Written(v, i, u, data), i, u, data)
  {
    hide Written, Touched, Inv, ByteAt, Mapped;
    WrittenSplices(v, i, u, data);
  }

  /** Seek to the end and write: the data stands behind what the file held, which is as before, and the file is
      longer by just the data. */
  method AppendAtEnd(fs: FileSys, fd: nat, data: seq<byte>) returns (put: int)
    requires fs.formatted && fd < |fs.fds| && fs.fds[fd].ino < NUM_INODES
    requires var u := fs.nodes[fs.fds[fd].ino].usize;
      u + |data| <= MAX_FILE && Roomy(fs.V(), fs.fds[fd].ino, Touched(u, |data|))
    modifies fs
    ensures put == |data| && Inv(fs.V())
    ensures Appended(old(fs.V()), fs.V(), old(fs.fds[fd].ino), old(fs.nodes[fs.fds[fd].ino].usize), data)
    ensures var u := old(fs.nodes[fs.fds[fd].ino].usize);
      fs.fds == old(fs.fds)[fd := old(fs.fds[fd]).(rPtr := u, wPtr := u + |data|)]
  {
    hide Roomy, Touched, Inv, Written, Appended;
    var i := fs.fds[fd].ino;
    ghost var v, u := fs.V(), fs.nodes[i].usize;
    WrittenAppends(v, i, u, data);
    assert data[..|data|] == data;
    fs.DoLseek(fd, 0, SeekEnd);
    put := fs.DoFwrite(fd, data, |data|);
  }

  /** Read, seek back by as much, read: the second read gives the same bytes, and leaves the read pointer where
      the first one did. The write pointer has gone back by n, in 32 bits. */
  method ReadAgain(fs: FileSys, fd: nat, n: nat, once: array<byte>, again: array<byte>) returns (got: int, got1: int)
    requires fs.formatted && fd < |fs.fds| && Inv(fs.V()) && Live(fs.V(), fs.fds[fd].ino)
    requires MappedRange(fs.V(), fs.fds[fd].ino, fs.fds[fd].rPtr, n) && fs.fds[fd].rPtr + n <= MAX_FILE
    requires once != again && n <= once.Length && n <= again.Length
    requires HeadCopy(fs.fds[fd].rPtr, n) <= once.Length && HeadCopy(fs.fds[fd].rPtr, n) <= again.Length
    modifies fs`fds, once, again
    ensures got == n && got1 == n && again[..n] == once[..n]
    ensures fs.fds == old(fs.fds)[fd := old(fs.fds[fd]).(rPtr := old(fs.fds[fd].rPtr) + n, wPtr := (old(fs.fds[fd].wPtr) - n) % 0x1_0000_0000)]
  {
    hide Inv, Holds, MappedRange;
    ghost var v, i, p := fs.V(), fs.fds[fd].ino, fs.fds[fd].rPtr;
    got := fs.DoFread(fd, once, n);
    fs.DoLseek(fd, 0 - n, SeekCur);
    got1 := fs.DoFread(fd, again, n);
    HoldsOnce(v, i, p, once[..n], again[..n]);
  }

  lemma HoldsOnce(v: Volume, i: nat, p: nat, a: seq<byte>, b: seq<byte>)
    requires Holds(v, i, p, a) && Holds(v, i, p, b) && |a| == |b|
    ensures a == b
  {
    hide ByteAt;
  }

  /** Seeking by k and then by -k changes nothing, wherever the pointers are and wherever k leads. */
  method ThereAndBack(fs: FileSys, fd: nat, k: int)
    requires fd < |fs.fds| && (fs.formatted ==> fs.fds[fd].ino < NUM_INODES)
    requires fs.fds[fd].rPtr < 0x1_0000_0000 && fs.fds[fd].wPtr < 0x1_0000_0000
    modifies fs`fds
    ensures fs.fds == old(fs.fds)
  {
    fs.DoLseek(fd, k, SeekCur);
    fs.DoLseek(fd, -k, SeekCur);
  }

  /** Where the three ways of seeking lead: to the offset, that much on, and that much behind the end; the two
      pointers keep their distance only with the second. */
  method SeekLands(fs: FileSys, fd: nat, offset: int, mode: Whence)
    requires fs.formatted && fd < |fs.fds| && fs.fds[fd].ino < NUM_INODES
    modifies fs`fds
    ensures |fs.fds| == |old(fs.fds)| && fs.fds[fd].ino == old(fs.fds[fd].ino) && fs.fds[fd].access == old(fs.fds[fd].access)
    ensures forall j :: 0 <= j < |fs.fds| && j != fd ==> fs.fds[j] == old(fs.fds)[j]
    ensures fs.fds[fd].rPtr < 0x1_0000_0000 && fs.fds[fd].wPtr < 0x1_0000_0000
    ensures mode.SeekSet? && 0 <= offset < 0x1_0000_0000 ==> fs.fds[fd].rPtr == fs.fds[fd].wPtr == offset
    ensures mode.SeekCur? && 0 <= old(fs.fds[fd].rPtr) + offset < 0x1_0000_0000 ==> fs.fds[fd].rPtr - old(fs.fds[fd].rPtr) == offset
    ensures mode.SeekCur? && 0 <= old(fs.fds[fd].wPtr) + offset < 0x1_0000_0000 ==> fs.fds[fd].wPtr - old(fs.fds[fd].wPtr) == offset
    ensures mode.SeekEnd? && 0 <= fs.nodes[fs.fds[fd].ino].usize + offset < 0x1_0000_0000 ==>
      fs.fds[fd].rPtr == fs.fds[fd].wPtr && fs.fds[fd].wPtr - fs.nodes[fs.fds[fd].ino].usize == offset
  {
    fs.DoLseek(fd, offset, mode);
  }
}
