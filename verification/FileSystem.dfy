/** The file system's state and its data path: block allocation, write, read and seek. */
module FileSystem {
  import opened FsLayout
  import opened FsVolume
  import opened FsContent

  datatype Fd = Fd(ino: nat, access: nat, rPtr: nat, wPtr: nat)

  datatype Whence = SeekSet | SeekCur | SeekEnd

  /** The byte of a file that stands at offset o in sector s of the block of entry e of table t. */
  function EntryByte(t: nat, e: nat, s: nat, o: nat): (x: nat)
    requires t < 2 && e < TABLE_ENTRIES && s < 8 && o < SECTOR_SIZE
    ensures x < MAX_FILE && x % SECTOR_SIZE == o
  {
    DIRECT_BYTES + TABLE_BYTES * t + BLOCK_SIZE * e + SECTOR_SIZE * s + o
  }

  /** The volume on the SD card, the table of open files and the current directory. */
  class FileSys {
    var formatted: bool
    var d: Disk
    var blockMap: BlockMap
    var inodeMap: InodeMap
    var nodes: InodeTable
    var fds: seq<Fd>
    var cwd: nat

    ghost function V(): Volume
      reads this
    {
      Volume(d, blockMap, inodeMap, nodes)
    }

    /** Finds the lowest clear bit of the block map and sets it; 0 when there is none. */
    method AllocDataBlock() returns (fb: nat)
      modifies this`blockMap
      ensures fb == FirstClear(old(blockMap), 0)
      ensures blockMap == if Bit(old(blockMap), fb) then old(blockMap) else SetBit(old(blockMap), fb)
    {
      hide HasBit, Raise, Bit, SetBit;
      for i := 0 to |blockMap|
        invariant blockMap == old(blockMap)
        invariant FirstClear(blockMap, 0) == FirstClear(blockMap, 8 * i)
        invariant i > 0 ==> Bit(blockMap, 0)
      {
        for j := 0 to 8
          invariant blockMap == old(blockMap)
          invariant FirstClear(blockMap, 0) == FirstClear(blockMap, 8 * i + j)
          invariant i + j > 0 ==> Bit(blockMap, 0)
        {
          BitOf(blockMap, i, j);
          if !HasBit(blockMap[i], j) {
            fb := 8 * i + j;
            blockMap := blockMap[i := Raise(blockMap[i], j)];
            return;
          }
        }
      }
      return 0;
    }

    method EnsureDirect(i0: nat, k: nat, ghost S: set<Slot>)
      requires Roomy(V(), i0, S) && k < NUM_DIRECT && Direct(k) in S
      modifies this`blockMap, this`nodes
      ensures V() == DirectReady(old(V()), i0, k)
    {
      if nodes[i0].direct[k] == 0 {
        FreeBlockThere(V(), i0, Direct(k), S);
        var b := AllocDataBlock();
        nodes := nodes[i0 := WithDirect(nodes[i0], k, b)];
      }
    }

    /** A fresh table block is cleared on the card before it is used. */
    method EnsureTable(i0: nat, t: nat, ghost S: set<Slot>)
      requires Roomy(V(), i0, S) && t < NUM_LEV1 && Lev1(t) in S
      modifies this`blockMap, this`nodes, this`d
      ensures V() == TableReady(old(V()), i0, t)
    {
      if nodes[i0].lev1[t] == 0 {
        FreeBlockThere(V(), i0, Lev1(t), S);
        var b := AllocDataBlock();
        nodes := nodes[i0 := WithLev1(nodes[i0], t, b)];
        var clear := seq<Sector>(8, _ => ZeroSector());
        d := PutBlock(d, b, clear);
      }
    }

    /** lev1 is the copy in memory of table t; it is kept equal to the table on the card. */
    method EnsureEntry(i0: nat, t: nat, e: nat, lev1: Table, ghost S: set<Slot>)
      returns (lev1': Table)
      requires Roomy(V(), i0, S) && t < NUM_LEV1 && e < TABLE_ENTRIES && Entry(t, e) in S
      requires 0 < nodes[i0].lev1[t] < NUM_BLOCKS && lev1 == ReadTable(d, nodes[i0].lev1[t])
      modifies this`blockMap, this`d
      ensures V() == EntryReady(old(V()), i0, t, e)
      ensures lev1' == ReadTable(d, nodes[i0].lev1[t])
    {
      var c := nodes[i0].lev1[t];
      lev1' := lev1;
      if lev1[e] == 0 {
        FreeBlockThere(V(), i0, Entry(t, e), S);
        var b := AllocDataBlock();
        lev1' := lev1[e := b];
        d := WriteTable(d, c, lev1');
        lev1' := ReadTable(d, c);
      }
    }

    /** Reads sector q, copies data into it at offset o, and writes it back. */
    method WriteSector(q: nat, o: nat, data: seq<byte>)
      requires q < NUM_SECTORS && o + |data| <= SECTOR_SIZE
      modifies this`d
      ensures V() == PutSector(old(V()), q, Patch(old(d)[q], o, data))
    {
      d := d[q := Patch(d[q], o, data)];
    }

    /** Writes part at offset o of sector s of direct block k, which is allocated on demand. */
    method WriteDirectSector(ino: nat, k: nat, s: nat, o: nat, part: seq<byte>, ghost S: set<Slot>)
      requires ino < NUM_INODES && Roomy(V(), ino, S) && k < NUM_DIRECT && s < 8 && Direct(k) in S
      requires o < SECTOR_SIZE && o + |part| <= SECTOR_SIZE
      modifies this`blockMap, this`nodes, this`d
      ensures V() == Step(old(V()), ino, BLOCK_SIZE * k + SECTOR_SIZE * s + o, part)
    {
      hide Roomy, DirectReady;
      ghost var v, x := V(), BLOCK_SIZE * k + SECTOR_SIZE * s + o;
      BlockPosition(k, s, o);
      EnsureDirect(ino, k, S);
      DirectReadyInRange(v, ino, k, S);
      WriteSector(nodes[ino].direct[k] * 8 + s, o, part);
    }

    /** Writes part at offset o of sector s of the block in entry e of table t, allocated on demand. */
    method WriteTableSector(ino: nat, t: nat, e: nat, s: nat, o: nat, lev1: Table, part: seq<byte>, ghost S: set<Slot>)
      returns (lev1': Table)
      requires ino < NUM_INODES && Roomy(V(), ino, S) && t < 2 && e < TABLE_ENTRIES && s < 8 && Entry(t, e) in S
      requires o < SECTOR_SIZE && o + |part| <= SECTOR_SIZE
      requires 0 < nodes[ino].lev1[t] < NUM_BLOCKS && lev1 == ReadTable(d, nodes[ino].lev1[t])
      modifies this`blockMap, this`d
      ensures V() == Step(old(V()), ino, EntryByte(t, e, s, o), part)
      ensures lev1' == ReadTable(d, nodes[ino].lev1[t])
    {
      hide Roomy, EntryReady, FillLev1, EntryAt;
      ghost var v, x := V(), EntryByte(t, e, s, o);
      TablePosition(t, e, s, o);
      assert TableReady(v, ino, t) == v;
      lev1' := EnsureEntry(ino, t, e, lev1, S);
      EntryReadyInRange(v, ino, t, e, S);
      ghost var v1 := V();
      WriteSector(lev1'[e] * 8 + s, o, part);
      StoreKeepsTable(v1, ino, t, e, lev1'[e] * 8 + s, d[lev1'[e] * 8 + s], S);
    }

    /** The unaligned head of a write: the part of buff that falls into the sector of wPtr. */
    method WriteHead(ino: nat, wPtr: nat, part: seq<byte>, ghost S: set<Slot>)
      requires ino < NUM_INODES && Roomy(V(), ino, S) && wPtr < MAX_FILE && wPtr % SECTOR_SIZE + |part| <= SECTOR_SIZE
      requires DataSlot(wPtr / BLOCK_SIZE) in S
      requires wPtr / BLOCK_SIZE >= NUM_DIRECT ==> TableSlot(wPtr / BLOCK_SIZE) in S
      modifies this`blockMap, this`nodes, this`d
      ensures V() == Step(old(V()), ino, wPtr, part)
    {
      hide Step, Wrote, Roomy, Touched, TableReady, Covers;
      if wPtr < DIRECT_BYTES {
        DirectPosition(wPtr);
        WriteDirectSector(ino, wPtr / 4096, (wPtr / 512) % 8, wPtr % 512, part, S);
      } else {
        var wPos := wPtr - 40960;
        var t := wPos / TABLE_BYTES;
        ghost var v := V();
        TableReadyThere(v, ino, t, S);
        EnsureTable(ino, t, S);
        var level1 := ReadTable(d, nodes[ino].lev1[t]);
        var wPos1 := wPos % TABLE_BYTES;
        HeadPosition(wPtr);
        StepAfterTable(v, ino, wPtr, part);
        level1 := WriteTableSector(ino, t, wPos1 / 4096, (wPos1 / 512) % 8, wPtr % 512, level1, part, S);
      }
    }

    /** The loop over the sectors that direct pointers reach.  i is the next sector of the file; the last
        sz of size bytes of buff are still to be written. */
    method WriteDirectRun(ino: nat, buff: seq<byte>, size: nat, i0: nat, sz0: nat, ghost p: nat, ghost S: set<Slot>)
      returns (i: nat, sz: nat)
      requires ino < NUM_INODES && p + size <= MAX_FILE && Roomy(V(), ino, S) && size <= |buff| && sz0 <= size && Covers(S, p, size)
      requires sz0 > 0 ==> p + (size - sz0) == SECTOR_SIZE * i0
      modifies this`blockMap, this`nodes, this`d
      ensures sz <= sz0 && (sz == 0 || i >= 80) && (i == i0 || i <= 80)
      ensures sz > 0 ==> p + (size - sz) == SECTOR_SIZE * i
      ensures Roomy(V(), ino, S)
      ensures WriteBytes(old(V()), ino, p + (size - sz0), buff[size - sz0..size]) ==
              WriteBytes(V(), ino, p + (size - sz), buff[size - sz..size])
    {
      hide Step, Wrote, Roomy, Touched, TableReady, Covers, WriteBytes;
      i, sz := i0, sz0;
      ghost var v := V();
      while i < 80 && sz > 0
        invariant sz <= sz0 && (i == i0 || i <= 80)
        invariant sz > 0 ==> p + (size - sz) == SECTOR_SIZE * i
        invariant Roomy(V(), ino, S)
        invariant WriteBytes(v, ino, p + (size - sz0), buff[size - sz0..size]) ==
                  WriteBytes(V(), ino, p + (size - sz), buff[size - sz..size])
      {
        var acSize := if sz > SECTOR_SIZE then SECTOR_SIZE else sz;
        var part := buff[size - sz..size - sz + acSize];
        NextChunk(V(), ino, buff, size, sz, i, part, p, S);
        WriteDirectSector(ino, i / 8, i % 8, 0, part, S);
        sz := sz - acSize;
        i := i + 1;
      }
    }

    /** The loop over the sectors that table t reaches, which start at sector 80 + 8192 * t. */
    method WriteTableRun(ino: nat, t: nat, buff: seq<byte>, size: nat, i0: nat, sz0: nat, ghost p: nat, ghost S: set<Slot>)
      returns (i: nat, sz: nat)
      requires ino < NUM_INODES && p + size <= MAX_FILE && Roomy(V(), ino, S) && size <= |buff| && 0 < sz0 <= size && Covers(S, p, size) && t < 2
      requires p + (size - sz0) == SECTOR_SIZE * i0
      requires 80 + 8192 * t <= i0 < 80 + 8192 * (t + 1)
      modifies this`blockMap, this`nodes, this`d
      ensures i0 <= i <= 80 + 8192 * (t + 1) && sz <= sz0 && (sz == 0 || i == 80 + 8192 * (t + 1))
      ensures sz > 0 ==> p + (size - sz) == SECTOR_SIZE * i
      ensures Roomy(V(), ino, S)
      ensures WriteBytes(old(V()), ino, p + (size - sz0), buff[size - sz0..size]) ==
              WriteBytes(V(), ino, p + (size - sz), buff[size - sz..size])
    {
      hide Step, Wrote, Roomy, Touched, TableReady, Covers, WriteBytes, ReadTable;
      i, sz := i0, sz0;
      ghost var v := V();
      TableFirst(v, ino, t, i0, buff, size, sz0, p, S);
      EnsureTable(ino, t, S);
      var lev1 := ReadTable(d, nodes[ino].lev1[t]);
      while i < 80 + 8192 * (t + 1) && sz > 0
        invariant i0 <= i <= 80 + 8192 * (t + 1) && sz <= sz0
        invariant sz > 0 ==> p + (size - sz) == SECTOR_SIZE * i
        invariant Roomy(V(), ino, S)
        invariant 0 < nodes[ino].lev1[t] < NUM_BLOCKS && lev1 == ReadTable(d, nodes[ino].lev1[t])
        invariant WriteBytes(v, ino, p + (size - sz0), buff[size - sz0..size]) ==
                  WriteBytes(V(), ino, p + (size - sz), buff[size - sz..size])
      {
        var j := i - (80 + 8192 * t);
        var acSize := if sz > SECTOR_SIZE then SECTOR_SIZE else sz;
        var part := buff[size - sz..size - sz + acSize];
        NextChunk(V(), ino, buff, size, sz, i, part, p, S);
        LoopPosition(t, i);
        lev1 := WriteTableSector(ino, t, j / 8, j % 8, 0, lev1, part, S);
        sz := sz - acSize;
        i := i + 1;
      }
    }

    /** Sectors that lie wholly inside the range: direct pointers first, then the two tables. */
    method WriteRuns(ino: nat, buff: seq<byte>, size: nat, i0: nat, sz0: nat, ghost p: nat, ghost S: set<Slot>)
      requires ino < NUM_INODES && p + size <= MAX_FILE && Roomy(V(), ino, S) && Covers(S, p, size)
      requires size <= |buff| && sz0 <= size
      requires sz0 > 0 ==> p + (size - sz0) == SECTOR_SIZE * i0
      modifies this`blockMap, this`nodes, this`d
      ensures V() == WriteBytes(old(V()), ino, p + (size - sz0), buff[size - sz0..size])
    {
      hide Step, Wrote, Roomy, Touched, Covers, WriteBytes;
      var i, sz := WriteDirectRun(ino, buff, size, i0, sz0, p, S);
      if i >= 80 && sz > 0 && i < 8272 {
        i, sz := WriteTableRun(ino, 0, buff, size, i, sz, p, S);
      }
      if i >= 8272 && sz > 0 {
        i, sz := WriteTableRun(ino, 1, buff, size, i, sz, p, S);
      }
      assert buff[size - sz..size] == [];
      WriteBytesNone(V(), ino, p + (size - sz));
    }

    /** The last steps of a write: the write pointer moves and becomes the file size. */
    method Finish(fd: nat, ino: nat, size: nat)
      requires fd < |fds| && ino < NUM_INODES
      modifies this`nodes, this`fds
      ensures fds == old(fds)[fd := old(fds[fd]).(wPtr := old(fds[fd].wPtr) + size)]
      ensures V() == PutNode(old(V()), ino, old(nodes[ino]).(usize := old(fds[fd].wPtr) + size))
    {
      fds := fds[fd := fds[fd].(wPtr := fds[fd].wPtr + size)];
      nodes := nodes[ino := nodes[ino].(usize := fds[fd].wPtr)];
    }

    /** Writes the first size bytes of buff at the write pointer of fd. */
    method DoFwrite(fd: nat, buff: seq<byte>, size: nat) returns (r: int)
      requires fd < |fds| && size <= |buff|
      requires formatted ==> fds[fd].wPtr + size <= MAX_FILE && fds[fd].ino < NUM_INODES
      requires formatted ==> Roomy(V(), fds[fd].ino, Touched(fds[fd].wPtr, size))
      modifies this`blockMap, this`nodes, this`d, this`fds
      ensures !old(formatted) ==> r == -1 && V() == old(V()) && fds == old(fds)
      ensures old(formatted) ==> r == size
      ensures old(formatted) ==> fds == old(fds)[fd := old(fds[fd]).(wPtr := old(fds[fd].wPtr) + size)]
      ensures old(formatted) ==>
        V() == Written(old(V()), old(fds[fd].ino), old(fds[fd].wPtr), buff[..size])
    {
      hide Step, Wrote, Roomy, Touched, Covers, WriteFile, WriteBytes;
      if !formatted {
        return -1;
      }
      var ino, wPtr := fds[fd].ino, fds[fd].wPtr;
      ghost var v, S := V(), Touched(wPtr, size);
      TouchedCovers(wPtr, size);
      var sz := size;
      if wPtr % SECTOR_SIZE != 0 {
        var room := SECTOR_SIZE - wPtr % SECTOR_SIZE;
        HeadCovered(S, wPtr, size);
        if size > room {
          HeadChunk(v, ino, wPtr, buff, size, room, S);
          WriteHead(ino, wPtr, buff[..room], S);
          sz := sz - room;
        } else {
          HeadIsAll(v, ino, wPtr, buff[..size]);
          WriteHead(ino, wPtr, buff[..size], S);
          Finish(fd, ino, size);
          return size;
        }
      } else {
        WriteFileAligned(v, ino, wPtr, buff[..size]);
      }
      assert buff[0..size] == buff[..size];
      WriteRuns(ino, buff, size, (wPtr + 511) / 512, sz, wPtr, S);
      Finish(fd, ino, size);
      return size;
    }

    /** Reads sector q and copies n bytes from offset o of it to buff[off..]. */
    method CopyOut(buff: array<byte>, off: nat, q: nat, o: nat, n: nat)
      requires q < NUM_SECTORS && o + n <= SECTOR_SIZE && off + n <= buff.Length
      modifies buff
      ensures forall k :: 0 <= k < buff.Length ==>
        buff[k] == if off <= k < off + n then d[q][o + (k - off)] else old(buff[k])
    {
      var rBuff := d[q];
      for m := 0 to n
        invariant forall k :: 0 <= k < buff.Length ==>
          buff[k] == if off <= k < off + m then rBuff[o + (k - off)] else old(buff[k])
      {
        buff[off + m] := rBuff[o + m];
      }
    }

    /** Copies from the sector of byte x to buff[x - p..]; bytes p..x are already there. */
    method CopyPart(buff: array<byte>, ino: nat, p: nat, x: nat, q: nat, n: nat)
      requires ino < NUM_INODES && p <= x && x < MAX_FILE && x % SECTOR_SIZE + n <= SECTOR_SIZE && x - p + n <= buff.Length
      requires FileBlock(V(), ino, x / BLOCK_SIZE) < NUM_BLOCKS && q == SectorOf(V(), ino, x)
      requires Holds(V(), ino, p, buff[..x - p])
      modifies buff
      ensures Holds(V(), ino, p, buff[..x - p + n])
      ensures forall k :: x - p + n <= k < buff.Length ==> buff[k] == old(buff[k])
    {
      SectorBytes(V(), ino, x, n);
      CopyOut(buff, x - p, q, x % SECTOR_SIZE, n);
      forall k | 0 <= k < x - p + n
        ensures p + k < MAX_FILE && buff[k] == ByteAt(V(), ino, p + k)
      {
        if k < x - p {
          assert old(buff[..x - p])[k] == old(buff[k]);
        } else {
          assert p + k == x + (k - (x - p));
        }
      }
    }

    /** The unaligned head of a read; returns how many bytes it copied. */
    method ReadHead(buff: array<byte>, ino: nat, rPtr: nat, size: nat) returns (n: nat)
      requires Inv(V()) && Live(V(), ino) && Mapped(V(), ino, rPtr)
      requires rPtr % SECTOR_SIZE != 0 && buff.Length >= HeadCopy(rPtr, size)
      modifies buff
      ensures n == HeadCopy(rPtr, size)
      ensures Holds(V(), ino, rPtr, buff[..n])
      ensures forall k :: n <= k < buff.Length ==> buff[k] == old(buff[k])
    {
      hide Inv, Holds, ByteAt, SectorOf, FileBlock;
      var room := SECTOR_SIZE - rPtr % SECTOR_SIZE;
      MappedInRange(V(), ino, rPtr);
      HeadSector(V(), ino, rPtr);
      HoldsNone(V(), ino, rPtr, buff);
      if rPtr < DIRECT_BYTES {
        n := if size > room then room else size;
        CopyPart(buff, ino, rPtr, rPtr, nodes[ino].direct[rPtr / 4096] * 8 + (rPtr / 512) % 8, n);
      } else {
        var pos := rPtr - 40960;
        var lev1 := ReadTable(d, nodes[ino].lev1[pos / TABLE_BYTES]);
        var pos1 := pos % TABLE_BYTES;
        n := room;
        CopyPart(buff, ino, rPtr, rPtr, lev1[pos1 / 4096] * 8 + (pos1 / 512) % 8, n);
      }
    }

    /** One of the three sector loops; t is None for direct pointers and names the table otherwise. */
    method ReadRun(buff: array<byte>, ino: nat, p: nat, size: nat, t: Option<nat>, i0: nat, sz0: nat)
      returns (i: nat, sz: nat)
      requires Inv(V()) && Live(V(), ino) && MappedRange(V(), ino, p, size) && sz0 <= size <= buff.Length
      requires t.Some? ==> t.value < 2 && 80 + 8192 * t.value <= i0 < 80 + 8192 * (t.value + 1) && sz0 > 0
      requires sz0 > 0 ==> p + (size - sz0) == SECTOR_SIZE * i0
      requires Holds(V(), ino, p, buff[..size - sz0])
      modifies buff
      ensures sz <= sz0 && (sz == 0 || i >= RunEnd(t)) && (i == i0 || i <= RunEnd(t))
      ensures sz > 0 ==> p + (size - sz) == SECTOR_SIZE * i
      ensures Holds(V(), ino, p, buff[..size - sz])
      ensures forall k :: size <= k < buff.Length ==> buff[k] == old(buff[k])
    {
      hide Inv, Holds, MappedRange, ReadTable, EntryAt, SectorOf, FileBlock;
      i, sz := i0, sz0;
      var lev1 := seq<nat>(TABLE_ENTRIES, _ => 0);
      if t.Some? {
        MappedSector(V(), ino, p, size, sz, i);
        LoopPosition(t.value, i);
        lev1 := ReadTable(d, nodes[ino].lev1[t.value]);
      }
      while i < RunEnd(t) && sz > 0
        invariant sz <= sz0 && (i == i0 || i <= RunEnd(t)) && i0 <= i
        invariant sz > 0 ==> p + (size - sz) == SECTOR_SIZE * i
        invariant Holds(V(), ino, p, buff[..size - sz])
        invariant forall k :: size <= k < buff.Length ==> buff[k] == old(buff[k])
        invariant V() == old(V())
      {
        MappedSector(V(), ino, p, size, sz, i);
        var acSize := if sz > SECTOR_SIZE then SECTOR_SIZE else sz;
        var q;
        if t.Some? {
          var j := i - (80 + 8192 * t.value);
          LoopSector(V(), ino, t.value, i);
          q := lev1[j / 8] * 8 + j % 8;
        } else {
          DirectSector(V(), ino, i);
          q := nodes[ino].direct[i / 8] * 8 + i % 8;
        }
        CopyPart(buff, ino, p, SECTOR_SIZE * i, q, acSize);
        sz := sz - acSize;
        i := i + 1;
      }
    }

    method ReadRuns(buff: array<byte>, ino: nat, p: nat, size: nat, i0: nat, sz0: nat) returns (sz: nat)
      requires Inv(V()) && Live(V(), ino) && MappedRange(V(), ino, p, size) && sz0 <= size <= buff.Length
      requires sz0 > 0 ==> p + (size - sz0) == SECTOR_SIZE * i0
      requires Holds(V(), ino, p, buff[..size - sz0])
      modifies buff
      ensures sz == 0 && Holds(V(), ino, p, buff[..size])
      ensures forall k :: size <= k < buff.Length ==> buff[k] == old(buff[k])
    {
      hide Inv, Holds, MappedRange;
      var i;
      i, sz := ReadRun(buff, ino, p, size, None, i0, sz0);
      if i >= 80 && sz > 0 && i < 8272 {
        i, sz := ReadRun(buff, ino, p, size, Some(0), i, sz);
      }
      if sz > 0 {
        MappedSector(V(), ino, p, size, sz, i);
      }
      if i >= 8272 && sz > 0 {
        i, sz := ReadRun(buff, ino, p, size, Some(1), i, sz);
      }
      if sz > 0 {
        MappedSector(V(), ino, p, size, sz, i);
        assert false;
      }
    }

    /** Reads size bytes at the read pointer of fd into buff. */
    method DoFread(fd: nat, buff: array<byte>, size: nat) returns (r: int)
      requires fd < |fds| && size <= buff.Length
      requires formatted ==> Inv(V()) && Live(V(), fds[fd].ino) && MappedRange(V(), fds[fd].ino, fds[fd].rPtr, size)
      requires formatted && fds[fd].rPtr % SECTOR_SIZE != 0 ==> buff.Length >= HeadCopy(fds[fd].rPtr, size)
      modifies buff, this`fds
      ensures !formatted ==> r == -1 && fds == old(fds) && buff[..] == old(buff[..])
      ensures formatted ==> r == size
      ensures formatted ==> fds == old(fds)[fd := old(fds[fd]).(rPtr := old(fds[fd].rPtr) + size)]
      ensures formatted ==> Holds(V(), old(fds[fd].ino), old(fds[fd].rPtr), buff[..size])
      ensures formatted ==>
        var n := if old(fds[fd].rPtr) % SECTOR_SIZE != 0 then HeadCopy(old(fds[fd].rPtr), size) else 0;
        forall k :: size <= k < buff.Length && n <= k ==> buff[k] == old(buff[k])
    {
      hide Inv, Holds;
      if !formatted {
        return -1;
      }
      var ino, rPtr := fds[fd].ino, fds[fd].rPtr;
      var sz := size;
      if rPtr % SECTOR_SIZE != 0 {
        var n := ReadHead(buff, ino, rPtr, size);
        if size <= SECTOR_SIZE - rPtr % SECTOR_SIZE {
          fds := fds[fd := fds[fd].(rPtr := fds[fd].rPtr + size)];
          HoldsPrefix(V(), ino, rPtr, buff[..size], buff[..n]);
          return size;
        }
        sz := sz - n;
      } else {
        HoldsNone(V(), ino, rPtr, buff);
      }
      assert buff[..0] == [];
      sz := ReadRuns(buff, ino, rPtr, size, (rPtr + 511) / 512, sz);
      fds := fds[fd := fds[fd].(rPtr := fds[fd].rPtr + size)];
      return size - sz;
    }

    method DoLseek(fd: nat, offset: int, mode: Whence)
      requires fd < |fds| && (formatted ==> fds[fd].ino < NUM_INODES)
      modifies this`fds
      ensures !formatted ==> fds == old(fds)
      ensures formatted ==> fds == old(fds)[fd := Seek(old(fds[fd]), nodes[old(fds[fd].ino)].usize, offset, mode)]
    {
      if !formatted {
        return;
      }
      var f := fds[fd];
      match mode
      case SeekSet =>
        fds := fds[fd := f.(rPtr := U32(offset), wPtr := U32(offset))];
      case SeekCur =>
        fds := fds[fd := f.(rPtr := U32(f.rPtr + offset), wPtr := U32(f.wPtr + offset))];
      case SeekEnd =>
        var u := nodes[f.ino].usize;
        fds := fds[fd := f.(rPtr := U32(u + offset), wPtr := U32(u + offset))];
    }
  }

  /** Storing an int into a 32-bit unsigned field. */
  function U32(x: int): nat {
    x % 0x1_0000_0000
  }

  function Seek(f: Fd, usize: nat, offset: int, mode: Whence): Fd {
    var base := match mode case SeekSet => (0, 0) case SeekCur => (f.rPtr, f.wPtr) case SeekEnd => (usize, usize);
    f.(rPtr := U32(base.0 + offset), wPtr := U32(base.1 + offset))
  }

  datatype Option<+T> = None | Some(value: T)

  /** The sector number at which a loop stops. */
  function RunEnd(t: Option<nat>): nat {
    match t
    case None => 80
    case Some(k) => 80 + 8192 * (k + 1)
  }

  /** Bytes copied by the unaligned head: behind the direct pointers always up to the end of the sector. */
  function HeadCopy(p: nat, n: nat): nat {
    var room := SECTOR_SIZE - p % SECTOR_SIZE;
    if p >= DIRECT_BYTES || n > room then room else n
  }

  /** bs is what file i holds from byte p on. */
  ghost predicate Holds(v: Volume, i: nat, p: nat, bs: seq<byte>) {
    && i < NUM_INODES && (bs == [] || p + |bs| <= MAX_FILE)
    && forall k :: 0 <= k < |bs| ==> bs[k] == ByteAt(v, i, p + k)
  }

  /** No hole in [p, p + n), nor under an unaligned p. */
  ghost predicate MappedRange(v: Volume, i: nat, p: nat, n: nat) {
    i < NUM_INODES && (forall x: nat :: p <= x < p + n ==> Mapped(v, i, x)) && (p % SECTOR_SIZE != 0 ==> Mapped(v, i, p))
  }

  lemma SectorInBlock(x: nat)
    requires x >= DIRECT_BYTES
    ensures (x / SECTOR_SIZE) % 8 == (((x - DIRECT_BYTES) % TABLE_BYTES) / 512) % 8
  {
    var pos := x - DIRECT_BYTES;
    assert x / 512 == 80 + pos / 512;
    assert pos / 512 == 8192 * (pos / TABLE_BYTES) + (pos % TABLE_BYTES) / 512;
  }

  lemma HoldsPrefix(v: Volume, i: nat, p: nat, a: seq<byte>, b: seq<byte>)
    requires Holds(v, i, p, b) && a <= b
    ensures Holds(v, i, p, a)
  {
    hide ByteAt;
    forall k | 0 <= k < |a|
      ensures a[k] == ByteAt(v, i, p + k)
    {
      assert b[k] == a[k];
    }
  }

  lemma HeadSector(v: Volume, i: nat, x: nat)
    requires Inv(v) && Live(v, i) && Mapped(v, i, x)
    ensures FileBlock(v, i, x / BLOCK_SIZE) < NUM_BLOCKS
    ensures x < DIRECT_BYTES ==> v.nodes[i].direct[x / 4096] * 8 + (x / 512) % 8 == SectorOf(v, i, x)
    ensures x >= DIRECT_BYTES ==>
      var pos := x - DIRECT_BYTES; var pos1 := pos % TABLE_BYTES; var b := v.nodes[i].lev1[pos / TABLE_BYTES];
      0 < b < NUM_BLOCKS && ReadTable(v.d, b)[pos1 / 4096] * 8 + (pos1 / 512) % 8 == SectorOf(v, i, x)
  {
    MappedInRange(v, i, x);
    hide Inv;
    if x >= DIRECT_BYTES {
      HeadPosition(x);
      SectorInBlock(x);
    }
  }

  lemma HoldsNone(v: Volume, i: nat, p: nat, buff: array<byte>)
    requires i < NUM_INODES
    ensures Holds(v, i, p, buff[..0]) && buff[..0] == buff[..p - p]
  {
  }

  lemma MappedInRange(v: Volume, i: nat, x: nat)
    requires Inv(v) && Live(v, i) && Mapped(v, i, x)
    ensures FileBlock(v, i, x / BLOCK_SIZE) < NUM_BLOCKS
    ensures x >= DIRECT_BYTES ==>
      0 < v.nodes[i].lev1[(x - DIRECT_BYTES) / TABLE_BYTES] < NUM_BLOCKS
  {
    assert Owns(v, i, DataSlot(x / BLOCK_SIZE), FileBlock(v, i, x / BLOCK_SIZE));
    if x >= DIRECT_BYTES {
      HeadPosition(x);
    }
  }

  lemma MappedSector(v: Volume, i: nat, p: nat, size: nat, sz: nat, k: nat)
    requires Inv(v) && Live(v, i) && MappedRange(v, i, p, size) && 0 < sz <= size && p + (size - sz) == SECTOR_SIZE * k
    ensures SECTOR_SIZE * k < MAX_FILE && FileBlock(v, i, k / 8) < NUM_BLOCKS
    ensures SECTOR_SIZE * k / BLOCK_SIZE == k / 8 && (SECTOR_SIZE * k / SECTOR_SIZE) % 8 == k % 8
    ensures SectorOf(v, i, SECTOR_SIZE * k) == FileBlock(v, i, k / 8) * 8 + k % 8
    ensures k >= 80 ==> 0 < v.nodes[i].lev1[(k - 80) / 8192] < NUM_BLOCKS
  {
    var x := SECTOR_SIZE * k;
    assert x / BLOCK_SIZE == k / 8;
    assert Mapped(v, i, x);
    MappedInRange(v, i, x);
    if k >= 80 {
      assert x - DIRECT_BYTES == SECTOR_SIZE * (k - 80);
      assert (x - DIRECT_BYTES) / TABLE_BYTES == (k - 80) / 8192;
    }
  }

  lemma LoopSector(v: Volume, ino: nat, t: nat, i: nat)
    requires ino < NUM_INODES && t < 2 && 80 + 8192 * t <= i < 80 + 8192 * (t + 1)
    requires 0 < v.nodes[ino].lev1[t] < NUM_BLOCKS && FileBlock(v, ino, i / 8) < NUM_BLOCKS
    ensures SECTOR_SIZE * i < MAX_FILE && SECTOR_SIZE * i / BLOCK_SIZE == i / 8
    ensures var j := i - (80 + 8192 * t);
      ReadTable(v.d, v.nodes[ino].lev1[t])[j / 8] * 8 + j % 8 == SectorOf(v, ino, SECTOR_SIZE * i)
  {
    LoopPosition(t, i);
    assert SECTOR_SIZE * i / BLOCK_SIZE == i / 8 && (SECTOR_SIZE * i / SECTOR_SIZE) % 8 == i % 8;
  }

  lemma DirectSector(v: Volume, ino: nat, i: nat)
    requires ino < NUM_INODES && i < 80 && FileBlock(v, ino, i / 8) < NUM_BLOCKS
    ensures SECTOR_SIZE * i / BLOCK_SIZE == i / 8
    ensures v.nodes[ino].direct[i / 8] * 8 + i % 8 == SectorOf(v, ino, SECTOR_SIZE * i)
  {
    assert SECTOR_SIZE * i / BLOCK_SIZE == i / 8 && (SECTOR_SIZE * i / SECTOR_SIZE) % 8 == i % 8;
  }

  lemma SectorBytes(v: Volume, i: nat, x: nat, n: nat)
    requires i < NUM_INODES && x < MAX_FILE && x % SECTOR_SIZE + n <= SECTOR_SIZE
    requires FileBlock(v, i, x / BLOCK_SIZE) < NUM_BLOCKS
    ensures forall y: nat :: x <= y < x + n ==>
      y < MAX_FILE && ByteAt(v, i, y) == v.d[SectorOf(v, i, x)][x % SECTOR_SIZE + (y - x)]
  {
    forall y: nat | x <= y < x + n
      ensures y < MAX_FILE && ByteAt(v, i, y) == v.d[SectorOf(v, i, x)][x % SECTOR_SIZE + (y - x)]
    {
      assert y / SECTOR_SIZE == x / SECTOR_SIZE && y % SECTOR_SIZE == x % SECTOR_SIZE + (y - x);
      assert y / BLOCK_SIZE == (y / SECTOR_SIZE) / 8 && x / BLOCK_SIZE == (x / SECTOR_SIZE) / 8;
      assert MAX_FILE == SECTOR_SIZE * 16464 && x / SECTOR_SIZE < 16464;
    }
  }

  /** The volume after a write call: the data, and the new file size. */
  function Written(v: Volume, ino: nat, p: nat, data: seq<byte>): Volume
    requires ino < NUM_INODES && p + |data| <= MAX_FILE
  {
    var v1 := WriteFile(v, ino, p, data);
    PutNode(v1, ino, v1.nodes[ino].(usize := p + |data|))
  }

  lemma WriteFileAligned(v: Volume, ino: nat, p: nat, data: seq<byte>)
    requires ino < NUM_INODES && p + |data| <= MAX_FILE && p % SECTOR_SIZE == 0
    ensures WriteFile(v, ino, p, data) == WriteBytes(v, ino, p, data)
  {
  }

  lemma WriteBytesNone(v: Volume, ino: nat, p: nat)
    requires ino < NUM_INODES && p <= MAX_FILE
    ensures WriteBytes(v, ino, p, []) == v
  {
  }

  lemma HeadCovered(S: set<Slot>, p: nat, n: nat)
    requires Covers(S, p, n) && p % SECTOR_SIZE != 0
    ensures p < MAX_FILE && DataSlot(p / BLOCK_SIZE) in S
    ensures p / BLOCK_SIZE >= NUM_DIRECT ==> TableSlot(p / BLOCK_SIZE) in S
  {
    assert FirstBlock(p) <= p / BLOCK_SIZE < BlockEnd(p, n);
  }

  lemma HeadChunk(v: Volume, ino: nat, p: nat, buff: seq<byte>, size: nat, room: nat, S: set<Slot>)
    requires ino < NUM_INODES && Roomy(v, ino, S) && size <= |buff| && Covers(S, p, size) && p + size <= MAX_FILE
    requires p % SECTOR_SIZE != 0 && room == SECTOR_SIZE - p % SECTOR_SIZE < size && p < MAX_FILE
    ensures Roomy(Step(v, ino, p, buff[..room]), ino, S)
    ensures WriteFile(v, ino, p, buff[..size]) == WriteBytes(Step(v, ino, p, buff[..room]), ino, p + room, buff[room..size])
  {
    hide Step, Wrote, Roomy, Covers;
    HeadCovered(S, p, size);
    StepWrites(v, ino, p, buff[..room], S);
    WroteRoomy(v, Step(v, ino, p, buff[..room]), ino, S, p, buff[..room]);
    assert buff[..size][..room] == buff[..room] && buff[..size][room..] == buff[room..size];
    assert ChunkSize(p, |buff[..size]|) == room;
  }

  lemma HeadIsAll(v: Volume, ino: nat, p: nat, data: seq<byte>)
    requires ino < NUM_INODES && p % SECTOR_SIZE != 0 && |data| <= SECTOR_SIZE - p % SECTOR_SIZE && p + |data| <= MAX_FILE
    ensures p < MAX_FILE && WriteFile(v, ino, p, data) == Step(v, ino, p, data)
  {
    hide Step;
    if data != [] {
      var c := ChunkSize(p, |data|);
      assert c == |data| && data[..c] == data && data[c..] == [];
      assert WriteBytes(Step(v, ino, p, data), ino, p + c, []) == Step(v, ino, p, data);
    }
  }

  lemma BlockPosition(k: nat, s: nat, o: nat)
    requires s < 8 && o < SECTOR_SIZE
    ensures var x := BLOCK_SIZE * k + SECTOR_SIZE * s + o;
      x / BLOCK_SIZE == k && (x / SECTOR_SIZE) % 8 == s && x % SECTOR_SIZE == o
  {
    var x, q := BLOCK_SIZE * k + SECTOR_SIZE * s + o, 8 * k + s;
    assert x == SECTOR_SIZE * q + o && x / SECTOR_SIZE == q;
    assert x / 4096 == (x / 512) / 8;
  }

  lemma DirectPosition(x: nat)
    ensures x == BLOCK_SIZE * (x / 4096) + SECTOR_SIZE * ((x / 512) % 8) + x % 512
  {
    assert x / 4096 == (x / 512) / 8;
  }

  lemma TablePosition(t: nat, e: nat, s: nat, o: nat)
    requires t < 2 && e < TABLE_ENTRIES && s < 8 && o < SECTOR_SIZE
    ensures var x := DIRECT_BYTES + TABLE_BYTES * t + BLOCK_SIZE * e + SECTOR_SIZE * s + o;
      x < MAX_FILE && x / BLOCK_SIZE == NUM_DIRECT + TABLE_ENTRIES * t + e && (x / SECTOR_SIZE) % 8 == s &&
      x % SECTOR_SIZE == o && DataSlot(x / BLOCK_SIZE) == Entry(t, e)
  {
  }

  /** The byte arithmetic of the unaligned head finds the same place as the sector arithmetic of the loops. */
  lemma HeadPosition(x: nat)
    requires DIRECT_BYTES <= x < MAX_FILE
    ensures var pos := x - DIRECT_BYTES; var pos1 := pos % TABLE_BYTES;
      DataSlot(x / BLOCK_SIZE) == Entry(pos / TABLE_BYTES, pos1 / 4096) &&
      x == DIRECT_BYTES + TABLE_BYTES * (pos / TABLE_BYTES) + BLOCK_SIZE * (pos1 / 4096) +
           SECTOR_SIZE * ((pos1 / 512) % 8) + x % 512
  {
    var pos := x - DIRECT_BYTES;
    var pos1 := pos % TABLE_BYTES;
    assert pos1 / 512 == 8 * (pos1 / 4096) + (pos1 / 512) % 8;
    assert pos1 % 512 == x % 512;
    TablePosition(pos / TABLE_BYTES, pos1 / 4096, (pos1 / 512) % 8, x % 512);
  }

  lemma LoopPosition(t: nat, i: nat)
    requires t < 2 && 80 + 8192 * t <= i < 80 + 8192 * (t + 1)
    ensures var j := i - (80 + 8192 * t);
      DataSlot(i / 8) == Entry(t, j / 8) &&
      SECTOR_SIZE * i == DIRECT_BYTES + TABLE_BYTES * t + BLOCK_SIZE * (j / 8) + SECTOR_SIZE * (j % 8)
  {
    var j := i - (80 + 8192 * t);
    TablePosition(t, j / 8, j % 8, 0);
  }

  lemma ChunkBlock(p: nat, size: nat, sz: nat, i: nat)
    requires 0 < sz <= size && p + (size - sz) == SECTOR_SIZE * i
    ensures SECTOR_SIZE * i / BLOCK_SIZE == i / 8 && FirstBlock(p) <= i / 8 < BlockEnd(p, size)
  {
  }

  lemma ChunkSlots(S: set<Slot>, p: nat, size: nat, sz: nat, i: nat)
    requires Covers(S, p, size) && 0 < sz <= size && p + (size - sz) == SECTOR_SIZE * i
    ensures i / 8 < MAX_BLOCKS && DataSlot(i / 8) in S && (i >= 80 ==> TableSlot(i / 8) in S)
    ensures SECTOR_SIZE * i / BLOCK_SIZE == i / 8
  {
    ChunkBlock(p, size, sz, i);
    assert DataSlot(i / 8) in S;
  }

  lemma WriteFirst(v: Volume, ino: nat, x: nat, data: seq<byte>, part: seq<byte>)
    requires ino < NUM_INODES && x + |data| <= MAX_FILE && data != [] && |part| == ChunkSize(x, |data|) && part == data[..|part|]
    ensures WriteBytes(v, ino, x, data) == WriteBytes(Step(v, ino, x, part), ino, x + |part|, data[|part|..])
  {
    hide Step, ChunkSize;
  }

  lemma NextChunk(v: Volume, ino: nat, buff: seq<byte>, size: nat, sz: nat, i: nat, part: seq<byte>, p: nat, S: set<Slot>)
    requires ino < NUM_INODES && p + size <= MAX_FILE && Roomy(v, ino, S) && size <= |buff| && 0 < sz <= size && Covers(S, p, size)
    requires p + (size - sz) == SECTOR_SIZE * i
    requires |part| == (if sz > SECTOR_SIZE then SECTOR_SIZE else sz) && part == buff[size - sz..size - sz + |part|]
    ensures i / 8 < MAX_BLOCKS && DataSlot(i / 8) in S && (i >= 80 ==> TableSlot(i / 8) in S)
    ensures Roomy(Step(v, ino, SECTOR_SIZE * i, part), ino, S)
    ensures WriteBytes(v, ino, p + (size - sz), buff[size - sz..size]) ==
            WriteBytes(Step(v, ino, SECTOR_SIZE * i, part), ino, p + (size - (sz - |part|)), buff[size - (sz - |part|)..size])
  {
    hide Step, Wrote, Roomy, WriteBytes, Covers, DataSlot, TableSlot;
    var x, data := SECTOR_SIZE * i, buff[size - sz..size];
    ChunkSlots(S, p, size, sz, i);
    StepWrites(v, ino, x, part, S);
    WroteRoomy(v, Step(v, ino, x, part), ino, S, x, part);
    assert data[..|part|] == part && data[|part|..] == buff[size - (sz - |part|)..size];
    WriteFirst(v, ino, x, data, part);
  }

  /** Preparing the table before the loop is what the first round of the loop would do. */
  lemma StepAfterTable(v: Volume, ino: nat, x: nat, part: seq<byte>)
    requires ino < NUM_INODES && DIRECT_BYTES <= x < MAX_FILE && x % SECTOR_SIZE + |part| <= SECTOR_SIZE
    requires var t := (x - DIRECT_BYTES) / TABLE_BYTES; TableReady(v, ino, t).nodes[ino].lev1[t] != 0
    ensures var t := (x - DIRECT_BYTES) / TABLE_BYTES;
      Step(TableReady(v, ino, t), ino, x, part) == Step(v, ino, x, part)
  {
    HeadPosition(x);
  }

  lemma TableFirst(v: Volume, ino: nat, t: nat, i: nat, buff: seq<byte>, size: nat, sz: nat, p: nat, S: set<Slot>)
    requires ino < NUM_INODES && p + size <= MAX_FILE && Roomy(v, ino, S) && size <= |buff| && 0 < sz <= size && Covers(S, p, size)
    requires t < 2 && 80 + 8192 * t <= i < 80 + 8192 * (t + 1) && p + (size - sz) == SECTOR_SIZE * i
    ensures Lev1(t) in S
    ensures var v1 := TableReady(v, ino, t);
      Roomy(v1, ino, S) && 0 < v1.nodes[ino].lev1[t] < NUM_BLOCKS &&
      WriteBytes(v, ino, p + (size - sz), buff[size - sz..size]) ==
      WriteBytes(v1, ino, p + (size - sz), buff[size - sz..size])
  {
    var x, data := SECTOR_SIZE * i, buff[size - sz..size];
    ChunkSlots(S, p, size, sz, i);
    LoopPosition(t, i);
    TableReadyThere(v, ino, t, S);
    HeadPosition(x);
    StepAfterTable(v, ino, x, data[..ChunkSize(x, |data|)]);
  }

  lemma DirectReadyInRange(v: Volume, i: nat, k: nat, S: set<Slot>)
    requires Roomy(v, i, S) && k < NUM_DIRECT && Direct(k) in S
    ensures 0 < DirectReady(v, i, k).nodes[i].direct[k] < NUM_BLOCKS
  {
    DirectReadyWrites(v, i, k, S, 0);
    var v1 := DirectReady(v, i, k);
    assert Owns(v1, i, Direct(k), v1.nodes[i].direct[k]);
  }

  lemma TableReadyThere(v: Volume, i: nat, t: nat, S: set<Slot>)
    requires Roomy(v, i, S) && t < NUM_LEV1 && Lev1(t) in S
    ensures i < NUM_INODES && Roomy(TableReady(v, i, t), i, S)
    ensures 0 < TableReady(v, i, t).nodes[i].lev1[t] < NUM_BLOCKS
  {
    TableReadyWrites(v, i, t, S, 0);
    WroteRoomy(v, TableReady(v, i, t), i, S, 0, []);
  }

  lemma EntryReadyInRange(v: Volume, i: nat, t: nat, e: nat, S: set<Slot>)
    requires i < NUM_INODES && Roomy(v, i, S) && t < NUM_LEV1 && e < TABLE_ENTRIES && Entry(t, e) in S
    requires 0 < v.nodes[i].lev1[t] < NUM_BLOCKS
    ensures EntryReady(v, i, t, e).nodes == v.nodes && Roomy(EntryReady(v, i, t, e), i, S)
    ensures 0 < EntryAt(EntryReady(v, i, t, e).d, v.nodes[i].lev1[t], e) < NUM_BLOCKS
  {
    var v1 := EntryReady(v, i, t, e);
    EntryReadyWrites(v, i, t, e, S, 0);
    WroteRoomy(v, v1, i, S, 0, []);
    assert Owns(v1, i, Entry(t, e), Ptr(v1, i, Entry(t, e)));
  }

  lemma StoreKeepsTable(v: Volume, i: nat, t: nat, e: nat, q: nat, c: Sector, S: set<Slot>)
    requires i < NUM_INODES && Roomy(v, i, S) && t < NUM_LEV1 && e < TABLE_ENTRIES && q < NUM_SECTORS
    requires 0 < v.nodes[i].lev1[t] < NUM_BLOCKS && EntryAt(v.d, v.nodes[i].lev1[t], e) == q / 8 != 0
    ensures ReadTable(PutSector(v, q, c).d, v.nodes[i].lev1[t]) == ReadTable(v.d, v.nodes[i].lev1[t])
  {
    var b := v.nodes[i].lev1[t];
    assert Owns(v, i, Entry(t, e), q / 8);
    DataWriteKeepsPtrs(v, i, Entry(t, e), q / 8, q, c);
    forall k: nat | k < TABLE_ENTRIES
      ensures ReadTable(PutSector(v, q, c).d, b)[k] == ReadTable(v.d, b)[k]
    {
      assert Ptr(PutSector(v, q, c), i, Entry(t, k)) == Ptr(v, i, Entry(t, k));
    }
  }

  // ---------- Writing, seeking and reading back ----------

  /** The whole effect of a write call on the volume. */
  lemma WrittenSplices(v: Volume, ino: nat, p: nat, data: seq<byte>)
    requires p + |data| <= MAX_FILE && Roomy(v, ino, Touched(p, |data|))
    ensures Wrote(v, Written(v, ino, p, data), ino, Touched(p, |data|), p, data)
    ensures p % SECTOR_SIZE != 0 ==> Mapped(Written(v, ino, p, data), ino, p)
    ensures Written(v, ino, p, data).nodes[ino].usize == p + |data|
  {
    hide WriteFile;
    var S, v1 := Touched(p, |data|), WriteFile(v, ino, p, data);
    WriteFileWrites(v, ino, p, data);
    ResizeWrites(v1, ino, p + |data|, S, p + |data|);
    WroteThen(v, v1, Written(v, ino, p, data), ino, S, p, data, [], data);
    if p % SECTOR_SIZE != 0 {
      assert Ptr(Written(v, ino, p, data), ino, DataSlot(p / BLOCK_SIZE)) == Ptr(v1, ino, DataSlot(p / BLOCK_SIZE));
    }
  }

  /** What was written is there to be read, and nothing else is read at its place. */
  lemma ReadBack(v: Volume, ino: nat, p: nat, data: seq<byte>, bs: seq<byte>)
    requires p + |data| <= MAX_FILE && Roomy(v, ino, Touched(p, |data|))
    ensures var v1 := Written(v, ino, p, data);
      Inv(v1) && Live(v1, ino) && MappedRange(v1, ino, p, |data|) &&
      (|bs| == |data| && Holds(v1, ino, p, bs) ==> bs == data)
  {
    hide Written;
    WrittenSplices(v, ino, p, data);
    var v1 := Written(v, ino, p, data);
    if |bs| == |data| && Holds(v1, ino, p, bs) {
      forall k | 0 <= k < |data|
        ensures bs[k] == data[k]
      {
        assert Mapped(v1, ino, p + k);
      }
    }
  }

  /** Write at p, seek back to p, read: both calls do all of it, the buffer holds what was written, the read
      pointer stands behind it and the write pointer at p. */
  method WriteSeekRead(fs: FileSys, fd: nat, data: seq<byte>, buff: array<byte>) returns (put: int, got: int)
    requires fs.formatted && fd < |fs.fds| && fs.fds[fd].ino < NUM_INODES
    requires fs.fds[fd].wPtr + |data| <= MAX_FILE
    requires Roomy(fs.V(), fs.fds[fd].ino, Touched(fs.fds[fd].wPtr, |data|))
    requires |data| <= buff.Length && HeadCopy(fs.fds[fd].wPtr, |data|) <= buff.Length
    modifies fs, buff
    ensures put == |data| && got == |data| && buff[..|data|] == data
    ensures fd < |fs.fds| && fs.fds[fd].rPtr == old(fs.fds[fd].wPtr) + |data| && fs.fds[fd].wPtr == old(fs.fds[fd].wPtr)
  {
    hide Roomy, Touched, Inv, Written, Holds, MappedRange;
    var p, ino := fs.fds[fd].wPtr, fs.fds[fd].ino;
    ghost var v := fs.V();
    ReadBack(v, ino, p, data, buff[..|data|]);
    assert data[..|data|] == data;
    put := fs.DoFwrite(fd, data, |data|);
    fs.DoLseek(fd, p, SeekSet);
    got := fs.DoFread(fd, buff, |data|);
    ReadBack(v, ino, p, data, buff[..|data|]);
  }
}
