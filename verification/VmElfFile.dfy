/** The layout of an ELF file, written out independently of the loader, and what the loader makes of such a file. */
module VmElfFile {
  import opened VmMemory
  import opened VmMap
  import opened Vm
  import opened VmElf
  import opened VmBytes

  // ---------- Numbers ----------

  lemma NumberStep(b: byte, s: seq<byte>)
    ensures Number([b] + s) == (b as nat) + 256 * Number(s)
  {
    assert ([b] + s)[1..] == s;
  }

  lemma {:induction false} NumberOfBytes(n: nat, w: nat)
    requires Fits(n, w)
    ensures Number(Bytes(n, w)) == n
    decreases w
  {
    hide Number;
    if w > 0 {
      NumberOfBytes(n / 256, w - 1);
      NumberStep(ByteOf(n % 256), Bytes(n / 256, w - 1));
    } else {
      NumberNone();
    }
  }

  lemma NumberNone()
    ensures Number([]) == 0
  {
  }

  // ---------- The two records ----------

  type Half = n: nat | n < 0x1_0000
  type Word = n: nat | n < 0x1_0000_0000
  type Xword = n: nat | n < 0x1_0000_0000_0000_0000
  type Ident = s: seq<byte> | |s| == 16 witness seq<byte>(16, _ => 0)

  /** Elf64_Ehdr, field by field. */
  datatype FileHeader = FileHeader(ident: Ident, etype: Half, machine: Half, version: Word, entry: Xword, phoff: Xword,
                                   shoff: Xword, flags: Word, ehsize: Half, phentsize: Half, phnum: Half, shentsize: Half,
                                   shnum: Half, shstrndx: Half)

  /** Elf64_Phdr, field by field. */
  datatype ProgramHeader = ProgramHeader(ptype: Word, flags: Word, offset: Xword, vaddr: Xword, paddr: Xword,
                                         filesz: Xword, memsz: Xword, align: Xword)

  function FileHeaderBytes(h: FileHeader): (r: seq<byte>)
    ensures |r| == 64
  {
    h.ident + Bytes(h.etype, 2) + Bytes(h.machine, 2) + Bytes(h.version, 4) + Bytes(h.entry, 8) + Bytes(h.phoff, 8) +
    Bytes(h.shoff, 8) + Bytes(h.flags, 4) + Bytes(h.ehsize, 2) + Bytes(h.phentsize, 2) + Bytes(h.phnum, 2) +
    Bytes(h.shentsize, 2) + Bytes(h.shnum, 2) + Bytes(h.shstrndx, 2)
  }

  function ProgramHeaderBytes(p: ProgramHeader): (r: seq<byte>)
    ensures |r| == 56
  {
    Bytes(p.ptype, 4) + Bytes(p.flags, 4) + Bytes(p.offset, 8) + Bytes(p.vaddr, 8) + Bytes(p.paddr, 8) +
    Bytes(p.filesz, 8) + Bytes(p.memsz, 8) + Bytes(p.align, 8)
  }

  /** file begins with header h, and has program header k of ps where h says that it is. */
  ghost predicate IsFile(file: seq<byte>, h: FileHeader, ps: seq<ProgramHeader>) {
    && |file| >= 64 && file[..64] == FileHeaderBytes(h) && h.phnum == |ps|
    && (forall k: nat :: k < |ps| ==> HasHeader(file, Place(h, k), ps[k]))
  }

  /** Where program header k begins. */
  function Place(h: FileHeader, k: nat): nat {
    h.phoff + k * h.phentsize
  }

  predicate HasHeader(file: seq<byte>, o: nat, p: ProgramHeader) {
    o + 56 <= |file| && file[o..o + 56] == ProgramHeaderBytes(p)
  }

  lemma Part(file: seq<byte>, o: nat, n: nat, s: seq<byte>, i: nat, j: nat)
    requires o + n <= |file| && file[o..o + n] == s && i <= j <= n
    ensures file[o + i..o + j] == s[i..j]
  {
    forall x | 0 <= x < j - i
      ensures file[o + i..o + j][x] == s[i..j][x]
    {
      assert file[o..o + n][i + x] == file[o + (i + x)];
    }
  }

  lemma HeaderFields(h: FileHeader)
    ensures var s := FileHeaderBytes(h);
      Number(s[24..32]) == h.entry && Number(s[32..40]) == h.phoff && Number(s[54..56]) == h.phentsize && Number(s[56..58]) == h.phnum
  {
    hide Bytes, Number, Fits;
    var s := FileHeaderBytes(h);
    assert s[24..32] == Bytes(h.entry, 8);
    assert s[32..40] == Bytes(h.phoff, 8);
    assert s[54..56] == Bytes(h.phentsize, 2);
    assert s[56..58] == Bytes(h.phnum, 2);
    FitsEight(h.entry);
    FitsEight(h.phoff);
    FitsTwo(h.phentsize);
    FitsTwo(h.phnum);
    NumberOfBytes(h.entry, 8);
    NumberOfBytes(h.phoff, 8);
    NumberOfBytes(h.phentsize, 2);
    NumberOfBytes(h.phnum, 2);
  }

  lemma ProgramFields(p: ProgramHeader)
    ensures var s := ProgramHeaderBytes(p);
      Number(s[0..4]) == p.ptype && Number(s[8..16]) == p.offset && Number(s[16..24]) == p.vaddr &&
      Number(s[32..40]) == p.filesz && Number(s[40..48]) == p.memsz
  {
    hide Bytes, Number, Fits;
    var s := ProgramHeaderBytes(p);
    assert s[0..4] == Bytes(p.ptype, 4);
    assert s[8..16] == Bytes(p.offset, 8);
    assert s[16..24] == Bytes(p.vaddr, 8);
    assert s[32..40] == Bytes(p.filesz, 8);
    assert s[40..48] == Bytes(p.memsz, 8);
    FitsFour(p.ptype);
    FitsEight(p.offset);
    FitsEight(p.vaddr);
    FitsEight(p.filesz);
    FitsEight(p.memsz);
    NumberOfBytes(p.ptype, 4);
    NumberOfBytes(p.offset, 8);
    NumberOfBytes(p.vaddr, 8);
    NumberOfBytes(p.filesz, 8);
    NumberOfBytes(p.memsz, 8);
  }

  /** The loader reads from a file what was laid out there: where the program headers are, how many, and the entry. */
  lemma ReadsHeader(file: seq<byte>, h: FileHeader, ps: seq<ProgramHeader>)
    requires IsFile(file, h, ps)
    ensures EntryPoint(file) == h.entry && PhOff(file) == h.phoff && PhEntSize(file) == h.phentsize && PhNum(file) == |ps|
  {
    hide Number, FileHeaderBytes;
    HeaderFields(h);
    var s := FileHeaderBytes(h);
    Part(file, 0, 64, s, 24, 32);
    Part(file, 0, 64, s, 32, 40);
    Part(file, 0, 64, s, 54, 56);
    Part(file, 0, 64, s, 56, 58);
  }

  /** And each program header, from the five fields that it uses. */
  lemma ReadsProgram(file: seq<byte>, h: FileHeader, ps: seq<ProgramHeader>, k: nat)
    requires IsFile(file, h, ps) && k < |ps|
    ensures Whole(file) && PhNum(file) == |ps|
    ensures Header(file, k) == Segment(ps[k].ptype, ps[k].offset, ps[k].vaddr, ps[k].filesz, ps[k].memsz)
  {
    hide Number, ProgramHeaderBytes, FileHeaderBytes, PhOff, PhNum, PhEntSize, EntryPoint;
    ReadsHeader(file, h, ps);
    assert HasHeader(file, Place(h, |ps| - 1), ps[|ps| - 1]);
    assert HasHeader(file, Place(h, k), ps[k]);
    ReadsSegment(file, Place(h, k), ps[k]);
  }

  lemma ReadsSegment(file: seq<byte>, o: nat, p: ProgramHeader)
    requires HasHeader(file, o, p)
    ensures SegmentAt(file, o) == Segment(p.ptype, p.offset, p.vaddr, p.filesz, p.memsz)
  {
    hide Number, ProgramHeaderBytes;
    ProgramFields(p);
    var s := ProgramHeaderBytes(p);
    Part(file, o, 56, s, 0, 4);
    Part(file, o, 56, s, 8, 16);
    Part(file, o, 56, s, 16, 24);
    Part(file, o, 56, s, 32, 40);
    Part(file, o, 56, s, 40, 48);
  }

  // ---------- Such files exist ----------

  /** The program headers one after the other. */
  function Table(ps: seq<ProgramHeader>): (r: seq<byte>)
    ensures |r| == 56 * |ps|
  {
    if ps == [] then [] else Table(ps[..|ps| - 1]) + ProgramHeaderBytes(ps[|ps| - 1])
  }

  lemma {:induction false} TableAt(ps: seq<ProgramHeader>, k: nat)
    requires k < |ps|
    ensures Table(ps)[56 * k..56 * k + 56] == ProgramHeaderBytes(ps[k])
    decreases |ps|
  {
    hide ProgramHeaderBytes;
    var n := |ps| - 1;
    var a, b := Table(ps[..n]), ProgramHeaderBytes(ps[n]);
    assert Table(ps) == a + b;
    if k < n {
      TableAt(ps[..n], k);
      assert (a + b)[56 * k..56 * k + 56] == a[56 * k..56 * k + 56];
    } else {
      assert (a + b)[56 * n..56 * n + 56] == b;
    }
  }

  /** A file with its program headers right behind the file header. */
  function ElfFile(h: FileHeader, ps: seq<ProgramHeader>, rest: seq<byte>): seq<byte>
    requires |ps| < 0x1_0000
  {
    FileHeaderBytes(h.(phoff := 64, phentsize := 56, phnum := |ps|)) + Table(ps) + rest
  }

  lemma ElfFileIs(h: FileHeader, ps: seq<ProgramHeader>, rest: seq<byte>)
    requires |ps| < 0x1_0000
    ensures IsFile(ElfFile(h, ps, rest), h.(phoff := 64, phentsize := 56, phnum := |ps|), ps)
  {
    hide FileHeaderBytes, ProgramHeaderBytes, Table;
    var h1 := h.(phoff := 64, phentsize := 56, phnum := |ps|);
    var file, head, table := ElfFile(h, ps, rest), FileHeaderBytes(h1), Table(ps);
    assert file[..64] == head;
    forall k: nat | k < |ps|
      ensures HasHeader(file, Place(h1, k), ps[k])
    {
      TableAt(ps, k);
      assert file[64 + 56 * k..64 + 56 * k + 56] == table[56 * k..56 * k + 56];
    }
  }

  // ---------- load_elf ----------

  /** The loadable segments lie in the file and begin at pages, and there is room for all pages of the file. */
  ghost predicate Loadable(m: M, r: nat, file: seq<byte>, ps: seq<ProgramHeader>) {
    && (forall k :: 0 <= k < |ps| && ps[k].ptype == 1 ==>
         ps[k].offset + ps[k].filesz <= |file| && ps[k].filesz <= ps[k].memsz < 0x8000_0000 && ps[k].vaddr % 0x1000 == 0)
    && (GoodFile(file) ==> Clear(m, r, Jobs(file, PhNum(file))) && Room(m) >= 3 * |Jobs(file, PhNum(file))|)
  }

  lemma LoadableGood(m: M, r: nat, file: seq<byte>, h: FileHeader, ps: seq<ProgramHeader>)
    requires IsFile(file, h, ps) && Loadable(m, r, file, ps)
    ensures GoodFile(file)
  {
    hide Header, PhOff, PhNum, PhEntSize, FileHeaderBytes, ProgramHeaderBytes, Clear, Room, Jobs;
    ReadsHeader(file, h, ps);
    if ps != [] {
      ReadsProgram(file, h, ps, 0);
    }
    forall k: nat | k < PhNum(file) && Header(file, k).ptype == PT_LOAD
      ensures GoodSegment(file, Header(file, k))
    {
      ReadsProgram(file, h, ps, k);
    }
  }

  /** Byte o of segment p is in memory where the segment says: the file's byte, or 0 behind those. */
  predicate Stands(m: M, r: nat, file: seq<byte>, p: ProgramHeader, o: nat)
    requires p.offset + p.filesz <= |file|
  {
    HasByte(m, r, p.vaddr + o, if o < p.filesz then file[p.offset + o] else 0)
  }

  /** The whole segment. */
  ghost predicate InPlace(m: M, r: nat, file: seq<byte>, p: ProgramHeader) {
    p.offset + p.filesz <= |file| && forall o: nat :: o < p.memsz ==> Stands(m, r, file, p, o)
  }

  /** Byte o of segment p would stand in the page of va. */
  predicate Reaches(p: ProgramHeader, o: nat, va: nat) {
    o < p.memsz && PageNo(p.vaddr + o) == PageNo(va)
  }

  /** No byte of a loadable segment would stand in the page of va. */
  ghost predicate OutOfReach(ps: seq<ProgramHeader>, va: nat) {
    forall k: nat, o: nat :: k < |ps| && ps[k].ptype == 1 ==> !Reaches(ps[k], o, va)
  }

  /** Every page that is loaded is one of a loadable segment, and begins with one of its bytes. */
  lemma {:induction false} JobOf(file: seq<byte>, n: nat, x: nat) returns (k: nat, i: nat)
    requires GoodFile(file) && n <= PhNum(file) && x < |Jobs(file, n)|
    ensures k < n && Header(file, k).ptype == PT_LOAD && i * PAGE_SIZE < Header(file, k).memsz
    ensures Jobs(file, n)[x].va == Header(file, k).vaddr + i * PAGE_SIZE
    decreases n
  {
    hide Header, PhNum, PageImage;
    var s := Header(file, n - 1);
    if x < |Jobs(file, n - 1)| {
      k, i := JobOf(file, n - 1, x);
    } else {
      k, i := n - 1, x - |Jobs(file, n - 1)|;
    }
  }

  /** A page that no byte of a loadable segment stands in is mapped, or not mapped, as before, and holds what it held. */
  lemma OnlyThere(m: M, r: nat, file: seq<byte>, h: FileHeader, ps: seq<ProgramHeader>, va: nat)
    requires Inv(m) && IsFile(file, h, ps) && GoodFile(file) && Clear(m, r, Jobs(file, PhNum(file))) && Room(m) >= 3 * |Jobs(file, PhNum(file))|
    requires Own(m, r, va) && OutOfReach(ps, va)
    ensures SamePage(m, LoadJobs(m, r, Jobs(file, PhNum(file))), r, va)
  {
    hide Inv, At, LinkOk, IsValid, Lookup, Header, PageCount, PhNum, Jobs, LoadJobs, Room, Loaded, Vpn0, Vpn1, Vpn2, PageImage, PageNo, FileHeaderBytes, ProgramHeaderBytes, Clear, CheckAd, LeafOf, Ptr;
    var jobs := Jobs(file, PhNum(file));
    var m1 := LoadJobs(m, r, jobs);
    LoadJobsKeeps(m, r, jobs);
    OwnLinks(m, r, va);
    forall x | 0 <= x < |jobs|
      ensures LeafOf(r, va) != LeafOf(r, jobs[x].va)
    {
      var k, i := JobOf(file, PhNum(file), x);
      ReadsHeader(file, h, ps);
      ReadsProgram(file, h, ps, k);
      assert !Reaches(ps[k], i * PAGE_SIZE, va);
      PagesApart(r, va, jobs[x].va);
    }
    LeafLookup(m, r, va);
    LeafLookup(m1, r, va);
    PtrAt(m, LeafOf(r, va));
    LeafIsLeaf(r, va);
  }

  lemma LeafIsLeaf(r: nat, va: nat)
    ensures LeafOf(r, va).Leaf?
  {
  }

  lemma LeafLookup(m: M, r: nat, va: nat)
    requires Inv(m) && Own(m, r, va)
    ensures Lookup(m, r, va) == if IsValid(At(m, LeafOf(r, va))) then Mapped(At(m, LeafOf(r, va))) else Unmapped
  {
    hide Inv, IsValid, CheckAd, At;
    CheckAdIs(m, r, va);
  }

  /** The walk to va ends as it did, and a page of memory that it leads to holds what it held. */
  predicate SamePage(m: M, m1: M, r: nat, va: nat) {
    && Lookup(m1, r, va) == Lookup(m, r, va)
    && (match Lookup(m, r, va)
        case Unmapped => true
        case Mapped(e) => InRam(e.ppn) ==> e.ppn in m.data && e.ppn in m1.data && m1.data[e.ppn] == m.data[e.ppn])
  }

  /** A file laid out with these records is loaded as they say: load_elf returns the entry of the file header, and for each
      program header of type 1 byte o of the file from p_offset on stands at p_vaddr + o, and behind the p_filesz bytes zeros
      up to p_memsz. No other page of the directory is mapped or changed. A file that begins with 0, 1, 2, 3 is refused. */
  method LoadFile(mem: Memory, file: seq<byte>, pgdir: nat, ghost h: FileHeader, ghost ps: seq<ProgramHeader>) returns (entry: nat)
    requires Inv(mem.State()) && IsFile(file, h, ps) && Loadable(mem.State(), FrameOf(pgdir), file, ps)
    modifies mem`table, mem`data, mem`curr, mem`free
    ensures h.ident[..4] == [0, 1, 2, 3] ==> entry == 0 && mem.State() == old(mem.State())
    ensures h.ident[..4] != [0, 1, 2, 3] ==> entry == h.entry
    ensures h.ident[..4] != [0, 1, 2, 3] ==>
      forall k :: 0 <= k < |ps| && ps[k].ptype == 1 ==> InPlace(mem.State(), FrameOf(pgdir), file, ps[k])
    ensures h.ident[..4] != [0, 1, 2, 3] ==>
      forall va: nat :: Own(old(mem.State()), FrameOf(pgdir), va) && OutOfReach(ps, va) ==> SamePage(old(mem.State()), mem.State(), FrameOf(pgdir), va)
  {
    hide Inv, Header, PhOff, PhNum, PhEntSize, FileHeaderBytes, ProgramHeaderBytes, Clear, Room, Jobs, EntryPoint, LoadJobs, HasByte, PageCount, SamePage, OutOfReach, Own;
    ghost var m, r := mem.State(), FrameOf(pgdir);
    LoadableGood(m, r, file, h, ps);
    ReadsHeader(file, h, ps);
    RefusedIs(file, h, ps);
    RefusedIff(file);
    entry := LoadElf(mem, file, pgdir);
    if h.ident[..4] != [0, 1, 2, 3] {
      forall k | 0 <= k < |ps| && ps[k].ptype == 1
        ensures InPlace(mem.State(), r, file, ps[k])
      {
        forall o: nat | o < ps[k].memsz
          ensures ps[k].offset + ps[k].filesz <= |file| && Stands(mem.State(), r, file, ps[k], o)
        {
          ReadsProgram(file, h, ps, k);
          PagesCover(Header(file, k), o);
          ImageIsExact(m, r, file, k, o);
        }
      }
      forall va: nat | Own(m, r, va) && OutOfReach(ps, va)
        ensures SamePage(m, mem.State(), r, va)
      {
        OnlyThere(m, r, file, h, ps, va);
      }
    }
  }

  lemma PagesCover(s: Segment, o: nat)
    requires o < s.memsz
    ensures o < PageCount(s) * PAGE_SIZE
  {
  }

  lemma RefusedIs(file: seq<byte>, h: FileHeader, ps: seq<ProgramHeader>)
    requires IsFile(file, h, ps)
    ensures file[..4] == h.ident[..4]
  {
    hide Bytes;
    assert file[..4] == file[..64][..4];
    assert FileHeaderBytes(h)[..4] == h.ident[..4];
  }
}
