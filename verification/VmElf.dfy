/** load_elf: the segments of an ELF file copied page by page into fresh memory, through the page table. */
module VmElf {
  import opened VmMemory
  import opened VmMap
  import opened Vm

  // ---------- The file ----------

  const PT_LOAD := 1

  datatype Segment = Segment(ptype: nat, offset: nat, vaddr: nat, filesz: nat, memsz: nat)

  /** A little-endian number. */
  function Number(bytes: seq<byte>): nat {
    if bytes == [] then 0 else (bytes[0] as nat) + 256 * Number(bytes[1..])
  }

  function PhOff(file: seq<byte>): nat requires |file| >= 64 { Number(file[32..40]) }
  function PhEntSize(file: seq<byte>): nat requires |file| >= 64 { Number(file[54..56]) }
  function PhNum(file: seq<byte>): nat requires |file| >= 64 { Number(file[56..58]) }
  function EntryPoint(file: seq<byte>): nat requires |file| >= 64 { Number(file[24..32]) }

  /** The headers lie within the file. */
  predicate Whole(file: seq<byte>) {
    |file| >= 64 && (PhNum(file) > 0 ==> PhOff(file) + (PhNum(file) - 1) * PhEntSize(file) + 56 <= |file|)
  }

  function SegmentAt(file: seq<byte>, o: nat): Segment
    requires o + 56 <= |file|
  {
    Segment(Number(file[o..o + 4]), Number(file[o + 8..o + 16]), Number(file[o + 16..o + 24]),
            Number(file[o + 32..o + 40]), Number(file[o + 40..o + 48]))
  }

  lemma HeaderFits(file: seq<byte>, k: nat)
    requires Whole(file) && k < PhNum(file)
    ensures PhOff(file) + k * PhEntSize(file) + 56 <= |file|
  {
    TimesMono(k, PhNum(file) - 1, PhEntSize(file));
  }

  lemma TimesMono(a: nat, b: nat, c: nat)
    requires a <= b
    ensures a * c <= b * c
  {
  }

  /** The k-th program header. */
  function Header(file: seq<byte>, k: nat): Segment
    requires Whole(file) && k < PhNum(file)
  {
    HeaderFits(file, k);
    SegmentAt(file, PhOff(file) + k * PhEntSize(file))
  }

  /** is_elf_format: compares the first bytes with 0, 1, 2 and 3, and returns 0 when they are those. */
  function IsElfFormat(file: seq<byte>): int
    requires |file| >= 4
  {
    if file[0] == 0 && file[1] == 1 && file[2] == 2 && file[3] == 3 then 0 else 1
  }

  predicate Refused(file: seq<byte>) {
    |file| < 4 || IsElfFormat(file) == 0
  }

  /** load_elf turns away exactly the files shorter than four bytes and those that start with 0, 1, 2, 3;
      so it takes every ELF file, and most files that are none. */
  lemma RefusedIff(file: seq<byte>)
    ensures Refused(file) <==> |file| < 4 || file[..4] == [0, 1, 2, 3]
    ensures |file| >= 4 && file[..4] == [0x7f, 0x45, 0x4c, 0x46] ==> !Refused(file)
    ensures !Refused([0, 0, 0, 0])
  {
    if |file| >= 4 {
      assert file[..4] == [file[0], file[1], file[2], file[3]];
    }
  }

  // ---------- Pages to load ----------

  /** A page of the process image. */
  datatype Job = Job(va: nat, image: seq<byte>)

  predicate InFile(file: seq<byte>, s: Segment) {
    s.offset + s.filesz <= |file| && s.filesz <= s.memsz
  }

  /** Page i of segment s: the file's bytes as far as they go, then zeros. */
  function PageImage(file: seq<byte>, s: Segment, i: nat): (r: seq<byte>)
    requires InFile(file, s)
    ensures |r| == PAGE_SIZE
    ensures forall k :: 0 <= k < PAGE_SIZE ==>
      r[k] == if i * PAGE_SIZE + k < s.filesz then file[s.offset + i * PAGE_SIZE + k] else 0
  {
    seq(PAGE_SIZE, k requires 0 <= k < PAGE_SIZE =>
      if i * PAGE_SIZE + k < s.filesz then file[s.offset + i * PAGE_SIZE + k] else 0)
  }

  function PageCount(s: Segment): nat {
    (s.memsz + PAGE_SIZE - 1) / PAGE_SIZE
  }

  /** The first n pages of segment s. */
  function SegmentJobs(file: seq<byte>, s: Segment, n: nat): (r: seq<Job>)
    requires InFile(file, s)
    ensures |r| == n
    ensures forall i :: 0 <= i < n ==> r[i] == Job(s.vaddr + i * PAGE_SIZE, PageImage(file, s, i))
  {
    seq(n, i requires 0 <= i < n => Job(s.vaddr + i * PAGE_SIZE, PageImage(file, s, i)))
  }

  /** The pages of the first k headers. */
  function Jobs(file: seq<byte>, k: nat): seq<Job>
    requires Whole(file) && k <= PhNum(file) && forall j: nat :: j < PhNum(file) && Header(file, j).ptype == PT_LOAD ==> InFile(file, Header(file, j))
    decreases k
  {
    if k == 0 then []
    else
      var s := Header(file, k - 1);
      Jobs(file, k - 1) + (if s.ptype == PT_LOAD then SegmentJobs(file, s, PageCount(s)) else [])
  }

  /** One page mapped and filled. */
  function LoadJob(m: M, r: nat, j: Job): M
    requires Room(m) >= 3 && Known(m, r)
  {
    var (m1, kva) := MapPage(m, r, j.va, 1);
    m1.(data := m1.data[FrameOf(kva) := j.image])
  }

  function LoadJobs(m: M, r: nat, jobs: seq<Job>): M
    decreases |jobs|
  {
    if jobs == [] then m
    else
      var m0 := LoadJobs(m, r, jobs[..|jobs| - 1]);
      if Room(m0) >= 3 && Known(m0, r) then LoadJob(m0, r, jobs[|jobs| - 1]) else m0
  }

  // ---------- The image ----------

  /** The page at va is mapped in r and holds these bytes. */
  ghost predicate Loaded(m: M, r: nat, va: nat, image: seq<byte>) {
    var e := At(m, LeafOf(r, va));
    IsValid(e) && InRam(e.ppn) && Known(m, e.ppn) && m.data[e.ppn] == image
  }

  /** Where jobs may be loaded: unshared, unmapped pages, no two of them the same. */
  ghost predicate Clear(m: M, r: nat, jobs: seq<Job>) {
    && (forall i :: 0 <= i < |jobs| ==> Own(m, r, jobs[i].va) && !IsValid(At(m, LeafOf(r, jobs[i].va))) && |jobs[i].image| == PAGE_SIZE)
    && (forall i, j :: 0 <= i < j < |jobs| ==> PageNo(jobs[i].va) != PageNo(jobs[j].va))
  }

  lemma PagesApart(r: nat, a: nat, b: nat)
    requires PageNo(a) != PageNo(b)
    ensures LeafOf(r, a) != LeafOf(r, b)
  {
    PageNoSplits(a);
    PageNoSplits(b);
  }

  /** Entry x is as it was, and so is the page it leads to. */
  ghost predicate Kept(m: M, m1: M, x: Link) {
    At(m1, x) == At(m, x) && (InRam(Ptr(m, x)) ==> Known(m, Ptr(m, x)) && Known(m1, Ptr(m, x)) && m1.data[Ptr(m, x)] == m.data[Ptr(m, x)])
  }

  /** What loading one page does: that page is there, other entries are as before, and other pages hold what they held. */
  lemma LoadJobKeeps(m: M, r: nat, j: Job)
    requires Inv(m) && Own(m, r, j.va) && Room(m) >= 3 && !IsValid(At(m, LeafOf(r, j.va))) && |j.image| == PAGE_SIZE
    ensures Known(m, r)
    ensures (var m1 := LoadJob(m, r, j);
      Inv(m1) && m1.roots == m.roots && m1.shared == m.shared && Room(m1) >= Room(m) - 3 && Loaded(m1, r, j.va, j.image) &&
      (forall x :: LinkOk(m, x) && x.Leaf? && x != LeafOf(r, j.va) ==> Kept(m, m1, x)))
  {
    hide Inv, At, Known, LinkOk, MapPage, IsValid, LeafBits, Vpn0, Vpn1, Vpn2, Room;
    MapPageMaps(m, r, j.va, 1);
    var (m1, kva) := MapPage(m, r, j.va, 1);
    var f := FrameOf(kva);
    OwnLinks(m, r, j.va);
    SetDataKeeps(m1, f, j.image);
    SameLinks(m, m1);
    BitsValid(1);
    ValidBits(f, LeafBits(1));
    forall x | LinkOk(m, x) && x.Leaf? && x != LeafOf(r, j.va) && InRam(Ptr(m, x))
      ensures Ptr(m, x) != f
    {
    }
  }

  lemma SetDataKeeps(m: M, f: nat, bytes: seq<byte>)
    requires Inv(m) && Known(m, f) && |bytes| == PAGE_SIZE
    ensures (var m1 := m.(data := m.data[f := bytes]);
      Inv(m1) && m1.roots == m.roots && m1.shared == m.shared && Room(m1) == Room(m) &&
      (forall x :: At(m1, x) == At(m, x)) && (forall g :: Known(m1, g) <==> Known(m, g)))
  {
    var m1 := m.(data := m.data[f := bytes]);
    assert forall x :: (LinkOk(m1, x) <==> LinkOk(m, x)) && At(m1, x) == At(m, x) && Ptr(m1, x) == Ptr(m, x);
    assert forall g :: Known(m, g) <==> Known(m1, g);
    forall l | LinkOk(m1, l)
      ensures TargetOk(m1, l)
    {
      assert TargetOk(m, l);
    }
  }

  lemma ClearPrefix(m: M, r: nat, jobs: seq<Job>)
    requires Clear(m, r, jobs) && jobs != []
    ensures Clear(m, r, jobs[..|jobs| - 1])
  {
    hide At, IsValid, LinkOk, Vpn0, Vpn1, Vpn2, Own, PageNo;
  }

  /** Memory after some jobs: they are loaded, and entries of other pages and what those hold are as before. */
  ghost predicate After(m: M, m1: M, r: nat, jobs: seq<Job>) {
    && Inv(m1) && m1.roots == m.roots && m1.shared == m.shared && Room(m1) >= Room(m) - 3 * |jobs|
    && (forall i :: 0 <= i < |jobs| ==> Loaded(m1, r, jobs[i].va, jobs[i].image))
    && (forall x :: LinkOk(m, x) && x.Leaf? && (forall i :: 0 <= i < |jobs| ==> x != LeafOf(r, jobs[i].va)) ==> Kept(m, m1, x))
  }

  lemma KeptTrans(a: M, b: M, c: M, x: Link)
    requires Kept(a, b, x) && Kept(b, c, x)
    ensures Kept(a, c, x)
  {
    PtrsAt(a, b);
  }

  lemma KeptSelf(m: M, x: Link)
    requires Inv(m) && LinkOk(m, x)
    ensures Kept(m, m, x)
  {
    if InRam(Ptr(m, x)) {
      PagesKnown(m, x);
    }
  }

  lemma LoadedKept(m: M, m1: M, r: nat, va: nat, image: seq<byte>)
    requires Loaded(m, r, va, image) && Kept(m, m1, LeafOf(r, va))
    ensures Loaded(m1, r, va, image)
  {
    PtrAt(m, LeafOf(r, va));
  }

  lemma JobApart(m: M, r: nat, jobs: seq<Job>)
    requires Clear(m, r, jobs) && jobs != []
    ensures forall i :: 0 <= i < |jobs| - 1 ==> LeafOf(r, jobs[i].va) != LeafOf(r, jobs[|jobs| - 1].va)
    ensures forall i :: 0 <= i < |jobs| ==> LinkOk(m, LeafOf(r, jobs[i].va))
  {
    hide Vpn0, Vpn1, Vpn2, At, IsValid;
    forall i | 0 <= i < |jobs| - 1
      ensures LeafOf(r, jobs[i].va) != LeafOf(r, jobs[|jobs| - 1].va)
    {
      PagesApart(r, jobs[i].va, jobs[|jobs| - 1].va);
    }
    forall i | 0 <= i < |jobs|
      ensures LinkOk(m, LeafOf(r, jobs[i].va))
    {
      OwnLinks(m, r, jobs[i].va);
    }
  }

  /** Every page of the list ends up mapped and filled, whatever is loaded after it. */
  lemma {:induction false} LoadJobsKeeps(m: M, r: nat, jobs: seq<Job>)
    requires Inv(m) && Clear(m, r, jobs) && Room(m) >= 3 * |jobs|
    ensures After(m, LoadJobs(m, r, jobs), r, jobs)
    decreases |jobs|
  {
    hide Inv, At, Known, LinkOk, LoadJob, IsValid, Vpn0, Vpn1, Vpn2, Room, Loaded, Kept, Clear, Ptr, Own, PageNo;
    if jobs == [] {
      forall x | LinkOk(m, x)
        ensures Kept(m, m, x)
      {
        KeptSelf(m, x);
      }
    } else {
      var n := |jobs| - 1;
      var m0, j := LoadJobs(m, r, jobs[..n]), jobs[n];
      ClearPrefix(m, r, jobs);
      LoadJobsKeeps(m, r, jobs[..n]);
      JobApart(m, r, jobs);
      ClearLast(m, m0, r, jobs);
      LoadJobKeeps(m0, r, j);
      SameLinks(m, m0);
      AfterJoins(m, m0, LoadJob(m0, r, j), r, jobs);
    }
  }

  lemma ClearLast(m: M, m0: M, r: nat, jobs: seq<Job>)
    requires Clear(m, r, jobs) && jobs != [] && After(m, m0, r, jobs[..|jobs| - 1])
    requires forall i :: 0 <= i < |jobs| - 1 ==> LeafOf(r, jobs[i].va) != LeafOf(r, jobs[|jobs| - 1].va)
    requires LinkOk(m, LeafOf(r, jobs[|jobs| - 1].va))
    ensures var j := jobs[|jobs| - 1]; Own(m0, r, j.va) && !IsValid(At(m0, LeafOf(r, j.va))) && |j.image| == PAGE_SIZE
  {
    hide Inv, At, Known, LinkOk, IsValid, Vpn0, Vpn1, Vpn2, Room, Loaded, PageNo;
    assert Kept(m, m0, LeafOf(r, jobs[|jobs| - 1].va));
  }

  lemma AfterJoins(m: M, m0: M, m1: M, r: nat, jobs: seq<Job>)
    requires jobs != [] && After(m, m0, r, jobs[..|jobs| - 1])
    requires (forall x :: LinkOk(m, x) <==> LinkOk(m0, x)) && (forall i :: 0 <= i < |jobs| ==> LinkOk(m, LeafOf(r, jobs[i].va)))
    requires forall i :: 0 <= i < |jobs| - 1 ==> LeafOf(r, jobs[i].va) != LeafOf(r, jobs[|jobs| - 1].va)
    requires Inv(m1) && m1.roots == m0.roots && m1.shared == m0.shared && Room(m1) >= Room(m0) - 3
    requires Loaded(m1, r, jobs[|jobs| - 1].va, jobs[|jobs| - 1].image)
    requires forall x :: LinkOk(m0, x) && x.Leaf? && x != LeafOf(r, jobs[|jobs| - 1].va) ==> Kept(m0, m1, x)
    ensures After(m, m1, r, jobs)
  {
    hide Inv, At, Known, LinkOk, IsValid, Vpn0, Vpn1, Vpn2, Room, Loaded, PageNo, Kept;
    var n := |jobs| - 1;
    forall i | 0 <= i < |jobs|
      ensures Loaded(m1, r, jobs[i].va, jobs[i].image)
    {
      if i < n {
        assert jobs[..n][i] == jobs[i];
        LoadedKept(m0, m1, r, jobs[i].va, jobs[i].image);
      }
    }
    forall x | LinkOk(m, x) && x.Leaf? && (forall i :: 0 <= i < |jobs| ==> x != LeafOf(r, jobs[i].va))
      ensures Kept(m, m1, x)
    {
      KeptTrans(m, m0, m1, x);
    }
  }

  // ---------- The whole file ----------

  /** Loadable segments lie in the file and start at page boundaries, and their sizes fit the loader's counter. */
  ghost predicate GoodFile(file: seq<byte>) {
    && Whole(file)
    && (forall j: nat :: j < PhNum(file) && Header(file, j).ptype == PT_LOAD ==> GoodSegment(file, Header(file, j)))
  }

  predicate GoodSegment(file: seq<byte>, s: Segment) {
    InFile(file, s) && s.vaddr % PAGE_SIZE == 0 && s.memsz < 0x8000_0000
  }

  /** Page i of header k is on the list. */
  lemma {:induction false} JobFor(file: seq<byte>, n: nat, k: nat, i: nat) returns (x: nat)
    requires GoodFile(file) && k < n <= PhNum(file) && Header(file, k).ptype == PT_LOAD && i < PageCount(Header(file, k))
    ensures x < |Jobs(file, n)| && Jobs(file, n)[x] == Job(Header(file, k).vaddr + i * PAGE_SIZE, PageImage(file, Header(file, k), i))
    decreases n
  {
    hide Header, PageImage, PageCount, Whole, PhNum;
    if k == n - 1 {
      x := |Jobs(file, n - 1)| + i;
    } else {
      x := JobFor(file, n - 1, k, i);
    }
  }

  /** r's page table leads from va to memory, and there to byte b. */
  predicate HasByte(m: M, r: nat, va: nat, b: byte) {
    match Lookup(m, r, va)
    case Unmapped => false
    case Mapped(e) => e.ppn in m.data && |m.data[e.ppn]| == PAGE_SIZE && m.data[e.ppn][va % PAGE_SIZE] == b
  }

  lemma LoadedByte(m: M, r: nat, va: nat, k: nat, image: seq<byte>)
    requires Inv(m) && Own(m, r, va) && va % PAGE_SIZE == 0 && k < PAGE_SIZE && Loaded(m, r, va, image) && |image| == PAGE_SIZE
    ensures HasByte(m, r, va + k, image[k])
  {
    hide Inv, At, LinkOk, IsValid, Vpn0, Vpn1, Vpn2, Lookup;
    SamePageNo(va, k);
    LookupIs(m, r, va + k);
  }

  lemma SamePageNo(va: nat, k: nat)
    requires va % PAGE_SIZE == 0 && k < PAGE_SIZE
    ensures Vpn0(va + k) == Vpn0(va) && Vpn1(va + k) == Vpn1(va) && Vpn2(va + k) == Vpn2(va) && (va + k) % PAGE_SIZE == k
  {
    hide Vpn0, Vpn1, Vpn2;
    PageNoSplits(va);
    PageNoSplits(va + k);
    SameNo(va, k);
  }

  lemma SameNo(va: nat, k: nat)
    requires va % PAGE_SIZE == 0 && k < PAGE_SIZE
    ensures PageNo(va + k) == PageNo(va) && (va + k) % PAGE_SIZE == k
  {
    var n := va / PAGE_SIZE;
    NoOf(n, k);
    NoOf(n, 0);
  }

  /** The page number of an address, from its page and its offset there. */
  lemma NoOf(n: nat, k: nat)
    requires k < PAGE_SIZE
    ensures PageNo(n * PAGE_SIZE + k) == n % 0x800_0000 && (n * PAGE_SIZE + k) % PAGE_SIZE == k
  {
    var a, b := n / 0x800_0000, n % 0x800_0000;
    SplitOff(a, b * PAGE_SIZE + k);
    PageDiv(b, k);
    PageDiv(n, k);
  }

  lemma SplitOff(a: nat, low: nat)
    requires low < 0x80_0000_0000
    ensures (0x80_0000_0000 * a + low) % 0x80_0000_0000 == low
  {
  }

  lemma PageDiv(n: nat, k: nat)
    requires k < PAGE_SIZE
    ensures (n * PAGE_SIZE + k) / PAGE_SIZE == n && (n * PAGE_SIZE + k) % PAGE_SIZE == k
  {
  }

  /** load_elf builds the exact image: at each address of a loadable segment, up to the end of its last page,
      stands the file's byte or, past the bytes in the file, 0. */
  lemma ImageIsExact(m: M, r: nat, file: seq<byte>, k: nat, o: nat)
    requires Inv(m) && GoodFile(file) && Clear(m, r, Jobs(file, PhNum(file))) && Room(m) >= 3 * |Jobs(file, PhNum(file))|
    requires k < PhNum(file) && Header(file, k).ptype == PT_LOAD && o < PageCount(Header(file, k)) * PAGE_SIZE
    ensures Inv(LoadJobs(m, r, Jobs(file, PhNum(file))))
    ensures (var s := Header(file, k);
      HasByte(LoadJobs(m, r, Jobs(file, PhNum(file))), r, s.vaddr + o, if o < s.filesz then file[s.offset + o] else 0))
  {
    hide Inv, At, LinkOk, IsValid, Lookup, Header, PageCount, PhNum, Jobs, LoadJobs, Room, Loaded, Vpn0, Vpn1, Vpn2, PageImage, PageNo;
    var s, i := Header(file, k), o / PAGE_SIZE;
    var jobs := Jobs(file, PhNum(file));
    LoadJobsKeeps(m, r, jobs);
    var m1 := LoadJobs(m, r, jobs);
    var x := JobFor(file, PhNum(file), k, i);
    assert Own(m, r, jobs[x].va);
    LoadedByte(m1, r, s.vaddr + i * PAGE_SIZE, o % PAGE_SIZE, PageImage(file, s, i));
    assert s.vaddr + i * PAGE_SIZE + o % PAGE_SIZE == s.vaddr + o;
  }

  // ---------- load_elf as it is written ----------

  lemma {:induction false} JobsPrefix(file: seq<byte>, k: nat, n: nat)
    requires GoodFile(file) && k <= n <= PhNum(file)
    ensures Jobs(file, k) <= Jobs(file, n)
    decreases n
  {
    hide Header, PageImage, PageCount, PhNum;
    if k < n {
      JobsPrefix(file, k, n - 1);
    }
  }

  lemma ClearTo(m: M, r: nat, jobs: seq<Job>, some: seq<Job>)
    requires Clear(m, r, jobs) && some <= jobs
    ensures Clear(m, r, some)
  {
    hide At, IsValid, LinkOk, Vpn0, Vpn1, Vpn2, Own, PageNo;
  }

  /** Before the next page is loaded there is memory for it and it is not yet mapped. */
  lemma NextJob(m: M, r: nat, jobs: seq<Job>, some: seq<Job>, j: Job)
    requires Inv(m) && Clear(m, r, jobs) && Room(m) >= 3 * |jobs| && some + [j] <= jobs
    ensures (var m0 := LoadJobs(m, r, some);
      Inv(m0) && Own(m0, r, j.va) && Room(m0) >= 3 && Known(m0, r) && !IsValid(At(m0, LeafOf(r, j.va))) &&
      LoadJobs(m, r, some + [j]) == LoadJob(m0, r, j))
  {
    hide Inv, At, Known, LinkOk, LoadJob, IsValid, Vpn0, Vpn1, Vpn2, Room, Loaded, Kept, Clear, Own, PageNo;
    var all := some + [j];
    assert all[..|all| - 1] == some && all[|all| - 1] == j;
    ClearTo(m, r, jobs, all);
    ClearPrefix(m, r, all);
    LoadJobsKeeps(m, r, some);
    JobApart(m, r, all);
    ClearLast(m, LoadJobs(m, r, some), r, all);
    OwnRoot(LoadJobs(m, r, some), r, j.va);
  }

  lemma OwnRoot(m: M, r: nat, va: nat)
    requires Inv(m) && Own(m, r, va)
    ensures Known(m, r)
  {
  }

  /** The body of load_elf's inner loop: one page allocated, then copied and zero-filled. */
  method LoadPage(mem: Memory, file: seq<byte>, s: Segment, i: nat, pgdir: nat)
    requires Inv(mem.State()) && Own(mem.State(), FrameOf(pgdir), s.vaddr + i) && Room(mem.State()) >= 3
    requires InFile(file, s) && i % PAGE_SIZE == 0 && !IsValid(At(mem.State(), LeafOf(FrameOf(pgdir), s.vaddr + i)))
    modifies mem`table, mem`data, mem`curr, mem`free
    ensures Known(old(mem.State()), FrameOf(pgdir))
    ensures mem.State() == LoadJob(old(mem.State()), FrameOf(pgdir), Job(s.vaddr + i, PageImage(file, s, i / PAGE_SIZE)))
  {
    hide Inv, At, LinkOk, MapPage, IsValid, LeafBits, Vpn0, Vpn1, Vpn2, Room, Own;
    MapPageMaps(mem.State(), FrameOf(pgdir), s.vaddr + i, 1);
    var kva := mem.AllocPageHelper(s.vaddr + i, pgdir, 1);
    var f := FrameOf(kva);
    FillPage(mem, file, s, i, f);
  }

  method FillPage(mem: Memory, file: seq<byte>, s: Segment, i: nat, f: nat)
    requires Known(mem.State(), f) && InFile(file, s) && i % PAGE_SIZE == 0
    modifies mem`data
    ensures mem.data == old(mem.data)[f := PageImage(file, s, i / PAGE_SIZE)]
  {
    assert i / PAGE_SIZE * PAGE_SIZE == i;
    if i < s.filesz {
      var n := if s.filesz - i < PAGE_SIZE then s.filesz - i else PAGE_SIZE;
      mem.data := mem.data[f := file[s.offset + i..s.offset + i + n] + mem.data[f][n..]];
      if s.filesz - i < PAGE_SIZE {
        assert s.filesz % PAGE_SIZE == n;
        ZeroFrom(mem, f, s.filesz % PAGE_SIZE);
      }
    } else {
      ZeroFrom(mem, f, 0);
    }
    assert mem.data[f] == PageImage(file, s, i / PAGE_SIZE);
  }

  /** The loops that clear the rest of a page. */
  method ZeroFrom(mem: Memory, f: nat, start: nat)
    requires f in mem.data && |mem.data[f]| == PAGE_SIZE && start <= PAGE_SIZE
    modifies mem`data
    ensures f in mem.data && |mem.data[f]| == PAGE_SIZE && mem.data == old(mem.data)[f := mem.data[f]]
    ensures forall k :: 0 <= k < PAGE_SIZE ==> mem.data[f][k] == if k < start then old(mem.data)[f][k] else 0
  {
    for j := start to PAGE_SIZE
      invariant f in mem.data && |mem.data[f]| == PAGE_SIZE && mem.data == old(mem.data)[f := mem.data[f]]
      invariant forall k :: 0 <= k < PAGE_SIZE ==> mem.data[f][k] == if start <= k < j then 0 else old(mem.data)[f][k]
    {
      mem.data := mem.data[f := mem.data[f][j := 0]];
    }
  }

  /** The inner loop of load_elf: all pages of one segment. */
  method LoadSegment(mem: Memory, file: seq<byte>, k: nat, pgdir: nat, ghost m: M)
    requires GoodFile(file) && k < PhNum(file) && Header(file, k).ptype == PT_LOAD
    requires Inv(m) && Clear(m, FrameOf(pgdir), Jobs(file, PhNum(file))) && Room(m) >= 3 * |Jobs(file, PhNum(file))|
    requires mem.State() == LoadJobs(m, FrameOf(pgdir), Jobs(file, k))
    modifies mem`table, mem`data, mem`curr, mem`free
    ensures mem.State() == LoadJobs(m, FrameOf(pgdir), Jobs(file, k + 1))
  {
    hide Inv, At, LinkOk, MapPage, IsValid, Vpn0, Vpn1, Vpn2, Room, Own, LoadJobs, LoadJob, Header, PhNum, PageImage, Clear, Known;
    ghost var all, r := Jobs(file, PhNum(file)), FrameOf(pgdir);
    var s := Header(file, k);
    JobsPrefix(file, k + 1, PhNum(file));
    var i := 0;
    ghost var n: nat := 0;
    assert Jobs(file, k) + SegmentJobs(file, s, 0) == Jobs(file, k);
    while i < s.memsz
      invariant i == n * PAGE_SIZE && n <= PageCount(s)
      invariant mem.State() == LoadJobs(m, r, Jobs(file, k) + SegmentJobs(file, s, n))
    {
      ghost var some := Jobs(file, k) + SegmentJobs(file, s, n);
      ghost var j := Job(s.vaddr + i, PageImage(file, s, i / PAGE_SIZE));
      assert i / PAGE_SIZE == n;
      SegmentNext(file, s, n);
      assert some + [j] == Jobs(file, k) + SegmentJobs(file, s, n + 1);
      SegmentPrefix(file, k, n + 1);
      NextJob(m, r, all, some, j);
      LoadPage(mem, file, s, i, pgdir);
      i := i + PAGE_SIZE;
      n := n + 1;
    }
    assert n == PageCount(s);
  }

  lemma SegmentNext(file: seq<byte>, s: Segment, n: nat)
    requires InFile(file, s)
    ensures SegmentJobs(file, s, n + 1) == SegmentJobs(file, s, n) + [Job(s.vaddr + n * PAGE_SIZE, PageImage(file, s, n))]
  {
    hide PageImage;
  }

  lemma SegmentPrefix(file: seq<byte>, k: nat, n: nat)
    requires GoodFile(file) && k < PhNum(file) && Header(file, k).ptype == PT_LOAD && n <= PageCount(Header(file, k))
    ensures Jobs(file, k) + SegmentJobs(file, Header(file, k), n) <= Jobs(file, PhNum(file))
  {
    hide Header, PhNum, PageImage, PageCount;
    var s := Header(file, k);
    JobsPrefix(file, k + 1, PhNum(file));
    assert Jobs(file, k) + SegmentJobs(file, s, n) <= Jobs(file, k) + SegmentJobs(file, s, PageCount(s));
  }

  /** load_elf, into the directory at kernel address pgdir. */
  method LoadElf(mem: Memory, file: seq<byte>, pgdir: nat) returns (entry: nat)
    requires Inv(mem.State())
    requires !Refused(file) ==> GoodFile(file) && Clear(mem.State(), FrameOf(pgdir), Jobs(file, PhNum(file)))
    requires !Refused(file) ==> Room(mem.State()) >= 3 * |Jobs(file, PhNum(file))|
    modifies mem`table, mem`data, mem`curr, mem`free
    ensures Refused(file) ==> entry == 0 && mem.State() == old(mem.State())
    ensures !Refused(file) ==>
      entry == EntryPoint(file) && mem.State() == LoadJobs(old(mem.State()), FrameOf(pgdir), Jobs(file, PhNum(file)))
  {
    hide Inv, At, LinkOk, IsValid, Room, LoadJobs, Clear, Number;
    if |file| < 4 || IsElfFormat(file) == 0 {
      return 0;
    }
    ghost var m := mem.State();
    NoJobs(m, FrameOf(pgdir));
    var ph, count, size := PhOff(file), PhNum(file), PhEntSize(file);
    ghost var k: nat := 0;
    while count > 0
      invariant k + count == PhNum(file) && ph == PhOff(file) + k * size
      invariant mem.State() == LoadJobs(m, FrameOf(pgdir), Jobs(file, k))
    {
      HeaderFits(file, k);
      var s := SegmentAt(file, ph);
      assert s == Header(file, k);
      if s.ptype == PT_LOAD {
        LoadSegment(mem, file, PhNum(file) - count, pgdir, m);
      } else {
        JobsSkip(file, k);
      }
      ph := ph + size;
      NextTimes(k, size);
      count := count - 1;
      k := k + 1;
    }
    entry := EntryPoint(file);
  }

  lemma JobsSkip(file: seq<byte>, k: nat)
    requires GoodFile(file) && k < PhNum(file) && Header(file, k).ptype != PT_LOAD
    ensures Jobs(file, k + 1) == Jobs(file, k)
  {
  }

  lemma NextTimes(k: nat, size: nat)
    ensures k * size + size == (k + 1) * size
  {
  }

  lemma NoJobs(m: M, r: nat)
    ensures LoadJobs(m, r, []) == m
  {
  }
}
