/** ioremap: a range of device memory mapped page by page into the kernel's own table. */
module VmIo {
  import opened VmMemory
  import opened VmMap

  const KERNEL_ROOT := 0x5e000
  const IO_ADDR_START := 0xffff_ffe0_0000_0000
  /** The I/O space reaches up to the end of the address space, which is 128 top-level slots from the first on. */
  const IO_END := 0x1_0000_0000_0000_0000
  const IO_SLOT := 384
  const IO_BITS: bv10 := 0xCF

  lemma IoBits()
    ensures IO_BITS == PRESENT | READ | WRITE | EXEC | ACCESSED | DIRTY
    ensures IO_BITS & PRESENT != 0
  {
  }

  /** There is memory for the tables that va still lacks. */
  predicate TablesFit(m: M, va: nat) {
    Room(m) >= Lacking(m, KERNEL_ROOT, va)
  }

  /** One turn of ioremap's loop, for a page of device memory; a page mapped there before is replaced. */
  function IoStep(m: M, va: nat, pfn: nat): (r: M)
    requires Known(m, KERNEL_ROOT) && TablesFit(m, va)
  {
    var i, j, k := Vpn2(va), Vpn1(va), Vpn0(va);
    var m1 := EnsureTable(m, Top(KERNEL_ROOT, i), PRESENT);
    if !(Known(m1, Node(m1, Mid(KERNEL_ROOT, i, j))) && (IsValid(At(m1, Mid(KERNEL_ROOT, i, j))) || Room(m1) > 0)) then m1
    else
      var m2 := EnsureTable(m1, Mid(KERNEL_ROOT, i, j), PRESENT);
      if !Known(m2, Node(m2, LeafOf(KERNEL_ROOT, va))) then m2
      else Fill(m2, LeafOf(KERNEL_ROOT, va), SetAttribute(SetPfn(pfn), IO_BITS))
  }

  /** A device page. */
  predicate Device(pfn: nat) {
    0 < pfn < 0x1000_0000_0000 && !InRam(pfn)
  }

  lemma PresentBit()
    ensures PRESENT & PRESENT != 0
  {
  }

  /** One turn maps exactly its page. */
  lemma IoStepMaps(m: M, va: nat, pfn: nat)
    requires Inv(m) && Own(m, KERNEL_ROOT, va) && TablesFit(m, va) && Device(pfn)
    ensures Known(m, KERNEL_ROOT)
    ensures (var m1 := IoStep(m, va, pfn);
      Inv(m1) && m1.roots == m.roots && m1.shared == m.shared && SamePages(m, m1) && HasTables(m1, KERNEL_ROOT, va) &&
      Room(m1) >= Room(m) - Lacking(m, KERNEL_ROOT, va) &&
      At(m1, LeafOf(KERNEL_ROOT, va)) == Pte(pfn, IO_BITS) &&
      (forall x :: LinkOk(m, x) && x != LeafOf(KERNEL_ROOT, va) ==> Untouched(m, m1, x)))
  {
    hide Inv, At, Known, LinkOk, EnsureTable, IsValid, SamePages, Fill, Loose;
    PresentBit();
    TablesFor(m, KERNEL_ROOT, va, PRESENT);
    OwnLinks(m, KERNEL_ROOT, va);
    var i, j, l := Vpn2(va), Vpn1(va), LeafOf(KERNEL_ROOT, va);
    var m1 := EnsureTable(m, Top(KERNEL_ROOT, i), PRESENT);
    var m2 := EnsureTable(m1, Mid(KERNEL_ROOT, i, j), PRESENT);
    SameLinks(m, m2);
    var e := Pte(pfn, IO_BITS);
    OrZero(IO_BITS);
    assert SetAttribute(SetPfn(pfn), IO_BITS) == e;
    assert MayFill(m2, l, e);
    FillKeeps(m2, l, e);
    FillRest(m2, l, e);
    FillRoom(m2, l, e);
    FillSamePages(m2, l, e);
    SamePagesTrans(m, m2, Fill(m2, l, e));
    OwnLinks(m2, KERNEL_ROOT, va);
    TablesFound(Fill(m2, l, e), va);
    var m3 := Fill(m2, l, e);
    SameLinks(m2, m3);
    NodeSame(m2, l, e);
    PtrsAt(m2, m3);
    forall x | LinkOk(m, x) && x != l
      ensures Untouched(m, m3, x)
    {
      assert At(m3, x) == At(m2, x);
      SamePagesAt(m, m3, x);
    }
  }

  lemma SamePagesAt(m: M, m1: M, x: Link)
    requires SamePages(m, m1) && LinkOk(m, x)
    ensures InRam(Ptr(m, x)) ==> Known(m, Ptr(m, x)) && Known(m1, Ptr(m, x)) && m1.data[Ptr(m, x)] == m.data[Ptr(m, x)]
  {
  }

  lemma NodeSame(m: M, l: Link, e: Pte)
    requires Inv(m) && MayFill(m, l, e) && Known(m, Node(m, l)) && Slot(l) < ENTRIES
    ensures Node(Fill(m, l, e), l) == Node(m, l)
  {
    FillAt(m, l, e);
  }

  lemma TablesFound(m: M, va: nat)
    requires Inv(m) && Own(m, KERNEL_ROOT, va)
    ensures Node(m, LeafOf(KERNEL_ROOT, va)) != 0 ==> HasTables(m, KERNEL_ROOT, va)
  {
    hide Inv, IsValid, LinkOk;
    OwnLinks(m, KERNEL_ROOT, va);
    WalkStep(m, Top(KERNEL_ROOT, Vpn2(va)));
    WalkStep(m, Mid(KERNEL_ROOT, Vpn2(va), Vpn1(va)));
    LinkRoot(m, LeafOf(KERNEL_ROOT, va));
  }

  // ---------- The whole range ----------

  /** Over how many last-level tables, and how many tables above those, n pages from page number p on are spread. */
  function SpannedLow(p: nat, n: nat): int {
    if n == 0 then 0 else (p + n - 1) / 512 - p / 512 + 1
  }

  function SpannedHigh(p: nat, n: nat): int {
    if n == 0 then 0 else (p + n - 1) / 0x4_0000 - p / 0x4_0000 + 1
  }

  /** There is memory for the tables of both levels that the range needs, but for those its first page has. */
  predicate RangeFits(m: M, va: nat, n: nat) {
    n > 0 ==>
      Room(m) >= SpannedLow(PageNo(va), n) + SpannedHigh(PageNo(va), n) - 2 + Lacking(m, KERNEL_ROOT, va)
  }

  /** The range lies in the I/O space, and its end is still an address. */
  predicate InIoSpace(va: nat, n: nat) {
    va % PAGE_SIZE == 0 && IO_ADDR_START <= va && va + n * PAGE_SIZE < IO_END
  }

  /** The kernel's directory and all slots of the I/O space in it, which no other directory shares. */
  predicate IoOwn(m: M) {
    KERNEL_ROOT in m.roots && forall i :: IO_SLOT <= i < ENTRIES ==> i !in m.shared
  }

  lemma IoOwns(m: M, va: nat, n: nat)
    requires IoOwn(m) && InIoSpace(va, n) && n > 0
    ensures Own(m, KERNEL_ROOT, va)
  {
    hide Vpn2, PageNo;
    IoVpn(va, 0);
  }

  predicate Devices(pfn: nat, n: nat) {
    0 < pfn && pfn + n <= 0x1000_0000_0000 && (pfn + n <= FIRST_FRAME || LIMIT_FRAME <= pfn)
  }

  /** Addresses of the I/O space, by page. */
  lemma IoVpn(va: nat, k: nat)
    requires InIoSpace(va, k + 1)
    ensures IO_SLOT <= Vpn2(va + k * PAGE_SIZE) < ENTRIES
    ensures PageNo(va + k * PAGE_SIZE) == PageNo(va) + k
  {
    LowHalf(va - IO_ADDR_START);
    LowHalf(va + k * PAGE_SIZE - IO_ADDR_START);
    IoPages(va - IO_ADDR_START, k);
  }

  lemma LowHalf(off: nat)
    requires off < 0x20_0000_0000
    ensures (IO_ADDR_START + off) % 0x80_0000_0000 == 0x60_0000_0000 + off
  {
    assert IO_ADDR_START == 0x80_0000_0000 * 0x1FF_FFFF + 0x60_0000_0000;
  }

  /** Page numbers in the upper half of the kernel's part. */
  lemma IoPages(off: nat, k: nat)
    requires off % PAGE_SIZE == 0 && off + k * PAGE_SIZE < 0x20_0000_0000
    ensures IO_SLOT <= (0x60_0000_0000 + off + k * PAGE_SIZE) / 0x4000_0000 % 512
    ensures (0x60_0000_0000 + off + k * PAGE_SIZE) / PAGE_SIZE == (0x60_0000_0000 + off) / PAGE_SIZE + k
  {
    var p := off / PAGE_SIZE;
    assert 0x60_0000_0000 + off + k * PAGE_SIZE == PAGE_SIZE * (0x600_0000 + p + k);
    assert 0x60_0000_0000 + off == PAGE_SIZE * (0x600_0000 + p);
    IoSlot(off + k * PAGE_SIZE);
  }

  lemma IoSlot(off: nat)
    requires off < 0x20_0000_0000
    ensures IO_SLOT <= (0x60_0000_0000 + off) / 0x4000_0000 % 512
  {
    assert (0x60_0000_0000 + off) / 0x4000_0000 == IO_SLOT + off / 0x4000_0000;
  }

  /** ioremap's loop: n pages from va on, to the device pages from pfn on. */
  function IoMap(m: M, va: nat, pfn: nat, n: nat): M
    requires Known(m, KERNEL_ROOT)
    decreases n
  {
    if n == 0 || !TablesFit(m, va) then m
    else
      var m1 := IoStep(m, va, pfn);
      if !Known(m1, KERNEL_ROOT) then m1 else IoMap(m1, va + PAGE_SIZE, pfn + 1, n - 1)
  }

  /** The upper two indices, by page number. */
  lemma UpperIndices(va: nat)
    ensures PageNo(va) / 512 == Vpn2(va) * 512 + Vpn1(va) && PageNo(va) / (0x4_0000) == Vpn2(va)
  {
    PageNoSplits(va);
  }

  /** A page whose predecessor has its tables lacks at most those of the levels that the step enters anew. */
  lemma LackingNext(m: M, va: nat, n: nat)
    requires InIoSpace(va, n) && n > 1 && HasTables(m, KERNEL_ROOT, va)
    ensures (var p := PageNo(va);
      PageNo(va + PAGE_SIZE) == p + 1 &&
      Lacking(m, KERNEL_ROOT, va + PAGE_SIZE) <= (if (p + 1) / 512 == p / 512 then 0 else if (p + 1) / (0x4_0000) == p / (0x4_0000) then 1 else 2))
  {
    hide IsValid, At, Vpn1, Vpn2, PageNo, InIoSpace;
    TwoPages(va, n);
    IoVpn(va, 1);
    UpperIndices(va);
    UpperIndices(va + PAGE_SIZE);
    if (PageNo(va) + 1) / 512 == PageNo(va) / 512 {
      assert (PageNo(va) + 1) / (0x4_0000) == PageNo(va) / (0x4_0000) by { Coarser(PageNo(va)); }
    }
  }

  lemma Coarser(p: nat)
    ensures p / (0x4_0000) == p / 512 / 512 && (p + 1) / (0x4_0000) == (p + 1) / 512 / 512
  {
  }

  lemma TwoPages(va: nat, n: nat)
    requires InIoSpace(va, n) && n > 1
    ensures InIoSpace(va, 2)
  {
  }

  lemma SpannedNext(p: nat, n: nat)
    requires n > 1
    ensures SpannedLow(p, n) == SpannedLow(p + 1, n - 1) + (if (p + 1) / 512 == p / 512 then 0 else 1)
    ensures SpannedHigh(p, n) == SpannedHigh(p + 1, n - 1) + (if (p + 1) / 0x4_0000 == p / 0x4_0000 then 0 else 1)
  {
  }

  lemma RangeStep(m: M, m1: M, va: nat, n: nat)
    requires InIoSpace(va, n) && n > 0 && RangeFits(m, va, n) && HasTables(m1, KERNEL_ROOT, va)
    requires Room(m1) >= Room(m) - Lacking(m, KERNEL_ROOT, va)
    ensures TablesFit(m, va) && RangeFits(m1, va + PAGE_SIZE, n - 1)
  {
    hide Lacking, HasTables, Room, PageNo, InIoSpace, SpannedLow, SpannedHigh;
    FirstFits(m, va, n);
    if n > 1 {
      LackingNext(m1, va, n);
      SpannedNext(PageNo(va), n);
      Coarser(PageNo(va));
    }
  }

  /** Page k of the range leads to device page pfn + k, and nothing else changes for anybody. */
  ghost predicate RangeMapped(m: M, m1: M, va: nat, pfn: nat, n: nat) {
    && Inv(m1) && m1.roots == m.roots && m1.shared == m.shared
    && (forall k: nat :: k < n ==> At(m1, LeafOf(KERNEL_ROOT, va + k * PAGE_SIZE)) == Pte(pfn + k, IO_BITS))
    && forall x :: LinkOk(m, x) && !InRange(va, n, x) ==> Untouched(m, m1, x)
  }

  /** x is the leaf entry of a page of the range. */
  ghost predicate InRange(va: nat, n: nat, x: Link) {
    exists k: nat :: k < n && x == LeafOf(KERNEL_ROOT, va + k * PAGE_SIZE)
  }

  /** A leaf entry is as it was, and whatever memory x leads to holds what it held. */
  ghost predicate Untouched(m: M, m1: M, x: Link) {
    && (x.Leaf? ==> At(m1, x) == At(m, x))
    && (InRam(Ptr(m, x)) ==>
         Ptr(m1, x) == Ptr(m, x) && Known(m, Ptr(m, x)) && Known(m1, Ptr(m, x)) && m1.data[Ptr(m, x)] == m.data[Ptr(m, x)])
  }

  lemma InRangeStep(va: nat, n: nat, x: Link)
    requires n > 0
    ensures InRange(va, n, x) <==> x == LeafOf(KERNEL_ROOT, va) || InRange(va + PAGE_SIZE, n - 1, x)
  {
    hide Vpn0, Vpn1, Vpn2;
    if InRange(va, n, x) {
      var k: nat :| k < n && x == LeafOf(KERNEL_ROOT, va + k * PAGE_SIZE);
      if k > 0 {
        assert x == LeafOf(KERNEL_ROOT, va + PAGE_SIZE + (k - 1) * PAGE_SIZE);
      }
    }
    if InRange(va + PAGE_SIZE, n - 1, x) {
      var k: nat :| k < n - 1 && x == LeafOf(KERNEL_ROOT, va + PAGE_SIZE + k * PAGE_SIZE);
      assert x == LeafOf(KERNEL_ROOT, va + (k + 1) * PAGE_SIZE);
    }
    if x == LeafOf(KERNEL_ROOT, va) {
      assert x == LeafOf(KERNEL_ROOT, va + 0 * PAGE_SIZE);
    }
  }

  lemma UntouchedTrans(a: M, b: M, c: M, x: Link)
    requires Untouched(a, b, x) && Untouched(b, c, x)
    ensures Untouched(a, c, x)
  {
    hide At, Known, Ptr;
  }

  lemma SpaceStep(va: nat, pfn: nat, n: nat)
    requires n > 0 && InIoSpace(va, n) && Devices(pfn, n)
    ensures InIoSpace(va + PAGE_SIZE, n - 1) && Devices(pfn + 1, n - 1) && Device(pfn)
  {
  }

  lemma {:induction false} IoMapMaps(m: M, va: nat, pfn: nat, n: nat)
    requires Inv(m) && IoOwn(m)
    requires InIoSpace(va, n) && Devices(pfn, n) && RangeFits(m, va, n)
    ensures Known(m, KERNEL_ROOT) && RangeMapped(m, IoMap(m, va, pfn, n), va, pfn, n)
    decreases n
  {
    hide Inv, At, Known, LinkOk, IsValid, SamePages, IoStep, Room, HasTables, Lacking, RangeFits, TablesFit, Untouched, Ptr, Vpn0, Vpn1, Vpn2, InIoSpace, Devices, Device, IoOwn;
    IoRoot(m);
    RootKnown(m, KERNEL_ROOT);
    NoneTouched(m);
    if n > 0 {
      SpaceStep(va, pfn, n);
      IoOwns(m, va, n);
      FirstFits(m, va, n);
      IoStepMaps(m, va, pfn);
      var m1 := IoStep(m, va, pfn);
      RangeStep(m, m1, va, n);
      SameIoOwn(m, m1);
      RootKnown(m1, KERNEL_ROOT);
      IoMapMaps(m1, va + PAGE_SIZE, pfn + 1, n - 1);
      RangeJoins(m, m1, IoMap(m, va, pfn, n), va, pfn, n);
    }
  }

  lemma IoRoot(m: M)
    requires IoOwn(m)
    ensures KERNEL_ROOT in m.roots
  {
  }

  lemma SameIoOwn(m: M, m1: M)
    requires m1.roots == m.roots && m1.shared == m.shared
    ensures IoOwn(m1) <==> IoOwn(m)
  {
  }

  lemma NoneTouched(m: M)
    requires Inv(m)
    ensures forall x :: LinkOk(m, x) ==> Untouched(m, m, x)
  {
    hide Inv, Ptr, LinkOk;
    forall x | LinkOk(m, x)
      ensures Untouched(m, m, x)
    {
      if InRam(Ptr(m, x)) {
        PagesKnown(m, x);
      }
    }
  }

  lemma FirstFits(m: M, va: nat, n: nat)
    requires n > 0 && RangeFits(m, va, n)
    ensures TablesFit(m, va)
  {
    hide Lacking, Room, PageNo;
    SpannedSome(PageNo(va), n);
  }

  lemma SpannedSome(p: nat, n: nat)
    requires n > 0
    ensures SpannedLow(p, n) >= 1 && SpannedHigh(p, n) >= 1
  {
  }

  lemma RootKnown(m: M, r: nat)
    requires Inv(m) && r in m.roots
    ensures Known(m, r)
  {
  }

  lemma RangeJoins(m: M, m1: M, m2: M, va: nat, pfn: nat, n: nat)
    requires n > 0 && InIoSpace(va, n) && IoOwn(m)
    requires m1.roots == m.roots && m1.shared == m.shared
    requires At(m1, LeafOf(KERNEL_ROOT, va)) == Pte(pfn, IO_BITS)
    requires forall x :: LinkOk(m, x) && x != LeafOf(KERNEL_ROOT, va) ==> Untouched(m, m1, x)
    requires RangeMapped(m1, m2, va + PAGE_SIZE, pfn + 1, n - 1)
    ensures RangeMapped(m, m2, va, pfn, n)
  {
    hide At, Known, Ptr, Inv, Vpn0, Vpn1, Vpn2, LinkOk, InRange;
    SameLinks(m, m1);
    forall x | LinkOk(m, x) && !InRange(va, n, x)
      ensures Untouched(m, m2, x)
    {
      InRangeStep(va, n, x);
      UntouchedTrans(m, m1, m2, x);
    }
    FirstKept(m1, m2, va, pfn, n);
    forall k: nat | k < n
      ensures At(m2, LeafOf(KERNEL_ROOT, va + k * PAGE_SIZE)) == Pte(pfn + k, IO_BITS)
    {
      if k > 0 {
        assert va + k * PAGE_SIZE == va + PAGE_SIZE + (k - 1) * PAGE_SIZE;
      }
    }
  }

  /** The page mapped first stays mapped: later pages have other entries. */
  lemma FirstKept(m1: M, m2: M, va: nat, pfn: nat, n: nat)
    requires n > 0 && InIoSpace(va, n) && IoOwn(m1)
    requires RangeMapped(m1, m2, va + PAGE_SIZE, pfn + 1, n - 1)
    ensures At(m2, LeafOf(KERNEL_ROOT, va)) == At(m1, LeafOf(KERNEL_ROOT, va))
  {
    hide At, Known, Ptr, Inv, Vpn0, Vpn1, Vpn2, PageNo;
    var x := LeafOf(KERNEL_ROOT, va);
    IoVpn(va, 0);
    OwnLinks(m1, KERNEL_ROOT, va);
    if InRange(va + PAGE_SIZE, n - 1, x) {
      var k: nat :| k < n - 1 && x == LeafOf(KERNEL_ROOT, va + PAGE_SIZE + k * PAGE_SIZE);
      assert va + PAGE_SIZE + k * PAGE_SIZE == va + (k + 1) * PAGE_SIZE;
      IoVpn(va, k + 1);
      PageNoSplits(va);
      PageNoSplits(va + (k + 1) * PAGE_SIZE);
      assert false;
    }
    assert Untouched(m1, m2, x);
  }

  /** What the hardware finds in the range: page k leads to device page pfn + k. */
  lemma IoMapLookup(m: M, va: nat, pfn: nat, n: nat, k: nat)
    requires Inv(m) && IoOwn(m)
    requires InIoSpace(va, n) && Devices(pfn, n) && RangeFits(m, va, n) && k < n
    ensures Known(m, KERNEL_ROOT)
    ensures Lookup(IoMap(m, va, pfn, n), KERNEL_ROOT, va + k * PAGE_SIZE) == Mapped(Pte(pfn + k, IO_BITS))
  {
    hide Inv, At, Known, LinkOk, SamePages, IoMap, RangeFits, Lookup, Vpn0, Vpn1, Vpn2;
    IoMapMaps(m, va, pfn, n);
    IoVpn(va, k);
    IoBits();
    ValidBits(pfn + k, IO_BITS);
    LookupIs(IoMap(m, va, pfn, n), KERNEL_ROOT, va + k * PAGE_SIZE);
  }

  // ---------- When the loop ends ----------

  /** The variables of ioremap's loop: the next address and the next device page, and the size still to map. */
  datatype Loop = Loop(m: M, base: nat, phys: nat, size: nat)

  /** One turn, for any size: the size is unsigned and wraps around. */
  function Turn(l: Loop): Loop {
    Loop(if Known(l.m, KERNEL_ROOT) && TablesFit(l.m, l.base) then IoStep(l.m, l.base, l.phys / PAGE_SIZE) else l.m,
         U64(l.base + PAGE_SIZE), U64(l.phys + PAGE_SIZE), U64(l.size - PAGE_SIZE))
  }

  function Turns(l: Loop, k: nat): Loop
    decreases k
  {
    if k == 0 then l else Turns(Turn(l), k - 1)
  }

  lemma {:induction false} SizeAfter(l: Loop, k: nat)
    requires l.size < 0x1_0000_0000_0000_0000
    ensures Turns(l, k).size == U64(l.size - PAGE_SIZE * k)
    decreases k
  {
    hide IoStep, TablesFit, Known;
    if k > 0 {
      SizeAfter(Turn(l), k - 1);
      WrapTwice(l.size, k);
    }
  }

  lemma WrapTwice(size: nat, k: nat)
    requires k > 0
    ensures U64(U64(size - PAGE_SIZE) - PAGE_SIZE * (k - 1)) == U64(size - PAGE_SIZE * k)
  {
    var q := (size - PAGE_SIZE) / 0x1_0000_0000_0000_0000;
    assert U64(size - PAGE_SIZE) == size - PAGE_SIZE - 0x1_0000_0000_0000_0000 * q;
    WrapShift(size - PAGE_SIZE * k, q);
  }

  lemma WrapShift(x: int, q: int)
    ensures U64(x - 0x1_0000_0000_0000_0000 * q) == U64(x)
  {
    var a := x / 0x1_0000_0000_0000_0000;
    WrapUnique(x - 0x1_0000_0000_0000_0000 * q, a - q, x - 0x1_0000_0000_0000_0000 * a);
  }

  lemma WrapUnique(x: int, q: int, rest: nat)
    requires x == 0x1_0000_0000_0000_0000 * q + rest && rest < 0x1_0000_0000_0000_0000
    ensures U64(x) == rest
  {
  }

  /** ioremap's loop ends exactly for sizes that are whole pages: for any other, no number of turns brings the
      size to 0. */
  lemma IoRemapEnds(l: Loop)
    requires l.size < 0x1_0000_0000_0000_0000
    ensures (exists k: nat :: Turns(l, k).size == 0) <==> l.size % PAGE_SIZE == 0
    ensures l.size % PAGE_SIZE == 0 ==>
      Turns(l, l.size / PAGE_SIZE).size == 0 && forall k: nat :: k < l.size / PAGE_SIZE ==> Turns(l, k).size > 0
  {
    hide Turns;
    if k: nat :| Turns(l, k).size == 0 {
      SizeAfter(l, k);
      var q := (l.size - PAGE_SIZE * k) / 0x1_0000_0000_0000_0000;
      assert l.size - PAGE_SIZE * k == 0x1_0000_0000_0000_0000 * q;
      assert l.size == PAGE_SIZE * (k + 0x10_0000_0000_0000 * q);
    }
    if l.size % PAGE_SIZE == 0 {
      SizeAfter(l, l.size / PAGE_SIZE);
      forall k: nat | k < l.size / PAGE_SIZE
        ensures Turns(l, k).size > 0
      {
        SizeAfter(l, k);
      }
    }
  }

  /** A turn for a whole number of pages does not wrap around; o is the offset of the device address in its page. */
  lemma TurnIs(m: M, va: nat, pfn: nat, o: nat, n: nat)
    requires n > 0 && InIoSpace(va, n) && Devices(pfn, n) && o < PAGE_SIZE
    requires Known(m, KERNEL_ROOT) && TablesFit(m, va)
    ensures Turn(Loop(m, va, pfn * PAGE_SIZE + o, n * PAGE_SIZE)) ==
      Loop(IoStep(m, va, pfn), va + PAGE_SIZE, (pfn + 1) * PAGE_SIZE + o, (n - 1) * PAGE_SIZE)
  {
    hide IoStep, TablesFit, Known;
    assert n * PAGE_SIZE - PAGE_SIZE == (n - 1) * PAGE_SIZE;
    assert pfn * PAGE_SIZE + o + PAGE_SIZE == (pfn + 1) * PAGE_SIZE + o;
    assert (pfn * PAGE_SIZE + o) / PAGE_SIZE == pfn;
  }

  /** Where it ends it has mapped the whole range. */
  lemma {:induction false} IoTurnsMap(m: M, va: nat, pfn: nat, o: nat, n: nat)
    requires Inv(m) && IoOwn(m)
    requires InIoSpace(va, n) && Devices(pfn, n) && RangeFits(m, va, n) && o < PAGE_SIZE
    ensures Known(m, KERNEL_ROOT)
    ensures Turns(Loop(m, va, pfn * PAGE_SIZE + o, n * PAGE_SIZE), n).m == IoMap(m, va, pfn, n)
    decreases n
  {
    hide Inv, At, Known, LinkOk, IsValid, SamePages, IoStep, Room, HasTables, RangeFits, TablesFit, Turn, InIoSpace, Devices, Device, Vpn2;
    RootKnown(m, KERNEL_ROOT);
    if n > 0 {
      SpaceStep(va, pfn, n);
      IoOwns(m, va, n);
      FirstFits(m, va, n);
      IoStepMaps(m, va, pfn);
      var m1 := IoStep(m, va, pfn);
      RangeStep(m, m1, va, n);
      RootKnown(m1, KERNEL_ROOT);
      TurnIs(m, va, pfn, o, n);
      IoTurnsMap(m1, va + PAGE_SIZE, pfn + 1, o, n - 1);
    }
  }
}
