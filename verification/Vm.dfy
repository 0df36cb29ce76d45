/** The allocator and the page-table code as they are written: memory changed word by word. */
module Vm {
  import opened VmMemory
  import opened VmMap
  import opened VmIo
  import opened VmBoot

  class Memory {
    var table: map<nat, seq<Pte>>
    var data: map<nat, seq<byte>>
    var curr: nat
    var free: seq<nat>
    var ioBase: nat
    /** The page directories in use, and the slots all of them share with the kernel's. */
    ghost var roots: set<nat>
    ghost var shared: set<nat>

    ghost function State(): M
      reads this
    {
      M(table, data, curr, free, roots, shared)
    }

    /** Boot: only the kernel's directory, with its one entry; other memory holds anything. */
    constructor (table: map<nat, seq<Pte>>, data: map<nat, seq<byte>>)
      requires forall f: nat :: InRam(f) || f == KERNEL_ROOT ==> f in table && |table[f]| == ENTRIES && f in data && |data[f]| == PAGE_SIZE
      requires forall i: nat :: i < ENTRIES && i != KERNEL_SLOT ==> table[KERNEL_ROOT][i] == NONE
      ensures this.table == table && this.data == data && Booted(State()) && Inv(State()) && ioBase == IO_ADDR_START
    {
      this.table, this.data, curr, free, ioBase := table, data, FIRST_FRAME - 1, [], IO_ADDR_START;
      roots, shared := {KERNEL_ROOT}, {KERNEL_SLOT};
      new;
      BootInv(State());
    }

    /** The loop that clears a page, one word at a time. */
    method ClearFrame(f: nat)
      requires Known(State(), f)
      modifies this`table, this`data
      ensures table == old(table)[f := BlankTable()] && data == old(data)[f := BlankPage()]
    {
      for i := 0 to ENTRIES
        invariant f in table && |table[f]| == ENTRIES && f in data && |data[f]| == PAGE_SIZE
        invariant table == old(table)[f := table[f]] && data == old(data)[f := data[f]]
        invariant forall j :: 0 <= j < i ==> table[f][j] == NONE
        invariant forall j :: 0 <= j < 8 * i ==> data[f][j] == 0
      {
        table := table[f := table[f][i := NONE]];
        data := data[f := data[f][..8 * i] + [0, 0, 0, 0, 0, 0, 0, 0] + data[f][8 * i + 8..]];
      }
      assert table[f] == BlankTable();
      assert data[f] == BlankPage();
    }

    /** allocPage */
    method DoAllocPage() returns (kva: nat)
      requires Frames(State()) && Room(State()) > 0
      modifies this`table, this`data, this`curr, this`free
      ensures State() == AllocPage(old(State())) && kva == KvaOf(NextFrame(old(State()))) && InRam(NextFrame(old(State())))
    {
      if |free| > 0 {
        var f := free[0];
        ClearFrame(f);
        free := free[1..];
        kva := KvaOf(f);
      } else {
        curr := curr + 1;
        assert Known(old(State()), curr);
        ClearFrame(curr);
        kva := KvaOf(curr);
      }
    }

    /** A page directory for a new process: a page with a copy of the kernel's entries. */
    method NewDirectory() returns (kva: nat)
      requires Inv(State()) && KernelClean(State()) && Room(State()) > 0
      modifies this`table, this`data, this`curr, this`free, this`roots
      ensures State() == NewRoot(old(State())) && kva == KvaOf(NextFrame(old(State()))) && InRam(NextFrame(old(State())))
    {
      hide Inv;
      InvFrames(State());
      CleanRoot(State());
      kva := DoAllocPage();
      KvaRoundTrip(NextFrame(old(State())));
      table := table[FrameOf(kva) := table[KERNEL_ROOT]];
      roots := roots + {FrameOf(kva)};
    }

    /** freePage, of a page given by its physical address. */
    method DoFreePage(pa: nat)
      modifies this`free
      ensures State() == FreePage(old(State()), pa / PAGE_SIZE)
    {
      free := free + [pa / PAGE_SIZE];
    }

    /** check_ad, in the directory at kernel address pgdir. */
    method DoCheckAd(va: nat, pgdir: nat) returns (p: Place)
      requires Inv(State()) && Own(State(), FrameOf(pgdir), va)
      ensures p == CheckAd(State(), FrameOf(pgdir), va)
    {
      hide Inv, Vpn0, Vpn1, Vpn2;
      ghost var m, r := State(), FrameOf(pgdir);
      WalkKnown(m, r, va);
      var e2 := table[FrameOf(pgdir)][Vpn2(va)];
      if !IsValid(e2) {
        return Nowhere;
      }
      var e1 := table[e2.ppn][Vpn1(va)];
      if !IsValid(e1) {
        return Nowhere;
      }
      if !IsValid(table[e1.ppn][Vpn0(va)]) {
        return Nowhere;
      }
      p := Place(e1.ppn, Vpn0(va));
    }

    /** The store of one entry. */
    method StorePte(f: nat, i: nat, e: Pte)
      requires f in table && i < |table[f]|
      modifies this`table
      ensures State() == SetEntry(old(State()), f, i, e)
    {
      table := table[f := table[f][i := e]];
    }

    /** One level of the walk of alloc_page_helper and ioremap: the table that entry i of table f leads to,
        made when there is none. */
    method TableAt(f: nat, i: nat, bits: bv10, ghost l: Link) returns (next: nat)
      requires Inv(State()) && LinkOk(State(), l) && !l.Leaf? && f == Node(State(), l) != 0 && i == Slot(l)
      requires (IsValid(At(State(), l)) || Room(State()) > 0) && bits & PRESENT != 0
      modifies this`table, this`data, this`curr, this`free
      ensures Known(old(State()), Node(old(State()), l)) && Slot(l) < ENTRIES && State() == EnsureTable(old(State()), l, bits)
      ensures next == Ptr(State(), l)
    {
      hide Inv, LinkOk, IsValid, AllocPage, At, Node, Room;
      ghost var m := State();
      NodeIsPtr(m, l);
      SlotRange(m, l);
      EnsureKeeps(m, l, bits);
      NodeEntry(m, l);
      PtrAt(m, l);
      if !IsValid(table[f][i]) {
        InvFrames(m);
        var kva := DoAllocPage();
        KvaRoundTrip(NextFrame(m));
        AllocSame(m, l);
        AllocKeeps(m);
        NodeIsPtr(State(), l);
        StorePte(f, i, SetAttribute(Pte(FrameOf(kva), 0), bits));
        AttributePpn(Pte(FrameOf(kva), 0), bits);
        next := FrameOf(kva);
        FilledPtr(m, l, bits);
      } else {
        next := table[f][i].ppn;
      }
    }

    /** alloc_page_helper, in the directory at kernel address pgdir. */
    method AllocPageHelper(va: nat, pgdir: nat, mode: int) returns (kva: nat)
      requires Inv(State()) && Own(State(), FrameOf(pgdir), va) && Room(State()) >= 3
      modifies this`table, this`data, this`curr, this`free
      ensures Known(old(State()), FrameOf(pgdir)) && (State(), kva) == MapPage(old(State()), FrameOf(pgdir), va, mode)
    {
      hide Inv, LinkOk, IsValid, AllocPage, At, Node, Room, EnsureTable, Vpn0, Vpn1, Vpn2, Fill, TableBits, LeafBits;
      var r, i, j, k := FrameOf(pgdir), Vpn2(va), Vpn1(va), Vpn0(va);
      ghost var m := State();
      BitsValid(mode);
      OwnLinks(m, r, va);
      TopNode(m, r, i);
      MapPageSteps(m, r, va, mode);
      var lev1 := TableAt(r, i, TableBits(mode), Top(r, i));
      ghost var m1 := State();
      OwnLinks(m1, r, va);
      var lev0 := TableAt(lev1, j, TableBits(mode), Mid(r, i, j));
      ghost var m2 := State();
      OwnLinks(m2, r, va);
      NodeEntry(m2, LeafOf(r, va));
      NodeIsPtr(m2, LeafOf(r, va));
      if IsValid(table[lev0][k]) {
        return 0;
      }
      InvFrames(m2);
      kva := DoAllocPage();
      KvaRoundTrip(NextFrame(m2));
      AllocSame(m2, LeafOf(r, va));
      AllocKeeps(m2);
      NodeIsPtr(State(), LeafOf(r, va));
      FillIs(State(), LeafOf(r, va), SetAttribute(SetPfn(FrameOf(kva)), LeafBits(mode)));
      StorePte(lev0, k, SetAttribute(SetPfn(FrameOf(kva)), LeafBits(mode)));
    }

    /** One turn of ioremap's loop. */
    method IoPage(va: nat, phys: nat)
      requires Inv(State()) && Own(State(), KERNEL_ROOT, va) && TablesFit(State(), va)
      modifies this`table, this`data, this`curr, this`free
      ensures Known(old(State()), KERNEL_ROOT) && State() == IoStep(old(State()), va, phys / PAGE_SIZE)
    {
      hide Inv, LinkOk, IsValid, AllocPage, At, Node, Room, EnsureTable, Vpn0, Vpn1, Vpn2, Fill;
      var r, i, j, k := KERNEL_ROOT, Vpn2(va), Vpn1(va), Vpn0(va);
      ghost var m := State();
      PresentBit();
      OwnLinks(m, r, va);
      TopNode(m, r, i);
      IoSteps(m, va);
      var lev1 := TableAt(r, i, PRESENT, Top(r, i));
      ghost var m1 := State();
      OwnLinks(m1, r, va);
      var lev0 := TableAt(lev1, j, PRESENT, Mid(r, i, j));
      ghost var m2 := State();
      OwnLinks(m2, r, va);
      NodeIsPtr(m2, LeafOf(r, va));
      FillIs(m2, LeafOf(r, va), SetAttribute(SetPfn(phys / PAGE_SIZE), IO_BITS));
      StorePte(lev0, k, SetAttribute(SetPfn(phys / PAGE_SIZE), IO_BITS));
    }

    /** ioremap; a size that is not a whole number of pages would never let the loop end. */
    method IoRemap(physAddr: nat, byteCount: nat) returns (vaddr: nat)
      requires Inv(State()) && IoOwn(State())
      requires byteCount % PAGE_SIZE == 0 && InIoSpace(ioBase, byteCount / PAGE_SIZE)
      requires physAddr + byteCount < 0x100_0000_0000_0000 && Devices(physAddr / PAGE_SIZE, byteCount / PAGE_SIZE)
      requires RangeFits(State(), ioBase, byteCount / PAGE_SIZE)
      modifies this`table, this`data, this`curr, this`free, this`ioBase
      ensures Known(old(State()), KERNEL_ROOT)
      ensures State() == IoMap(old(State()), old(ioBase), physAddr / PAGE_SIZE, byteCount / PAGE_SIZE)
      ensures RangeMapped(old(State()), State(), old(ioBase), physAddr / PAGE_SIZE, byteCount / PAGE_SIZE)
      ensures ioBase == old(ioBase) + byteCount && vaddr == if byteCount == 0 then 0 else old(ioBase)
    {
      hide Inv, IoMap, IoStep, RangeMapped, RangeFits, TablesFit, HasTables, Known, Vpn0, Vpn1, Vpn2;
      ghost var m := State();
      IoMapMaps(m, ioBase, physAddr / PAGE_SIZE, byteCount / PAGE_SIZE);
      var phys, size := physAddr, byteCount;
      vaddr := 0;
      var initStatus := 0;
      ghost var n: nat := byteCount / PAGE_SIZE;
      while size > 0
        invariant size == n * PAGE_SIZE && n <= byteCount / PAGE_SIZE && phys + size == physAddr + byteCount
        invariant phys / PAGE_SIZE + n == physAddr / PAGE_SIZE + byteCount / PAGE_SIZE && ioBase + size == old(ioBase) + byteCount
        invariant Inv(State()) && roots == old(roots) && shared == old(shared) && Known(State(), KERNEL_ROOT)
        invariant InIoSpace(ioBase, n) && Devices(phys / PAGE_SIZE, n) && RangeFits(State(), ioBase, n)
        invariant IoMap(State(), ioBase, phys / PAGE_SIZE, n) == IoMap(m, old(ioBase), physAddr / PAGE_SIZE, byteCount / PAGE_SIZE)
        invariant initStatus == 0 <==> size == byteCount
        invariant vaddr == if initStatus == 0 then 0 else old(ioBase)
        decreases size
      {
        ghost var m0, va := State(), ioBase;
        IoOwns(m0, ioBase, n);
        FirstFits(m0, va, n);
        IoStepMaps(m0, va, phys / PAGE_SIZE);
        IoPage(ioBase, phys);
        RangeStep(m0, State(), va, n);
        RootKnown(State(), KERNEL_ROOT);
        IoMapStep(m0, va, phys / PAGE_SIZE, n);
        if initStatus == 0 {
          initStatus := 1;
          vaddr := ioBase;
        }
        ioBase := ioBase + PAGE_SIZE;
        phys := phys + PAGE_SIZE;
        size := size - PAGE_SIZE;
        n := n - 1;
      }
      IoMapNone(State(), ioBase, phys / PAGE_SIZE);
    }
  }

  /** Each valid entry on the way leads to a table. */
  lemma WalkKnown(m: M, r: nat, va: nat)
    requires Inv(m) && Own(m, r, va)
    ensures Known(m, r)
    ensures IsValid(Entry(m, r, Vpn2(va))) ==> Known(m, Entry(m, r, Vpn2(va)).ppn)
    ensures IsValid(Entry(m, r, Vpn2(va))) && IsValid(Entry(m, Entry(m, r, Vpn2(va)).ppn, Vpn1(va))) ==>
      Known(m, Entry(m, Entry(m, r, Vpn2(va)).ppn, Vpn1(va)).ppn)
  {
    hide Inv, IsValid, Entry, Known, LinkOk;
    OwnLinks(m, r, va);
    var i, j := Vpn2(va), Vpn1(va);
    LinkRoot(m, Top(r, i));
    RootKnown(m, r);
    NoneInvalid();
    WalkStep(m, Top(r, i));
    WalkStep(m, Mid(r, i, j));
    if IsValid(At(m, Top(r, i))) {
      NodeIsPtr(m, Mid(r, i, j));
      if IsValid(At(m, Mid(r, i, j))) {
        NodeIsPtr(m, LeafOf(r, va));
      }
    }
  }

  lemma InvFrames(m: M)
    requires Inv(m)
    ensures Frames(m)
  {
  }

  lemma NodeEntry(m: M, l: Link)
    requires Node(m, l) != 0 && Known(m, Node(m, l)) && Slot(l) < ENTRIES
    ensures At(m, l) == m.table[Node(m, l)][Slot(l)]
  {
  }

  lemma TopNode(m: M, r: nat, i: nat)
    ensures Node(m, Top(r, i)) == r
  {
  }

  lemma FillIs(m: M, l: Link, e: Pte)
    requires Known(m, Node(m, l)) && Slot(l) < ENTRIES
    ensures Fill(m, l, e) == SetEntry(m, Node(m, l), Slot(l), e)
  {
  }

  lemma FilledPtr(m: M, l: Link, bits: bv10)
    requires Inv(m) && LinkOk(m, l) && !l.Leaf? && Node(m, l) != 0 && !IsValid(At(m, l)) && Room(m) > 0 && bits & PRESENT != 0
    ensures Known(m, Node(m, l)) && Slot(l) < ENTRIES && Known(AllocPage(m), Node(AllocPage(m), l))
    ensures EnsureTable(m, l, bits) == SetEntry(AllocPage(m), Node(m, l), Slot(l), SetAttribute(Pte(NextFrame(m), 0), bits))
    ensures Ptr(EnsureTable(m, l, bits), l) == NextFrame(m)
  {
    NodeIsPtr(m, l);
    AllocKeeps(m);
    AllocSame(m, l);
    NodeIsPtr(AllocPage(m), l);
    ValidAttribute(Pte(NextFrame(m), 0), bits);
    NewTableFill(m, l, bits);
  }

  lemma NewTableFill(m: M, l: Link, bits: bv10)
    requires Inv(m) && LinkOk(m, l) && !l.Leaf? && Node(m, l) != 0 && !IsValid(At(m, l)) && Room(m) > 0 && bits & PRESENT != 0
    ensures Known(AllocPage(m), Node(AllocPage(m), l)) && Slot(l) < ENTRIES
    ensures Ptr(Fill(AllocPage(m), l, SetAttribute(Pte(NextFrame(m), 0), bits)), l) == NextFrame(m)
  {
    hide Inv, Fill, AllocPage, At, Node, Known, LinkOk, Loose, Blank, Ptr, Room, IsValid, SetAttribute;
    var m1, f := AllocPage(m), NextFrame(m);
    var e := SetAttribute(Pte(f, 0), bits);
    SlotRange(m, l);
    AllocKeeps(m);
    AllocSame(m, l);
    ValidAttribute(Pte(f, 0), bits);
    AttributePpn(Pte(f, 0), bits);
    WalkStep(m, l);
    LooseRange(m1, f);
    NodeIsPtr(m1, l);
    AllocRest(m);
    PtrAt(m1, l);
    assert MayFill(m1, l, e);
    FillAt(m1, l, e);
    PtrAt(Fill(m1, l, e), l);
  }

  /** The two tables that alloc_page_helper goes through, and where it ends. */
  lemma MapPageSteps(m: M, r: nat, va: nat, mode: int)
    requires Inv(m) && Own(m, r, va) && Room(m) >= 3
    ensures Known(m, r) && Node(m, Top(r, Vpn2(va))) == r != 0
    ensures (var i, j := Vpn2(va), Vpn1(va);
      var m1 := EnsureTable(m, Top(r, i), TableBits(mode));
      Inv(m1) && m1.roots == m.roots && m1.shared == m.shared && Known(m1, Node(m1, Mid(r, i, j))) && Node(m1, Mid(r, i, j)) == Ptr(m1, Top(r, i)) != 0 && Room(m1) >= 2 &&
      (var m2 := EnsureTable(m1, Mid(r, i, j), TableBits(mode));
       Inv(m2) && m2.roots == m.roots && m2.shared == m.shared && Known(m2, Node(m2, LeafOf(r, va))) && Node(m2, LeafOf(r, va)) == Ptr(m2, Mid(r, i, j)) != 0 && Room(m2) >= 1))
  {
    hide Inv, At, Known, LinkOk, EnsureTable, IsValid, TableBits, Vpn0, Vpn1, Vpn2;
    BitsValid(mode);
    TablesFor(m, r, va, TableBits(mode));
    OwnLinks(m, r, va);
    LinkRoot(m, Top(r, Vpn2(va)));
    EnsureKeeps(m, Top(r, Vpn2(va)), TableBits(mode));
    var m1 := EnsureTable(m, Top(r, Vpn2(va)), TableBits(mode));
    OwnLinks(m1, r, va);
    NodeAbove(m1, Mid(r, Vpn2(va), Vpn1(va)));
    EnsureKeeps(m1, Mid(r, Vpn2(va), Vpn1(va)), TableBits(mode));
    var m2 := EnsureTable(m1, Mid(r, Vpn2(va), Vpn1(va)), TableBits(mode));
    NodeAbove(m2, LeafOf(r, va));
  }

  lemma IoMapStep(m: M, va: nat, pfn: nat, n: nat)
    requires Known(m, KERNEL_ROOT) && n > 0 && TablesFit(m, va) && Known(IoStep(m, va, pfn), KERNEL_ROOT)
    ensures IoMap(m, va, pfn, n) == IoMap(IoStep(m, va, pfn), va + PAGE_SIZE, pfn + 1, n - 1)
  {
  }

  lemma IoMapNone(m: M, va: nat, pfn: nat)
    requires Known(m, KERNEL_ROOT)
    ensures IoMap(m, va, pfn, 0) == m
  {
  }

  lemma IoSteps(m: M, va: nat)
    requires Inv(m) && Own(m, KERNEL_ROOT, va) && TablesFit(m, va)
    ensures (var r, i, j := KERNEL_ROOT, Vpn2(va), Vpn1(va);
      Known(m, r) && Node(m, Top(r, i)) == r && (IsValid(At(m, Top(r, i))) || Room(m) > 0) &&
      (var m1 := EnsureTable(m, Top(r, i), PRESENT);
       Inv(m1) && m1.roots == m.roots && m1.shared == m.shared && Known(m1, Node(m1, Mid(r, i, j))) && Node(m1, Mid(r, i, j)) == Ptr(m1, Top(r, i)) != 0 &&
       (IsValid(At(m1, Mid(r, i, j))) || Room(m1) > 0) &&
       (var m2 := EnsureTable(m1, Mid(r, i, j), PRESENT);
        Inv(m2) && m2.roots == m.roots && m2.shared == m.shared && Known(m2, Node(m2, LeafOf(r, va))) && Node(m2, LeafOf(r, va)) == Ptr(m2, Mid(r, i, j)) != 0)))
  {
    hide Inv, At, Known, LinkOk, EnsureTable, IsValid, Vpn0, Vpn1, Vpn2;
    var r, i, j := KERNEL_ROOT, Vpn2(va), Vpn1(va);
    PresentBit();
    TablesFor(m, r, va, PRESENT);
    OwnLinks(m, r, va);
    LinkRoot(m, Top(r, i));
    EnsureKeeps(m, Top(r, i), PRESENT);
    var m1 := EnsureTable(m, Top(r, i), PRESENT);
    OwnLinks(m1, r, va);
    NodeAbove(m1, Mid(r, i, j));
    EnsureKeeps(m1, Mid(r, i, j), PRESENT);
    var m2 := EnsureTable(m1, Mid(r, i, j), PRESENT);
    NodeAbove(m2, LeafOf(r, va));
  }
}
