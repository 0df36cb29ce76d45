/** What the hardware makes of the pages that ioremap maps: the kernel gets through to the device, user code does not. */
module VmDevices {
  import opened VmMemory
  import opened VmMap
  import opened VmIo
  import opened VmBoot
  import opened VmExec
  import opened VmRights

  /** The kernel's own tables lead on: none of their entries is a page. */
  ghost predicate LeadOn(m: M) {
    forall x :: LinkOk(m, x) && x.r == KERNEL_ROOT && !x.Leaf? ==> At(m, x).flags & 0xe == 0
  }

  lemma CleanLeadsOn(m: M)
    requires Inv(m) && KernelClean(m)
    ensures LeadOn(m)
  {
    hide Frames, Targets, Distinct;
    forall x | LinkOk(m, x) && x.r == KERNEL_ROOT && !x.Leaf?
      ensures At(m, x) == NONE
    {
      CleanRootEntry(m, x);
    }
    NoneFlags();
  }

  lemma CleanRootEntry(m: M, x: Link)
    requires KernelClean(m) && LinkOk(m, x) && x.r == KERNEL_ROOT && !x.Leaf?
    ensures At(m, x) == NONE
  {
    assert Entry(m, KERNEL_ROOT, x.i) == NONE;
  }

  lemma NoneFlags()
    ensures NONE.flags & 0xe == 0 && PRESENT & 0xe == 0 && PRESENT & PRESENT != 0
  {
  }

  /** The tables of one turn: new ones are valid, and no page. */
  lemma IoTablesMade(m: M, va: nat)
    requires Inv(m) && Own(m, KERNEL_ROOT, va) && TablesFit(m, va)
    ensures Known(m, KERNEL_ROOT)
    ensures (var i, j, k := Vpn2(va), Vpn1(va), Vpn0(va);
      var m1 := EnsureTable(m, Top(KERNEL_ROOT, i), PRESENT);
      Known(m1, Node(m1, Mid(KERNEL_ROOT, i, j))) && (IsValid(At(m1, Mid(KERNEL_ROOT, i, j))) || Room(m1) > 0) &&
      TablesMade(m, EnsureTable(m1, Mid(KERNEL_ROOT, i, j), PRESENT), KERNEL_ROOT, PRESENT))
  {
    hide Inv, At, Known, LinkOk, EnsureTable, IsValid, SamePages, Room;
    PresentBit();
    TablesFor(m, KERNEL_ROOT, va, PRESENT);
    var i, j := Vpn2(va), Vpn1(va);
    OwnLinks(m, KERNEL_ROOT, va);
    LinkRoot(m, Top(KERNEL_ROOT, i));
    TopIs(m, KERNEL_ROOT, i);
    EnsureKeeps(m, Top(KERNEL_ROOT, i), PRESENT);
    EnsureBits(m, Top(KERNEL_ROOT, i), PRESENT);
    var m1 := EnsureTable(m, Top(KERNEL_ROOT, i), PRESENT);
    OwnLinks(m1, KERNEL_ROOT, va);
    NodeAbove(m1, Mid(KERNEL_ROOT, i, j));
    NodeIsPtr(m1, Mid(KERNEL_ROOT, i, j));
    EnsureKeeps(m1, Mid(KERNEL_ROOT, i, j), PRESENT);
    EnsureBits(m1, Mid(KERNEL_ROOT, i, j), PRESENT);
    SameLinks(m, m1);
  }

  lemma IoStepLeadsOn(m: M, va: nat, pfn: nat)
    requires Inv(m) && Own(m, KERNEL_ROOT, va) && TablesFit(m, va) && Device(pfn) && LeadOn(m)
    ensures Known(m, KERNEL_ROOT) && LeadOn(IoStep(m, va, pfn))
  {
    hide Inv, At, Known, LinkOk, EnsureTable, IsValid, SamePages, Fill, Loose, Room, Device;
    PresentBit();
    NoneFlags();
    TablesFor(m, KERNEL_ROOT, va, PRESENT);
    IoTablesMade(m, va);
    OwnLinks(m, KERNEL_ROOT, va);
    var i, j, l := Vpn2(va), Vpn1(va), LeafOf(KERNEL_ROOT, va);
    var m2 := EnsureTable(EnsureTable(m, Top(KERNEL_ROOT, i), PRESENT), Mid(KERNEL_ROOT, i, j), PRESENT);
    SameLinks(m, m2);
    IoLeaf(m2, l, pfn);
    SameLinks(m2, IoStep(m, va, pfn));
  }

  lemma IoLeaf(m: M, l: Link, pfn: nat)
    requires Inv(m) && LinkOk(m, l) && l.Leaf? && Node(m, l) != 0 && Device(pfn)
    ensures Known(m, Node(m, l)) && Slot(l) < ENTRIES
    ensures var m1 := Fill(m, l, SetAttribute(SetPfn(pfn), IO_BITS));
      m1.roots == m.roots && m1.shared == m.shared && forall x :: LinkOk(m, x) && x != l ==> At(m1, x) == At(m, x)
  {
    hide Inv, At, Known, LinkOk, Node, Fill, Loose, Blank;
    OrZero(IO_BITS);
    var e := SetAttribute(SetPfn(pfn), IO_BITS);
    assert e == Pte(pfn, IO_BITS);
    assert MayFill(m, l, e);
    FillKeeps(m, l, e);
    FillRest(m, l, e);
  }

  lemma {:induction false} IoMapLeadsOn(m: M, va: nat, pfn: nat, n: nat)
    requires Inv(m) && IoOwn(m) && LeadOn(m)
    requires InIoSpace(va, n) && Devices(pfn, n) && RangeFits(m, va, n)
    ensures Known(m, KERNEL_ROOT) && LeadOn(IoMap(m, va, pfn, n))
    decreases n
  {
    hide Inv, At, Known, LinkOk, IsValid, SamePages, IoStep, Room, HasTables, Lacking, RangeFits, TablesFit, Untouched, Ptr, Vpn0, Vpn1, Vpn2, InIoSpace, Devices, Device, IoOwn, LeadOn;
    IoRoot(m);
    RootKnown(m, KERNEL_ROOT);
    if n > 0 {
      SpaceStep(va, pfn, n);
      IoOwns(m, va, n);
      FirstFits(m, va, n);
      IoStepMaps(m, va, pfn);
      IoStepLeadsOn(m, va, pfn);
      var m1 := IoStep(m, va, pfn);
      RangeStep(m, m1, va, n);
      SameIoOwn(m, m1);
      RootKnown(m1, KERNEL_ROOT);
      IoMapLeadsOn(m1, va + PAGE_SIZE, pfn + 1, n - 1);
    }
  }

  /** After ioremap the hardware's walk from the kernel's directory ends, for page k of the range, at device page k: readable,
      writable, executable, accessed and dirty, so that no access of the kernel faults; not open to user code. */
  lemma DeviceReached(m: M, va: nat, pfn: nat, n: nat, k: nat, w: Way)
    requires Inv(m) && IoOwn(m) && LeadOn(m) && k < n
    requires InIoSpace(va, n) && Devices(pfn, n) && RangeFits(m, va, n)
    ensures Known(m, KERNEL_ROOT)
    ensures var m1 := IoMap(m, va, pfn, n);
      HwWalk(m1, KERNEL_ROOT, va + k * PAGE_SIZE) == Reached(0, Pte(pfn + k, 0xcf)) &&
      !UserMay(m1, KERNEL_ROOT, va + k * PAGE_SIZE, w)
  {
    hide Inv, At, Known, LinkOk, IsValid, Room, RangeFits, Untouched, Ptr, Vpn0, Vpn1, Vpn2, InIoSpace, IoOwn, LeadOn, HwWalk, IoMap;
    IoMapMaps(m, va, pfn, n);
    IoMapLeadsOn(m, va, pfn, n);
    var m1 := IoMap(m, va, pfn, n);
    SameIoOwn(m, m1);
    PageOwned(m1, va, n, k);
    IoWalk(m1, va + k * PAGE_SIZE, pfn + k);
    NotForUsers(pfn + k);
  }

  lemma NotForUsers(f: nat)
    ensures Pte(f, 0xcf).flags & 0x10 == 0
  {
  }

  lemma PageOwned(m: M, va: nat, n: nat, k: nat)
    requires IoOwn(m) && InIoSpace(va, n) && k < n
    ensures Own(m, KERNEL_ROOT, va + k * PAGE_SIZE)
  {
    hide Vpn2, PageNo;
    assert (k + 1) * PAGE_SIZE <= n * PAGE_SIZE;
    IoVpn(va, k);
  }

  lemma IoWalk(m: M, va: nat, pfn: nat)
    requires Inv(m) && Own(m, KERNEL_ROOT, va) && LeadOn(m) && At(m, LeafOf(KERNEL_ROOT, va)) == Pte(pfn, IO_BITS) && pfn != 0
    ensures HwWalk(m, KERNEL_ROOT, va) == Reached(0, Pte(pfn, 0xcf))
  {
    hide Inv, IsValid, Entry, HwValid, HwLeaf;
    var i, j, k := Vpn2(va), Vpn1(va), Vpn0(va);
    OwnLinks(m, KERNEL_ROOT, va);
    NoneInvalid();
    WalkStep(m, Top(KERNEL_ROOT, i));
    WalkStep(m, Mid(KERNEL_ROOT, i, j));
    LinkRoot(m, Top(KERNEL_ROOT, i));
    TableGoesOn(At(m, Top(KERNEL_ROOT, i)));
    TableGoesOn(At(m, Mid(KERNEL_ROOT, i, j)));
    DeviceEnds(pfn);
  }

  lemma DeviceEnds(pfn: nat)
    ensures IO_BITS == 0xcf && HwValid(Pte(pfn, IO_BITS)) && HwLeaf(Pte(pfn, IO_BITS)) && IsValid(Pte(pfn, IO_BITS))
  {
  }
}
