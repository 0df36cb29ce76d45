/** Which attributes the page tables give and keep, and what the hardware makes of them in user mode. */
module VmRights {
  import opened VmMemory
  import opened VmMap
  import opened VmIo
  import opened VmBoot
  import opened VmPaging
  import opened VmElf
  import opened VmExec
  import opened VmFlat
  import opened VmSystem
  import Runs = VmRuns

  // ---------- The bits, by number ----------

  /** Everything but V, A and D is as in e, and A and D are not lost: bits 0, 6 and 7 are those three. */
  predicate SameRights(e: Pte, e1: Pte) {
    e1.flags & 0x33e == e.flags & 0x33e && (e.flags & 0xc0) & e1.flags == e.flags & 0xc0
  }

  lemma SameRightsSelf(e: Pte)
    ensures SameRights(e, e)
  {
  }

  lemma SameRightsTrans(a: Pte, b: Pte, c: Pte)
    requires SameRights(a, b) && SameRights(b, c)
    ensures SameRights(a, c)
  {
    TwiceKept(a.flags, b.flags, c.flags);
  }

  lemma TwiceKept(a: bv10, b: bv10, c: bv10)
    requires (a & 0xc0) & b == a & 0xc0 && (b & 0xc0) & c == b & 0xc0
    ensures (a & 0xc0) & c == a & 0xc0
  {
  }

  lemma ClearRights(f: bv10)
    ensures (f & !1) & 0x33e == f & 0x33e && (f & 0xc0) & (f & !1) == f & 0xc0
  {
  }

  lemma SetRights(f: bv10)
    ensures (f | 1) & 0x33e == f & 0x33e && (f & 0xc0) & (f | 1) == f & 0xc0
    ensures (f | 0x40) & 0x33e == f & 0x33e && (f & 0xc0) & (f | 0x40) == f & 0xc0
    ensures (f | 0xc0) & 0x33e == f & 0x33e && (f & 0xc0) & (f | 0xc0) == f & 0xc0
  {
  }

  lemma ClearKeeps(e: Pte)
    ensures SameRights(e, ClearValid(e))
  {
    ClearRights(e.flags);
  }

  lemma SetKeeps(e: Pte)
    ensures SameRights(e, SetAttribute(e, PRESENT)) && SameRights(e, SetAttribute(e, ACCESSED)) && SameRights(e, SetAttribute(e, ACCESSED | DIRTY))
  {
    SetRights(e.flags);
    assert ACCESSED | DIRTY == 0xc0;
  }

  lemma BitsAre(mode: int)
    ensures TableBits(mode) == if mode == 1 then 0x11 else 0x01
    ensures LeafBits(mode) == if mode == 1 then 0x1f else 0x0f
  {
  }

  // ---------- alloc_page_helper ----------

  lemma EnsureBits(m: M, l: Link, bits: bv10)
    requires Inv(m) && LinkOk(m, l) && !l.Leaf? && Node(m, l) != 0 && (IsValid(At(m, l)) || Room(m) > 0) && bits & PRESENT != 0
    ensures Known(m, Node(m, l)) && Slot(l) < ENTRIES
    ensures !IsValid(At(m, l)) ==> At(EnsureTable(m, l, bits), l).flags == bits
  {
    hide Inv, Fill, AllocPage, At, Node, Known, LinkOk, Loose, Blank, Ptr, Room, IsValid;
    NodeIsPtr(m, l);
    SlotRange(m, l);
    if !IsValid(At(m, l)) {
      var m1, f := AllocPage(m), NextFrame(m);
      var e := SetAttribute(Pte(f, 0), bits);
      AllocKeeps(m);
      AllocSame(m, l);
      ValidAttribute(Pte(f, 0), bits);
      AttributePpn(Pte(f, 0), bits);
      OrZero(bits);
      WalkStep(m, l);
      LooseRange(m1, f);
      NodeIsPtr(m1, l);
      AllocRest(m);
      PtrAt(m1, l);
      assert MayFill(m1, l, e);
      FillKeeps(m1, l, e);
    }
  }

  /** Entries of directory r after its tables for va were made where they were missing, and nothing else. */
  ghost predicate TablesMade(m: M, m1: M, r: nat, bits: bv10) {
    forall x :: LinkOk(m, x) && x.r == r ==>
      At(m1, x) == At(m, x) || (!x.Leaf? && !IsValid(At(m, x)) && At(m1, x).flags == bits)
  }

  lemma MadeTables(m: M, r: nat, va: nat, bits: bv10)
    requires Inv(m) && Own(m, r, va) && Room(m) >= 3 && bits & PRESENT != 0
    ensures Known(m, r)
    ensures (var i, j, k := Vpn2(va), Vpn1(va), Vpn0(va);
      var m1 := EnsureTable(m, Top(r, i), bits);
      Known(m1, Node(m1, Mid(r, i, j))) && Room(m1) >= 2 && TablesMade(m, EnsureTable(m1, Mid(r, i, j), bits), r, bits))
  {
    hide Inv, At, Known, LinkOk, EnsureTable, IsValid, SamePages, Room;
    TablesFor(m, r, va, bits);
    var i, j := Vpn2(va), Vpn1(va);
    OwnLinks(m, r, va);
    LinkRoot(m, Top(r, i));
    TopIs(m, r, i);
    EnsureKeeps(m, Top(r, i), bits);
    EnsureBits(m, Top(r, i), bits);
    var m1 := EnsureTable(m, Top(r, i), bits);
    OwnLinks(m1, r, va);
    NodeAbove(m1, Mid(r, i, j));
    NodeIsPtr(m1, Mid(r, i, j));
    EnsureKeeps(m1, Mid(r, i, j), bits);
    EnsureBits(m1, Mid(r, i, j), bits);
    SameLinks(m, m1);
  }

  /** The last step sets the leaf and nothing else. */
  lemma LeafOnly(m: M, l: Link, f: nat, bits: bv10)
    requires Inv(m) && LinkOk(m, l) && l.Leaf? && Room(m) >= 1 && Node(m, l) != 0 && f == NextFrame(m)
    ensures Known(AllocPage(m), Node(AllocPage(m), l)) && Slot(l) < ENTRIES
    ensures At(Fill(AllocPage(m), l, Pte(f, bits)), l) == Pte(f, bits)
    ensures forall x :: LinkOk(m, x) && x != l ==> At(Fill(AllocPage(m), l, Pte(f, bits)), x) == At(m, x)
  {
    hide Inv, At, Known, LinkOk, Fill, AllocPage, IsValid, Loose, Node, Blank;
    var m1, e := AllocPage(m), Pte(f, bits);
    SlotRange(m, l);
    AllocKeeps(m);
    AllocRest(m);
    AllocSame(m, l);
    NodeIsPtr(m1, l);
    LooseRange(m1, f);
    assert MayFill(m1, l, e);
    FillKeeps(m1, l, e);
  }

  /** alloc_page_helper, entry by entry and bit by bit. When va was not mapped, its leaf is readable, writable and
      executable, neither accessed nor dirty, and open to user code if and only if the mode is 1; a table made on
      the way is valid and no leaf, so that the hardware's walk goes on through it. No other entry changes. */
  lemma MapPageGrants(m: M, r: nat, va: nat, mode: int)
    requires Inv(m) && Own(m, r, va) && Room(m) >= 3
    ensures Known(m, r)
    ensures var m1, kva := MapPage(m, r, va, mode).0, MapPage(m, r, va, mode).1;
      (kva != 0 ==> At(m1, LeafOf(r, va)) == Pte(FrameOf(kva), if mode == 1 then 0x1f else 0x0f)) &&
      (forall x :: LinkOk(m, x) && x.r == r && x.Leaf? && (x != LeafOf(r, va) || kva == 0) ==> At(m1, x) == At(m, x)) &&
      (forall x :: LinkOk(m, x) && x.r == r && !x.Leaf? ==>
        At(m1, x) == At(m, x) || (!IsValid(At(m, x)) && At(m1, x).flags == (if mode == 1 then 0x11 else 0x01)))
  {
    hide Inv, At, Known, LinkOk, EnsureTable, IsValid, SamePages, TableBits, LeafBits, AllocPage, Fill, Node, Room, LeafOf;
    BitsValid(mode);
    BitsAre(mode);
    MapPageMaps(m, r, va, mode);
    TablesFor(m, r, va, TableBits(mode));
    MadeTables(m, r, va, TableBits(mode));
    OwnLinks(m, r, va);
    var i, j := Vpn2(va), Vpn1(va);
    TopIs(m, r, i);
    LeafLink(r, va);
    SlotRange(m, Top(r, i));
    var m2 := EnsureTable(EnsureTable(m, Top(r, i), TableBits(mode)), Mid(r, i, j), TableBits(mode));
    SameLinks(m, m2);
    GrantSteps(m, r, va, mode);
    if MapPage(m, r, va, mode).1 != 0 {
      LeafLink(r, va);
      LeafOnly(m2, LeafOf(r, va), NextFrame(m2), LeafBits(mode));
    }
  }

  lemma LeafLink(r: nat, va: nat)
    ensures LeafOf(r, va) == Leaf(r, Vpn2(va), Vpn1(va), Vpn0(va)) && LeafOf(r, va).Leaf? && LeafOf(r, va).r == r
  {
  }

  lemma GrantSteps(m: M, r: nat, va: nat, mode: int)
    requires Inv(m) && Own(m, r, va) && Room(m) >= 3 && Known(m, r) && Vpn2(va) < ENTRIES
    requires (var i, j, k := Vpn2(va), Vpn1(va), Vpn0(va);
      var m1 := EnsureTable(m, Top(r, i), TableBits(mode));
      Known(m1, Node(m1, Mid(r, i, j))) && Room(m1) >= 2 &&
      (var m2 := EnsureTable(m1, Mid(r, i, j), TableBits(mode));
        Inv(m2) && Known(m2, Node(m2, Leaf(r, i, j, k))) && Node(m2, Leaf(r, i, j, k)) != 0 && Room(m2) >= 1 && LinkOk(m2, LeafOf(r, va))))
    ensures (var i, j := Vpn2(va), Vpn1(va);
      var m2 := EnsureTable(EnsureTable(m, Top(r, i), TableBits(mode)), Mid(r, i, j), TableBits(mode));
      Known(AllocPage(m2), Node(AllocPage(m2), LeafOf(r, va))) && Slot(LeafOf(r, va)) < ENTRIES &&
      MapPage(m, r, va, mode) ==
        if IsValid(At(m2, LeafOf(r, va))) then (m2, 0)
        else (Fill(AllocPage(m2), LeafOf(r, va), Pte(NextFrame(m2), LeafBits(mode))), KvaOf(NextFrame(m2))))
  {
    hide Inv, At, Known, LinkOk, EnsureTable, IsValid, TableBits, LeafBits, AllocPage, Fill, Node, Room;
    var i, j := Vpn2(va), Vpn1(va);
    TopIs(m, r, i);
    var m2 := EnsureTable(EnsureTable(m, Top(r, i), TableBits(mode)), Mid(r, i, j), TableBits(mode));
    LeafLink(r, va);
    NextFrameFree(m2);
    SetPfnSmall(NextFrame(m2), LeafBits(mode));
    LeafOnly(m2, LeafOf(r, va), NextFrame(m2), LeafBits(mode));
  }

  // ---------- The steps of a process ----------

  /** What a step makes of an entry: tables stay or are made for user code, and pages keep their rights, but for the
      leaf of a page that is new. */
  predicate StepTo(e: Pte, e1: Pte, leaf: bool, first: bool) {
    if leaf then
      if first then e1.flags == 0x1f
      else SameRights(e, e1) && (IsValid(e1) ==> IsValid(e) || e.flags & 0x33e != 0)
    else e1 == e || (!IsValid(e) && e1.flags == 0x11)
  }

  /** From p to p1, with the page at va new if it is said to be. */
  ghost predicate Steps(p: P, p1: P, va: nat, first: bool) {
    && p1.root == p.root && p1.m.roots == p.m.roots && p1.m.shared == p.m.shared
    && forall x :: LinkOk(p.m, x) && x.r == p.root ==> StepTo(At(p.m, x), At(p1.m, x), x.Leaf?, first && x == LeafAt(p, va))
  }

  lemma StepSelf(e: Pte, leaf: bool)
    ensures StepTo(e, e, leaf, false)
  {
    SameRightsSelf(e);
  }

  lemma StepTrans(a: Pte, b: Pte, c: Pte, leaf: bool, first: bool)
    requires StepTo(a, b, leaf, false) && (leaf || b == a) && StepTo(b, c, leaf, first)
    ensures StepTo(a, c, leaf, first)
  {
    hide IsValid;
    if leaf && !first {
      SameRightsTrans(a, b, c);
    }
  }

  lemma OnlyAtSteps(p: P, p1: P, va: nat)
    requires OnlyAt(p, p1, va) && LinkOk(p.m, LeafAt(p, va)) && SameRights(EntryOf(p, va), EntryOf(p1, va))
    requires IsValid(EntryOf(p1, va)) ==> IsValid(EntryOf(p, va)) || EntryOf(p, va).flags & 0x33e != 0
    ensures Steps(p, p1, va, false) && forall x :: LinkOk(p.m, x) && !x.Leaf? ==> At(p1.m, x) == At(p.m, x)
  {
    hide Inv, At, LinkOk, Ptr, Node, SameRights, IsValid, Vpn0, Vpn1, Vpn2;
    forall x | LinkOk(p.m, x) && x.r == p.root
      ensures StepTo(At(p.m, x), At(p1.m, x), x.Leaf?, false)
    {
      if x != LeafAt(p, va) {
        StepSelf(At(p.m, x), x.Leaf?);
      }
    }
  }

  /** Steps that leave all tables alone. */
  ghost predicate LeafSteps(p: P, p1: P) {
    Steps(p, p1, 0, false) && forall x :: LinkOk(p.m, x) && !x.Leaf? ==> At(p1.m, x) == At(p.m, x)
  }

  lemma LeafStepsFrom(p: P, p1: P, va: nat)
    requires Steps(p, p1, va, false) && forall x :: LinkOk(p.m, x) && !x.Leaf? ==> At(p1.m, x) == At(p.m, x)
    ensures LeafSteps(p, p1)
  {
    hide At, LinkOk, StepTo, Vpn0, Vpn1, Vpn2;
  }

  lemma LeafStepsSelf(p: P)
    ensures LeafSteps(p, p)
  {
    hide At, LinkOk, StepTo, LeafAt;
    forall x | LinkOk(p.m, x) && x.r == p.root
      ensures StepTo(At(p.m, x), At(p.m, x), x.Leaf?, false)
    {
      StepSelf(At(p.m, x), x.Leaf?);
    }
  }

  lemma StepsTrans(a: P, b: P, c: P, va: nat, first: bool)
    requires LeafSteps(a, b) && Steps(b, c, va, first)
    ensures Steps(a, c, va, first)
  {
    hide At, LinkOk, StepTo, Vpn0, Vpn1, Vpn2;
    SameLinks(a.m, b.m);
    forall x | LinkOk(a.m, x) && x.r == a.root
      ensures StepTo(At(a.m, x), At(c.m, x), x.Leaf?, first && x == LeafAt(a, va))
    {
      StepTrans(At(a.m, x), At(b.m, x), At(c.m, x), x.Leaf?, first && x == LeafAt(a, va));
    }
  }

  lemma DoSwapSteps(p: P)
    requires PInv(p)
    ensures LeafSteps(p, DoSwap(p).0)
  {
    hide PInv, OnlyAt, SwapOut, CheckAd, Victim, Known, Steps, LeafSteps, SameRights, At, LinkOk, Canonical, PageOk;
    VictimKnown(p);
    VictimIsFirst(p);
    PlistTwo(p);
    LeafStepsSelf(p);
    if |p.plist| > 2 && !p.plist[2].atds {
      var va := p.plist[2].va;
      SwapOutMemory(p, 2);
      ListedAt(p, 2);
      OwnLinks(p.m, p.root, va);
      ClearKeeps(EntryOf(p, va));
      ValidAttribute(EntryOf(p, va), 0);
      OnlyAtSteps(p, DoSwap(p).0, va);
      LeafStepsFrom(p, DoSwap(p).0, va);
    }
  }

  /** Pages that can be swapped have the rights of user pages, also while they are on disk. */
  ghost predicate Granted(p: P) {
    forall i :: 2 <= i < |p.plist| ==> EntryOf(p, p.plist[i].va).flags & 0x33e == 0x1e
  }

  lemma SwapInSteps(p: P, i: nat)
    requires PInv(p) && Granted(p) && 2 <= i < |p.plist| && p.plist[i].atds
    ensures p.plist[i].pte.Place? && Known(p.m, p.plist[i].pte.f) && p.plist[i].pte.i < ENTRIES && OnDisk(p.disk, p.plist[i].block, PAGE_SECTORS)
    ensures LeafSteps(p, SwapIn(p, i))
  {
    hide PInv, OnlyAt, SwapIn, Known, OnDisk, Steps, LeafSteps, SameRights, At, LinkOk, Canonical, PageOk, SetAttribute;
    var va := p.plist[i].va;
    SwapInMemory(p, i);
    ListedAt(p, i);
    OwnLinks(p.m, p.root, va);
    SetKeeps(EntryOf(p, va));
    assert EntryOf(p, va).flags & 0x33e == 0x1e;
    OnlyAtSteps(p, SwapIn(p, i), va);
    LeafStepsFrom(p, SwapIn(p, i), va);
  }

  /** The two kinds of fault. */
  predicate FaultKind(bits: bv10) {
    bits == 0x40 || bits == 0xc0
  }

  lemma KindBits(bits: bv10)
    requires FaultKind(bits)
    ensures bits & PRESENT == 0 && (bits == ACCESSED || bits == ACCESSED | DIRTY)
  {
  }

  /** A fault on a mapped page: the walk finds the same page of memory, and its entry has the attributes of the
      fault besides those it had. */
  lemma MappedFault(p: P, stval: nat, bits: bv10)
    requires PInv(p) && Canonical(stval) && Own(p.m, p.root, stval) && CheckAd(p.m, p.root, stval).Place? && FaultKind(bits)
    ensures var p1, e := Fault(p, stval, bits), EntryOf(p, stval);
      IsValid(e) && EntryOf(p1, stval) == Pte(e.ppn, e.flags | bits) && CheckAd(p1.m, p1.root, stval) == CheckAd(p.m, p.root, stval) &&
      p1 == p.(m := p1.m) && p1.m.data == p.m.data && LeafSteps(p, p1) &&
      (e.flags & bits == bits ==> p1 == p)
  {
    hide Inv, CheckAd, IsValid, Known, At, Node, LinkOk, Room, Vpn0, Vpn1, Vpn2, Stacks, Listed, Slots, LeafSteps, Steps, SameRights, Canonical, SetAttribute;
    KindBits(bits);
    var e, at, p1 := EntryOf(p, stval), CheckAd(p.m, p.root, stval), Fault(p, stval, bits);
    PlaceKnown(p.m, p.root, stval);
    OwnLinks(p.m, p.root, stval);
    ValidPpn(p.m, LeafAt(p, stval));
    PtrAt(p.m, LeafAt(p, stval));
    ValidAttribute(e, bits);
    AttributePpn(e, bits);
    AttributeIs(e, bits);
    SetLeaf(p.m, p.root, stval, SetAttribute(e, bits));
    SetAccessMemory(p, stval, bits);
    SetKeeps(e);
    OnlyAtSteps(p, p1, stval);
    LeafStepsFrom(p, p1, stval);
    SameLinks(p.m, p1.m);
    CheckAdIs(p1.m, p1.root, stval);
    if e.flags & bits == bits {
      OrAgain(e.flags, bits);
      SetSame(p.m, at.f, at.i);
    }
  }

  lemma AttributeIs(e: Pte, bits: bv10)
    ensures SetAttribute(e, bits) == Pte(e.ppn, e.flags | bits)
  {
  }

  lemma OrAgain(f: bv10, bits: bv10)
    requires f & bits == bits
    ensures f | bits == f
  {
  }

  lemma SetSame(m: M, f: nat, i: nat)
    requires Known(m, f) && i < ENTRIES
    ensures SetEntry(m, f, i, Entry(m, f, i)) == m
  {
    assert m.table[f][i := m.table[f][i]] == m.table[f];
    assert m.table[f := m.table[f]] == m.table;
  }

  lemma AddPageSteps(p: P, stval: nat)
    requires PInv(p) && Fresh(p, stval) && Room(p.m) >= 3
    ensures Known(p.m, p.root) && Steps(p, AddPage(p, stval), stval, true)
  {
    hide Inv, At, Known, LinkOk, MapPage, IsValid, SameRights, Listed, Stacks, Slots, Vpn0, Vpn1, Vpn2, Canonical, Room;
    MapPageGrants(p.m, p.root, stval, 1);
    MapPageMaps(p.m, p.root, stval, 1);
    var p1 := AddPage(p, stval);
    AddPageMemory(p, stval);
    forall x | LinkOk(p.m, x) && x.r == p.root
      ensures StepTo(At(p.m, x), At(p1.m, x), x.Leaf?, x == LeafAt(p, stval))
    {
      if x != LeafAt(p, stval) {
        StepSelf(At(p.m, x), x.Leaf?);
      }
    }
  }

  /** Every handled fault, entry by entry: rights stay as they are, and a page seen first gets those of user pages. */
  lemma FaultSteps(p: P, stval: nat, bits: bv10)
    requires PInv(p) && Granted(p) && Canonical(stval) && Own(p.m, p.root, stval) && Served(p, stval) && FaultKind(bits)
    ensures Steps(p, Fault(p, stval, bits), stval, NewPage(p, stval))
  {
    hide PInv, DoSwap, SwapIn, AddPage, SetAccess, IsValid, At, CheckAd, Known, OnDisk, OnlyAt, Room, FindSwapped, Fresh, Canonical, Own, LeafSteps, StepTo, LinkOk;
    if CheckAd(p.m, p.root, stval).Place? {
      MappedFault(p, stval, bits);
      LeafStepsAt(p, Fault(p, stval, bits), stval);
    } else {
      FaultFinds(p, stval);
      FindSwappedIs(p.plist, PageOf(stval));
      var i := FindSwapped(p.plist, PageOf(stval));
      if i < |p.plist| {
        SwapInSteps(p, i);
        SwapInKeeps(p, i);
        DoSwapSteps(SwapIn(p, i));
        LeafStepsAt(SwapIn(p, i), DoSwap(SwapIn(p, i)).0, stval);
        StepsTrans(p, SwapIn(p, i), DoSwap(SwapIn(p, i)).0, stval, false);
        LeafStepsAt(p, SwapIn(p, i), stval);
      } else {
        DoSwapKeeps(p);
        DoSwapSteps(p);
        FreshAfterSwap(p, stval);
        LeafStepsSelf(p);
        var p1 := if p.pnum >= MAX_RESIDENT then DoSwap(p).0 else p;
        AddPageSteps(p1, stval);
        StepsTrans(p, p1, AddPage(p1, stval), stval, true);
      }
    }
  }

  lemma LeafStepsAt(p: P, p1: P, va: nat)
    requires LeafSteps(p, p1)
    ensures Steps(p, p1, va, false)
  {
    hide At, LinkOk, StepTo, Vpn0, Vpn1, Vpn2;
  }

  lemma PutSteps(p: P, va: nat, b: byte)
    requires PInv(p) && Own(p.m, p.root, va) && InRam(EntryOf(p, va).ppn)
    ensures Known(p.m, EntryOf(p, va).ppn) && Steps(p, Runs.Put(p, va, b), va, false)
  {
    hide PInv, At, LinkOk, StepTo, Vpn0, Vpn1, Vpn2, InRam;
    Runs.PutMemory(p, va, b);
    var p1 := Runs.Put(p, va, b);
    forall x | LinkOk(p.m, x) && x.r == p.root
      ensures StepTo(At(p.m, x), At(p1.m, x), x.Leaf?, false)
    {
      StepSelf(At(p.m, x), x.Leaf?);
    }
  }

  lemma ApplySteps(p: P, e: Runs.Event)
    requires PInv(p) && Granted(p) && Runs.Enabled(p, e)
    ensures Steps(p, Runs.Apply(p, e), e.va, !e.Store? && NewPage(p, e.va))
  {
    hide PInv, Granted, Fault, At, CheckAd, Canonical, Own, Known, Served, Steps, NewPage;
    match e
    case LoadFault(va) => FaultSteps(p, va, ACCESSED);
    case StoreFault(va) =>
      assert ACCESSED | DIRTY == 0xc0;
      FaultSteps(p, va, ACCESSED | DIRTY);
    case Store(va, b) =>
      Runs.StoreValid(p, va);
      PutSteps(p, va, b);
  }

  // ---------- Rights, from boot on ----------

  predicate RightsOf(e: Pte, user: bool) {
    (e.flags & 0x33e == 0 && !IsValid(e)) || e.flags & 0x33e == if user then 0x1e else 0x0e
  }

  /** Tables of r lead on; a page that has ever been mapped is readable, writable and executable, and open to user code
      unless it is the kernel stack. */
  ghost predicate Rights(m: M, r: nat) {
    && (forall x :: LinkOk(m, x) && x.r == r && !x.Leaf? ==> At(m, x).flags & 0xe == 0)
    && (forall x :: LinkOk(m, x) && x.r == r && x.Leaf? ==> RightsOf(At(m, x), x != LeafOf(r, KERNEL_STACK_PAGE)))
  }

  lemma StepRights(e: Pte, e1: Pte, user: bool, first: bool)
    requires RightsOf(e, user) && StepTo(e, e1, true, first) && (first ==> user)
    ensures RightsOf(e1, user)
  {
  }

  lemma TableRights(e: Pte, e1: Pte)
    requires e.flags & 0xe == 0 && StepTo(e, e1, false, false)
    ensures e1.flags & 0xe == 0
  {
  }

  lemma StepsRights(p: P, p1: P, va: nat, first: bool)
    requires Rights(p.m, p.root) && Steps(p, p1, va, first) && (first ==> LeafAt(p, va) != LeafOf(p.root, KERNEL_STACK_PAGE))
    ensures Rights(p1.m, p1.root)
  {
    hide At, LinkOk, StepTo, RightsOf, Vpn0, Vpn1, Vpn2;
    SameLinks(p.m, p1.m);
    forall x | LinkOk(p1.m, x) && x.r == p.root
      ensures if x.Leaf? then RightsOf(At(p1.m, x), x != LeafOf(p.root, KERNEL_STACK_PAGE)) else At(p1.m, x).flags & 0xe == 0
    {
      if x.Leaf? {
        StepRights(At(p.m, x), At(p1.m, x), x != LeafOf(p.root, KERNEL_STACK_PAGE), first && x == LeafAt(p, va));
      } else {
        TableRights(At(p.m, x), At(p1.m, x));
      }
    }
  }

  /** A page seen first is neither listed nor a stack. */
  lemma NewIsNoStack(p: P, va: nat)
    requires PInv(p) && Canonical(va) && Own(p.m, p.root, va) && NewPage(p, va)
    ensures LeafAt(p, va) != LeafOf(p.root, KERNEL_STACK_PAGE) && !Lists(p, PageOf(va))
  {
    hide Inv, IsValid, CheckAd, FindSwapped, Lists, At, Slots, PageOk, Canonical, Own, Vpn0, Vpn1, Vpn2, PageNo;
    FaultFinds(p, va);
    NewPageSees(p, va);
    StackSlots();
    AlignedPage(KERNEL_STACK_PAGE);
    LeavesApart(p, va, KERNEL_STACK_PAGE);
  }

  lemma UserBits(e: Pte, e1: Pte, first: bool)
    requires StepTo(e, e1, true, first) && (!first ==> e.flags & 0x33e == 0x1e)
    ensures e1.flags & 0x33e == 0x1e
  {
  }

  lemma ListedGranted(p: P, page: nat)
    requires Granted(p) && Lists(p, page)
    ensures EntryOf(p, page).flags & 0x33e == 0x1e
  {
    hide At;
  }

  /** Which page an event may put on the list. */
  lemma ApplyLists(p: P, e: Runs.Event, page: nat)
    requires PInv(p) && Runs.Enabled(p, e) && PInv(Runs.Apply(p, e)) && Proper(p, page) && Lists(Runs.Apply(p, e), page)
    ensures Lists(p, page) || (!e.Store? && NewPage(p, e.va) && PageOf(e.va) == page)
  {
    hide PInv, Fault, At, IsValid, CheckAd, Canonical, Own, Known, Served, NewPage, Lists, EntryOf, Proper;
    FaultBits();
    match e
    case LoadFault(va) => FaultOff(p, va, ACCESSED, page);
    case StoreFault(va) => FaultOff(p, va, ACCESSED | DIRTY, page);
    case Store(va, b) =>
      Runs.StoreValid(p, va);
      PutLists(p, va, b, page);
  }

  lemma PutLists(p: P, va: nat, b: byte, page: nat)
    requires Known(p.m, EntryOf(p, va).ppn)
    ensures Lists(Runs.Put(p, va, b), page) <==> Lists(p, page)
  {
  }

  lemma ApplyGrants(p: P, e: Runs.Event)
    requires PInv(p) && Granted(p) && Runs.Enabled(p, e)
    ensures PInv(Runs.Apply(p, e)) && Granted(Runs.Apply(p, e))
  {
    hide PInv, Runs.Apply, Runs.Enabled, At, LinkOk, StepTo, NewPage, Lists, Canonical, Vpn0, Vpn1, Vpn2, PageOk, View;
    Runs.ApplyKeeps(p, e);
    ApplySteps(p, e);
    var p1 := Runs.Apply(p, e);
    forall i | 2 <= i < |p1.plist|
      ensures EntryOf(p1, p1.plist[i].va).flags & 0x33e == 0x1e
    {
      var page := p1.plist[i].va;
      ListedAt(p1, i);
      ProperKept(p1, p, page);
      ListsAt(p1, i);
      ApplyLists(p, e, page);
      OwnLinks(p.m, p.root, page);
      EventMeans(p, e);
      if !e.Store? && NewPage(p, e.va) {
        NewIsNoStack(p, e.va);
        LeavesSameOf(p, e.va);
      }
      if Lists(p, page) {
        ListedGranted(p, page);
        UserBits(EntryOf(p, page), EntryOf(p1, page), !e.Store? && NewPage(p, e.va) && LeafAt(p, page) == LeafAt(p, e.va));
      } else {
        UserBits(EntryOf(p, page), EntryOf(p1, page), true);
      }
    }
  }

  lemma ListsAt(p: P, i: nat)
    requires 2 <= i < |p.plist|
    ensures Lists(p, p.plist[i].va)
  {
  }

  lemma EventMeans(p: P, e: Runs.Event)
    requires PInv(p) && Runs.Enabled(p, e)
    ensures Canonical(e.va) && Own(p.m, p.root, e.va)
  {
  }

  // ---------- do_exec ----------

  lemma NewRootRights(m: M)
    requires Inv(m) && KernelClean(m) && Room(m) > 0
    ensures KERNEL_ROOT in m.table && Rights(NewRoot(m), NextFrame(m))
  {
    hide Inv, NewRoot, NextFrame, LinkOk, At, KernelClean, Room, LeafOf;
    NewRootKeeps(m);
  }

  lemma NewBits(mode: int)
    ensures mode == 1 ==> RightsOf(Pte(0, 0x1f), true) && forall f: nat :: RightsOf(Pte(f, 0x1f), true)
    ensures forall f: nat :: RightsOf(Pte(f, 0x0f), false)
  {
  }

  /** Mapping a page keeps the rights of a directory, if the mode is 0 for the kernel stack alone. */
  lemma MapPageRights(m: M, r: nat, va: nat, mode: int)
    requires Inv(m) && Own(m, r, va) && Room(m) >= 3 && Rights(m, r)
    requires mode == 1 <==> LeafOf(r, va) != LeafOf(r, KERNEL_STACK_PAGE)
    ensures Known(m, r) && Rights(MapPage(m, r, va, mode).0, r)
  {
    hide Inv, At, Known, LinkOk, MapPage, IsValid, RightsOf, Room, LeafOf, Own;
    MapPageGrants(m, r, va, mode);
    MapPageMaps(m, r, va, mode);
    NewBits(mode);
    var m1, kva := MapPage(m, r, va, mode).0, MapPage(m, r, va, mode).1;
    if kva != 0 {
      MappedMeans(m, m1, r, va, FrameOf(kva), LeafBits(mode));
    }
    SameLinks(m, m1);
    forall x | LinkOk(m1, x) && x.r == r
      ensures if x.Leaf? then RightsOf(At(m1, x), x != LeafOf(r, KERNEL_STACK_PAGE)) else At(m1, x).flags & 0xe == 0
    {
      if !x.Leaf? {
        TableStays(At(m, x), At(m1, x), mode);
      }
    }
  }

  lemma TableStays(e: Pte, e1: Pte, mode: int)
    requires e.flags & 0xe == 0 && (e1 == e || e1.flags == (if mode == 1 then 0x11 else 0x01))
    ensures e1.flags & 0xe == 0
  {
  }

  lemma SameRightsOf(m: M, m1: M, r: nat)
    requires Rights(m, r) && (forall x :: LinkOk(m1, x) && x.r == r ==> LinkOk(m, x) && At(m1, x) == At(m, x))
    ensures Rights(m1, r)
  {
    hide At, LinkOk, RightsOf, LeafOf;
  }

  lemma LoadJobRights(m: M, r: nat, j: Job)
    requires Inv(m) && Own(m, r, j.va) && Room(m) >= 3 && !IsValid(At(m, LeafOf(r, j.va))) && |j.image| == PAGE_SIZE
    requires Rights(m, r) && LeafOf(r, j.va) != LeafOf(r, KERNEL_STACK_PAGE)
    ensures Known(m, r) && Rights(LoadJob(m, r, j), r)
  {
    hide Inv, At, Known, LinkOk, MapPage, IsValid, Rights, Room, LeafOf, LeafBits;
    MapPageRights(m, r, j.va, 1);
    MapPageMaps(m, r, j.va, 1);
    var (m1, kva) := MapPage(m, r, j.va, 1);
    MappedMeans(m, m1, r, j.va, FrameOf(kva), LeafBits(1));
    SetDataKeeps(m1, FrameOf(kva), j.image);
    SameLinks(m1, LoadJob(m, r, j));
    SameRightsOf(m1, LoadJob(m, r, j), r);
  }

  lemma {:induction false} LoadJobsRights(m: M, r: nat, jobs: seq<Job>)
    requires Inv(m) && Clear(m, r, jobs) && Room(m) >= 3 * |jobs| && Rights(m, r)
    requires forall i :: 0 <= i < |jobs| ==> LeafOf(r, jobs[i].va) != LeafOf(r, KERNEL_STACK_PAGE)
    ensures Rights(LoadJobs(m, r, jobs), r)
    decreases |jobs|
  {
    hide Inv, At, Known, LinkOk, LoadJob, IsValid, Room, Loaded, Kept, Clear, Ptr, Own, Rights, LeafOf;
    if jobs != [] {
      var n := |jobs| - 1;
      var m0 := LoadJobs(m, r, jobs[..n]);
      ClearPrefix(m, r, jobs);
      LoadJobsRights(m, r, jobs[..n]);
      LoadJobsKeeps(m, r, jobs[..n]);
      JobApart(m, r, jobs);
      ClearLast(m, m0, r, jobs);
      LoadJobRights(m0, r, jobs[n]);
    }
  }

  lemma WithStacksRights(m: M)
    requires Inv(m) && KernelClean(m) && Room(m) >= 7
    ensures Rights(WithStacks(m).0, NextFrame(m))
  {
    hide Inv, Room, Known, LinkOk, At, MapPage, NewRoot, NextFrame, Apart, KernelClean, LeafBits, IsValid, LeafOf, Rights;
    FirstStack(m);
    StackSlots();
    NewRootKeeps(m);
    NewRootRights(m);
    var r, m1 := NextFrame(m), NewRoot(m);
    var m2, k := MapPage(m1, r, KERNEL_STACK_PAGE, 0).0, FrameOf(MapPage(m1, r, KERNEL_STACK_PAGE, 0).1);
    CleanShared(m1);
    StackLeaves(m1, r);
    MapPageRights(m1, r, KERNEL_STACK_PAGE, 0);
    MappedMeans(m1, m2, r, KERNEL_STACK_PAGE, k, LeafBits(0));
    MapPageRights(m2, r, USER_STACK_PAGE, 1);
  }

  lemma ExecRights(m: M, jobs: seq<Job>, st: StackPages, disk: Disk, swapBlock: nat)
    requires ExecFits(m, jobs) && PageSized(st)
    ensures Rights(ExecP(m, jobs, st, disk, swapBlock).m, NextFrame(m)) && Granted(ExecP(m, jobs, st, disk, swapBlock))
  {
    hide Inv, Room, Known, LinkOk, At, WithStacks, LoadJobs, NextFrame, Apart, IsValid, KernelClean, LeafOf, LeafBits, Loaded, Own, ExecFits, StoreStacks, Rights, PageSame;
    FitsMeans(m, jobs);
    WithStacksIs(m);
    ExecClear(m, jobs);
    WithStacksRights(m);
    LoadedKeeps(m, jobs);
    var (m3, k, u) := WithStacks(m);
    var r := NextFrame(m);
    forall i | 0 <= i < |jobs|
      ensures LeafOf(r, jobs[i].va) != LeafOf(r, KERNEL_STACK_PAGE)
    {
      JobNoStack(m, jobs, i);
      PagesApart(r, jobs[i].va, KERNEL_STACK_PAGE);
    }
    LoadJobsRights(m3, r, jobs);
    var m4 := LoadJobs(m3, r, jobs);
    CleanShared(m4);
    StackLeaves(m4, r);
    PtrAt(m4, LeafOf(r, KERNEL_STACK_PAGE));
    PtrAt(m4, LeafOf(r, USER_STACK_PAGE));
    StoreStacksKeeps(m4, r, LeafOf(r, KERNEL_STACK_PAGE), LeafOf(r, USER_STACK_PAGE), st);
    var p := ExecP(m, jobs, st, disk, swapBlock);
    SameLinks(m4, p.m);
    SameRightsOf(m4, p.m, r);
  }

  // ---------- Every state from boot ----------

  ghost predicate AllRights(s: Sys) {
    SInv(s) && forall r :: r in s.procs ==> Rights(s.m, r) && Granted(Of(s, r))
  }

  lemma UndisturbedRights(q: P, q1: P)
    requires Undisturbed(q, q1) && PInv(q) && Rights(q.m, q.root) && Granted(q)
    ensures Rights(q1.m, q1.root) && Granted(q1)
  {
    hide Inv, At, RightsOf, Stacks, Slots, PageOk, DiskKept, Ptr, Canonical, Vpn0, Vpn1, Vpn2;
    LinksBack(q.m, q1.m, q.root);
    forall i | 2 <= i < |q1.plist|
      ensures EntryOf(q1, q1.plist[i].va).flags & 0x33e == 0x1e
    {
      OwnLinks(q.m, q.root, q.plist[i].va);
    }
  }

  lemma LinksBack(m: M, m1: M, r: nat)
    requires r in m.roots && m1.shared == m.shared
    ensures forall x :: LinkOk(m1, x) && x.r == r ==> LinkOk(m, x)
  {
  }

  lemma ApplyAllRights(s: Sys, e: Event)
    requires AllRights(s) && Enabled(s, e)
    ensures AllRights(Apply(s, e))
  {
    hide PInv, RamOnly, Inv, KernelClean, SlotsOwned, ExecFits, Runs.Apply, Runs.Enabled, ExecP, Ended, Program, Rights, Granted, Undisturbed, Steps, NewPage;
    VmSystem.ApplyKeeps(s, e);
    var s1 := Apply(s, e);
    forall q | q in s1.procs
      ensures Rights(s1.m, q) && Granted(Of(s1, q))
    {
      if q in s.procs && (e.Exec? || q != e.r) {
        assert ProcOk(s, q);
        UndisturbedRights(Of(s, q), Of(s1, q));
      } else {
        OwnRights(s, e, q);
      }
    }
  }

  /** The process that an event is about. */
  lemma OwnRights(s: Sys, e: Event, q: nat)
    requires AllRights(s) && Enabled(s, e) && q in Apply(s, e).procs && !(q in s.procs && (e.Exec? || q != e.r))
    ensures Rights(Apply(s, e).m, q) && Granted(Of(Apply(s, e), q))
  {
    hide PInv, RamOnly, Inv, KernelClean, SlotsOwned, ExecFits, Runs.Apply, Runs.Enabled, ExecP, Program, Rights, Granted, Undisturbed, Steps, NewPage, FreeAll, Ended;
    match e
    case Exec(file, st) =>
      ExecRights(s.m, Program(file), st, s.disk, s.swapBlock);
      ExecRoot(s.m, Program(file), st, s.disk, s.swapBlock);
      OfPut(s, ExecP(s.m, Program(file), st, s.disk, s.swapBlock));
    case Access(r, a) =>
      assert ProcOk(s, r);
      var p := Of(s, r);
      ApplySteps(p, a);
      ApplyGrants(p, a);
      EventMeans(p, a);
      if !a.Store? && NewPage(p, a.va) {
        NewIsNoStack(p, a.va);
      }
      StepsRights(p, Runs.Apply(p, a), a.va, !a.Store? && NewPage(p, a.va));
      StepsRoot(p, Runs.Apply(p, a), a.va, !a.Store? && NewPage(p, a.va));
      OfPut(s, Runs.Apply(p, a));
    case Exit(r) => EndedProcs(s, r);
  }

  lemma StepsRoot(p: P, p1: P, va: nat, first: bool)
    requires Steps(p, p1, va, first)
    ensures p1.root == p.root
  {
  }

  lemma OfPut(s: Sys, p: P)
    ensures p.root in Put(s, p).procs && Of(Put(s, p), p.root) == p && Put(s, p).m == p.m && Put(s, p).procs.Keys == s.procs.Keys + {p.root}
  {
  }

  lemma EndedProcs(s: Sys, r: nat)
    requires r in s.procs
    ensures Ended(s, r).procs.Keys == s.procs.Keys - {r}
  {
  }

  lemma {:induction false} RunRights(s: Sys, es: seq<Event>)
    requires AllRights(s) && Allowed(s, es)
    ensures AllRights(Run(s, es))
    decreases |es|
  {
    hide AllRights, SInv, Enabled, Apply;
    if es != [] {
      RightsMeans(s);
      ApplyAllRights(s, es[0]);
      VmSystem.ApplyKeeps(s, es[0]);
      RunRights(Apply(s, es[0]), es[1..]);
    }
  }

  lemma RightsMeans(s: Sys)
    requires AllRights(s)
    ensures SInv(s)
  {
  }

  lemma StartRights(s: Sys)
    requires Start(s)
    ensures AllRights(s)
  {
    hide Inv;
    StartOk(s);
  }

  // ---------- The hardware's walk ----------

  datatype Way = Load | Store | Fetch

  datatype Walked = PageFault | Reached(level: nat, e: Pte)

  /** Valid, and not writable without being readable. */
  predicate HwValid(e: Pte) {
    e.flags & 1 != 0 && (e.flags & 4 != 0 ==> e.flags & 2 != 0)
  }

  /** Readable or executable: the walk ends here. */
  predicate HwLeaf(e: Pte) {
    e.flags & 0xa != 0
  }

  /** Address translation as section 4.3.2 of the RISC-V Privileged Architecture describes it, up to the leaf. */
  function HwWalk(m: M, r: nat, va: nat): Walked {
    var e2 := Entry(m, r, Vpn2(va));
    if !HwValid(e2) then PageFault
    else if HwLeaf(e2) then Reached(2, e2)
    else
      var e1 := Entry(m, e2.ppn, Vpn1(va));
      if !HwValid(e1) then PageFault
      else if HwLeaf(e1) then Reached(1, e1)
      else
        var e0 := Entry(m, e1.ppn, Vpn0(va));
        if HwValid(e0) && HwLeaf(e0) then Reached(0, e0) else PageFault
  }

  /** An access in user mode goes through. */
  predicate UserMay(m: M, r: nat, va: nat, w: Way) {
    match HwWalk(m, r, va)
    case PageFault => false
    case Reached(_, e) =>
      && e.flags & 0x10 != 0 && e.flags & 0x40 != 0
      && (match w case Load => e.flags & 2 != 0 case Store => e.flags & 4 != 0 && e.flags & 0x80 != 0 case Fetch => e.flags & 8 != 0)
  }

  lemma TableGoesOn(e: Pte)
    requires e.flags & 0xe == 0
    ensures !HwLeaf(e) && (HwValid(e) <==> IsValid(e))
  {
  }

  lemma PageEnds(e: Pte, user: bool)
    requires RightsOf(e, user)
    ensures IsValid(e) <==> HwValid(e) && HwLeaf(e)
    ensures IsValid(e) ==> e.flags & 2 != 0 && e.flags & 4 != 0 && e.flags & 8 != 0 && (e.flags & 0x10 != 0 <==> user)
  {
  }

  /** The hardware's walk ends at the leaf entry, exactly when that is valid. */
  lemma HwWalkIs(m: M, r: nat, va: nat)
    requires Inv(m) && Own(m, r, va) && Rights(m, r)
    ensures HwWalk(m, r, va) == if IsValid(At(m, LeafOf(r, va))) then Reached(0, At(m, LeafOf(r, va))) else PageFault
  {
    hide Inv, IsValid, Entry, HwValid, HwLeaf, RightsOf;
    var i, j, k := Vpn2(va), Vpn1(va), Vpn0(va);
    OwnLinks(m, r, va);
    NoneInvalid();
    WalkStep(m, Top(r, i));
    WalkStep(m, Mid(r, i, j));
    LinkRoot(m, Top(r, i));
    TableGoesOn(At(m, Top(r, i)));
    TableGoesOn(At(m, Mid(r, i, j)));
    PageEnds(At(m, LeafOf(r, va)), LeafOf(r, va) != LeafOf(r, KERNEL_STACK_PAGE));
  }

  /** In every state reached from boot, user code of a process gets through to an address of its own exactly when the
      page there is mapped, is not the kernel stack, and has been accessed, and for a store is dirty. */
  lemma UserMayIff(s: Sys, es: seq<Event>, r: nat, va: nat, w: Way)
    requires Start(s) && SInv(s) && Allowed(s, es) && r in Run(s, es).procs && Canonical(va) && Own(Run(s, es).m, r, va)
    ensures var t := Run(s, es); var e := EntryOf(Of(t, r), va);
      UserMay(t.m, r, va, w) <==>
        IsValid(e) && PageOf(va) != KERNEL_STACK_PAGE && e.flags & 0x40 != 0 && (w.Store? ==> e.flags & 0x80 != 0)
  {
    hide PInv, Inv, RamOnly, KernelClean, SlotsOwned, Allowed, Run, At, IsValid, Granted, Rights, Canonical, Own, RightsOf, HwWalk;
    StartRights(s);
    RunRights(s, es);
    var t := Run(s, es);
    UserMayHere(t.m, Of(t, r), va, w);
  }

  lemma UserMayHere(m: M, p: P, va: nat, w: Way)
    requires Inv(m) && p.m == m && Rights(m, p.root) && Canonical(va) && Own(m, p.root, va)
    ensures var e := EntryOf(p, va);
      UserMay(m, p.root, va, w) <==>
        IsValid(e) && PageOf(va) != KERNEL_STACK_PAGE && e.flags & 0x40 != 0 && (w.Store? ==> e.flags & 0x80 != 0)
  {
    hide Inv, At, IsValid, HwWalk, Canonical, RightsOf, LinkOk, Vpn0, Vpn1, Vpn2, PageNo;
    HwWalkIs(m, p.root, va);
    OwnLinks(m, p.root, va);
    StackSlots();
    AlignedPage(KERNEL_STACK_PAGE);
    if PageOf(va) == KERNEL_STACK_PAGE {
      LeavesSame(p, va, KERNEL_STACK_PAGE);
    } else {
      LeavesApart(p, va, KERNEL_STACK_PAGE);
    }
    PageEnds(EntryOf(p, va), LeafAt(p, va) != LeafOf(p.root, KERNEL_STACK_PAGE));
  }

  // ---------- What faults are for ----------

  /** The attributes that a fault sets: accessed for a load, dirty as well for a store. */
  function MarkOf(e: Runs.Event): bv10 {
    match e
    case LoadFault(_) => 0x40
    case StoreFault(_) => 0xc0
    case Store(_, _) => 0
  }

  /** A fault on a mapped page sets accessed, for a store dirty as well, and changes nothing else, no attribute and no
      page. */
  lemma FaultMarks(p: P, e: Runs.Event)
    requires PInv(p) && Runs.Enabled(p, e) && !e.Store? && CheckAd(p.m, p.root, e.va).Place?
    ensures var p1, x := Runs.Apply(p, e), EntryOf(p, e.va);
      IsValid(x) && EntryOf(p1, e.va) == Pte(x.ppn, x.flags | MarkOf(e)) && CheckAd(p1.m, p1.root, e.va) == CheckAd(p.m, p.root, e.va) &&
      p1 == p.(m := p1.m) && p1.m.data == p.m.data && LeafSteps(p, p1) &&
      (x.flags & MarkOf(e) == MarkOf(e) ==> p1 == p)
  {
    hide PInv, Fault, At, CheckAd, Canonical, Own, Known, LeafSteps, IsValid, Served;
    assert ACCESSED | DIRTY == 0xc0;
    MappedFault(p, e.va, MarkOf(e));
  }

  /** page has been mapped: it still is, or it is on the list. */
  ghost predicate Present(p: P, page: nat) {
    IsValid(EntryOf(p, page)) || Lists(p, page)
  }

  lemma NewNotPresent(p: P, va: nat, page: nat)
    requires PInv(p) && Canonical(va) && Own(p.m, p.root, va) && NewPage(p, va) && Proper(p, page) && Present(p, page)
    ensures PageOf(va) != page && LeafAt(p, va) != LeafAt(p, page)
  {
    hide PInv, IsValid, CheckAd, Canonical, Own, FindSwapped, Lists, At, Vpn0, Vpn1, Vpn2, PageNo, LeafOf;
    FaultFinds(p, va);
    NewIsNoStack(p, va);
    LeavesSameOf(p, va);
    AlignedPage(page);
    ProperMeans(p, page);
    if PageOf(va) != page {
      LeavesApart(p, va, page);
    }
  }

  lemma ProperMeans(p: P, page: nat)
    requires Proper(p, page)
    ensures Canonical(page) && page % PAGE_SIZE == 0 && Own(p.m, p.root, page)
  {
  }

  /** A page that has been mapped stays so, and loses no attribute but validity. */
  lemma PresentStep(p: P, e: Runs.Event, page: nat)
    requires PInv(p) && Granted(p) && Proper(p, page) && Present(p, page)
    ensures var p1 := Runs.Apply(p, e);
      PInv(p1) && Granted(p1) && Proper(p1, page) && Present(p1, page) && SameRights(EntryOf(p, page), EntryOf(p1, page))
  {
    hide PInv, Granted, Runs.Apply, Runs.Enabled, At, LinkOk, NewPage, Lists, SameRights, View, IsValid, LeafOf, Canonical;
    Runs.ApplyKeeps(p, e);
    var p1 := Runs.Apply(p, e);
    if Runs.Enabled(p, e) {
      ApplySteps(p, e);
      ApplyGrants(p, e);
      EventMeans(p, e);
      ProperKept(p, p1, page);
      OwnLinks(p.m, p.root, page);
      LeafLink(p.root, page);
      if !e.Store? && NewPage(p, e.va) {
        NewNotPresent(p, e.va, page);
      }
      StillPresent(p, e, page);
    } else {
      NotEnabled(p, e);
      SameRightsSelf(EntryOf(p, page));
    }
  }

  lemma NotEnabled(p: P, e: Runs.Event)
    requires PInv(p) && !Runs.Enabled(p, e)
    ensures Runs.Apply(p, e) == p
  {
  }

  lemma StillPresent(p: P, e: Runs.Event, page: nat)
    requires PInv(p) && Runs.Enabled(p, e) && PInv(Runs.Apply(p, e)) && Proper(p, page) && Present(p, page)
    requires forall q :: View(p, q).Held? ==> View(Runs.Apply(p, e), q).Held?
    requires !(!e.Store? && NewPage(p, e.va) && PageOf(e.va) == page)
    ensures Present(Runs.Apply(p, e), page)
  {
    hide PInv, Fault, At, CheckAd, Canonical, Own, Known, Served, NewPage, Lists, EntryOf, Proper, View, IsValid;
    var p1 := Runs.Apply(p, e);
    ListsView(p, page);
    ListsView(p1, page);
    if !Lists(p, page) {
      FaultBits();
      match e
      case LoadFault(va) => FaultOff(p, va, ACCESSED, page);
      case StoreFault(va) => FaultOff(p, va, ACCESSED | DIRTY, page);
      case Store(va, b) =>
        Runs.StoreValid(p, va);
        PutEntry(p, va, b, page);
    }
  }

  lemma PutEntry(p: P, va: nat, b: byte, page: nat)
    requires PInv(p) && Own(p.m, p.root, va) && InRam(EntryOf(p, va).ppn) && Proper(p, page)
    ensures Known(p.m, EntryOf(p, va).ppn) && EntryOf(Runs.Put(p, va, b), page) == EntryOf(p, page)
  {
    hide PInv, At, LinkOk, Vpn0, Vpn1, Vpn2, InRam, Canonical;
    Runs.PutMemory(p, va, b);
    OwnLinks(p.m, p.root, page);
  }

  lemma {:induction false} PresentRun(p: P, es: seq<Runs.Event>, page: nat)
    requires PInv(p) && Granted(p) && Proper(p, page) && Present(p, page)
    ensures var p1 := Runs.Run(p, es);
      PInv(p1) && Proper(p1, page) && Present(p1, page) && SameRights(EntryOf(p, page), EntryOf(p1, page))
    decreases |es|
  {
    hide PInv, Granted, Runs.Apply, Proper, Present, SameRights, EntryOf;
    if es == [] {
      SameRightsSelf(EntryOf(p, page));
    } else {
      var p1 := Runs.Apply(p, es[0]);
      PresentStep(p, es[0], page);
      PresentRun(p1, es[1..], page);
      SameRightsTrans(EntryOf(p, page), EntryOf(p1, page), EntryOf(Runs.Run(p, es), page));
    }
  }

  lemma MarksStay(a: bv10, b: bv10, bits: bv10)
    requires FaultKind(bits) && a & bits == bits && (a & 0xc0) & b == a & 0xc0
    ensures b & bits == bits
  {
  }

  lemma MarkSets(f: bv10, bits: bv10)
    ensures (f | bits) & bits == bits
  {
  }

  /** Once a fault on a mapped page has been handled, the same fault on it changes nothing whenever the page is mapped
      again, whatever happens in between. */
  lemma SecondFaultNothing(p: P, e: Runs.Event, es: seq<Runs.Event>)
    requires PInv(p) && Granted(p) && Runs.Enabled(p, e) && !e.Store? && CheckAd(p.m, p.root, e.va).Place?
    ensures PInv(Runs.Apply(p, e))
    ensures var p1 := Runs.Run(Runs.Apply(p, e), es); CheckAd(p1.m, p1.root, e.va).Place? ==> Runs.Apply(p1, e) == p1
  {
    hide PInv, Granted, Runs.Apply, Runs.Run, Runs.Enabled, Present, At, CheckAd, IsValid, LinkOk, Canonical, Own, LeafSteps, LeafOf;
    var p0, page := Runs.Apply(p, e), PageOf(e.va);
    Runs.ApplyKeeps(p, e);
    ApplyGrants(p, e);
    EventMeans(p, e);
    FaultMarks(p, e);
    FaultMaps(p, e);
    ProperOf(p, e.va);
    PlaceProper(p, p0, e.va);
    MarkSets(EntryOf(p, e.va).flags, MarkOf(e));
    PresentRun(p0, es, page);
    var p1 := Runs.Run(p0, es);
    if CheckAd(p1.m, p1.root, e.va).Place? && Runs.Enabled(p1, e) {
      EventMeans(p1, e);
      LeavesSameOf(p1, e.va);
      MarksStay(EntryOf(p0, e.va).flags, EntryOf(p1, e.va).flags, MarkOf(e));
      FaultMarks(p1, e);
    } else if !Runs.Enabled(p1, e) {
      NotEnabled(p1, e);
    }
  }

  lemma PlaceProper(p: P, p0: P, va: nat)
    requires PInv(p) && Canonical(va) && Proper(p, PageOf(va)) && p0 == p.(m := p0.m) && LeafSteps(p, p0) && IsValid(EntryOf(p0, va))
    ensures Proper(p0, PageOf(va)) && Present(p0, PageOf(va)) && LeafAt(p0, PageOf(va)) == LeafAt(p0, va)
  {
    hide PInv, At, IsValid, LinkOk, Canonical, StepTo, LeafOf;
    LeavesSameOf(p0, va);
    ProperKept(p, p0, PageOf(va));
  }

  /** After two faults of one kind on an address of its own the process gets on: user code gets through there. */
  lemma GetsOn(p: P, e: Runs.Event)
    requires PInv(p) && Granted(p) && Rights(p.m, p.root) && Runs.Enabled(p, e) && !e.Store? && PageOf(e.va) != KERNEL_STACK_PAGE
    ensures PInv(Runs.Apply(p, e)) && Runs.Enabled(Runs.Apply(p, e), e)
    ensures var p2 := Runs.Apply(Runs.Apply(p, e), e);
      UserMay(p2.m, p2.root, e.va, Load) && UserMay(p2.m, p2.root, e.va, Fetch) && (e.StoreFault? ==> UserMay(p2.m, p2.root, e.va, Way.Store))
  {
    hide PInv, Granted, Rights, Runs.Apply, At, CheckAd, IsValid, LinkOk, Canonical, Own, LeafSteps, LeafOf, UserMay, NewPage, Steps;
    var p1 := Runs.Apply(p, e);
    Runs.ApplyKeeps(p, e);
    ApplyGrants(p, e);
    FaultMaps(p, e);
    EventMeans(p, e);
    StepApply(p, e);
    FaultMarks(p1, e);
    StepApply(p1, e);
    MarkSets(EntryOf(p1, e.va).flags, MarkOf(e));
    var p2 := Runs.Apply(p1, e);
    Runs.ApplyKeeps(p1, e);
    PInvMem(p2);
    MarkedBits(EntryOf(p2, e.va), MarkOf(e));
    FaultMaps(p1, e);
    EventMeans(p1, e);
    PInvMem(p2);
    UserMayHere(p2.m, p2, e.va, Load);
    UserMayHere(p2.m, p2, e.va, Fetch);
    UserMayHere(p2.m, p2, e.va, Way.Store);
  }

  lemma MarkedBits(e: Pte, bits: bv10)
    requires FaultKind(bits) && e.flags & bits == bits
    ensures e.flags & 0x40 != 0 && (bits == 0xc0 ==> e.flags & 0x80 != 0)
  {
  }

  /** A handled fault leaves its page mapped, so that the same fault can be handled again. */
  lemma FaultMaps(p: P, e: Runs.Event)
    requires PInv(p) && Runs.Enabled(p, e) && !e.Store? && PInv(Runs.Apply(p, e)) && Granted(p)
    ensures var p1 := Runs.Apply(p, e);
      IsValid(EntryOf(p1, e.va)) && CheckAd(p1.m, p1.root, e.va).Place? && Runs.Enabled(p1, e) && Own(p1.m, p1.root, e.va)
  {
    hide PInv, Granted, Fault, At, CheckAd, IsValid, LinkOk, Canonical, Inv, StepTo, NewPage;
    FaultBits();
    ApplySteps(p, e);
    match e {
      case LoadFault(va) => FaultKeeps(p, va, ACCESSED);
      case StoreFault(va) => FaultKeeps(p, va, ACCESSED | DIRTY);
    }
    var p1 := Runs.Apply(p, e);
    PInvMem(p1);
    CheckAdIs(p1.m, p1.root, e.va);
  }

  lemma StepApply(p: P, e: Runs.Event)
    requires PInv(p) && Granted(p) && Runs.Enabled(p, e) && Rights(p.m, p.root)
    ensures Rights(Runs.Apply(p, e).m, Runs.Apply(p, e).root) && Runs.Apply(p, e).root == p.root
  {
    hide PInv, Granted, Runs.Apply, Runs.Enabled, Rights, Steps, NewPage;
    ApplySteps(p, e);
    EventMeans(p, e);
    if !e.Store? && NewPage(p, e.va) {
      NewIsNoStack(p, e.va);
    }
    StepsRights(p, Runs.Apply(p, e), e.va, !e.Store? && NewPage(p, e.va));
    StepsRoot(p, Runs.Apply(p, e), e.va, !e.Store? && NewPage(p, e.va));
  }

  /** In every state reached from boot, two faults of one kind in a row let a process get on, wherever it may use memory:
      the first maps the page if need be, the second sets what the hardware asks for. */
  lemma ProcessGetsOn(s: Sys, es: seq<Event>, r: nat, e: Runs.Event)
    requires Start(s) && SInv(s) && Allowed(s, es) && Enabled(Run(s, es), Access(r, e)) && !e.Store? && PageOf(e.va) != KERNEL_STACK_PAGE
    ensures SInv(Apply(Run(s, es), Access(r, e))) && Enabled(Apply(Run(s, es), Access(r, e)), Access(r, e))
    ensures var t := Apply(Apply(Run(s, es), Access(r, e)), Access(r, e));
      UserMay(t.m, r, e.va, Load) && UserMay(t.m, r, e.va, Fetch) && (e.StoreFault? ==> UserMay(t.m, r, e.va, Way.Store))
  {
    hide PInv, Inv, RamOnly, KernelClean, SlotsOwned, Allowed, Run, Granted, Rights, Runs.Apply, Runs.Enabled, UserMay;
    StartRights(s);
    RunRights(s, es);
    var t := Run(s, es);
    VmSystem.ApplyKeeps(t, Access(r, e));
    assert ProcOk(t, r);
    GetsOn(Of(t, r), e);
    StepApply(Of(t, r), e);
    OfPut(t, Runs.Apply(Of(t, r), e));
    StepApplyAgain(Of(t, r), e);
    OfPut(Apply(t, Access(r, e)), Runs.Apply(Runs.Apply(Of(t, r), e), e));
  }

  lemma StepApplyAgain(p: P, e: Runs.Event)
    requires PInv(p) && Granted(p) && Runs.Enabled(p, e) && Rights(p.m, p.root) && PInv(Runs.Apply(p, e)) && Runs.Enabled(Runs.Apply(p, e), e)
    ensures Runs.Apply(Runs.Apply(p, e), e).root == p.root
  {
    hide PInv, Granted, Runs.Apply, Runs.Enabled, Rights;
    StepApply(p, e);
    ApplyGrants(p, e);
    StepApply(Runs.Apply(p, e), e);
  }
}
