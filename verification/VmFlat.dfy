/** What a process sees of memory, mapped pages that are never swapped included, and what a step of one process
    does to the memory of the others. */
module VmFlat {
  import opened VmMemory
  import opened VmMap
  import opened VmBoot
  import opened VmPaging
  import opened VmRuns
  import opened VmExec

  // ---------- The pages of a process ----------

  /** The address of a page that the process may use. */
  predicate Proper(p: P, page: nat) {
    Canonical(page) && page % PAGE_SIZE == 0 && Own(p.m, p.root, page)
  }

  /** page can be swapped: it is on the list, behind the stacks. */
  ghost predicate Lists(p: P, page: nat) {
    exists i :: 2 <= i < |p.plist| && p.plist[i].va == page
  }

  /** What the process finds at page: a page on the list, in memory or on disk, or one that is always mapped. */
  function Sees(p: P, page: nat): Contents {
    if View(p, page).Held? then View(p, page)
    else
      var e := EntryOf(p, page);
      if IsValid(e) && e.ppn in p.m.data then Held(p.m.data[e.ppn]) else Absent
  }

  /** A process maps memory only, no devices. */
  ghost predicate RamOnly(p: P) {
    forall page :: Proper(p, page) && IsValid(EntryOf(p, page)) ==> InRam(EntryOf(p, page).ppn)
  }

  lemma ListsView(p: P, page: nat)
    requires PInv(p)
    ensures View(p, page).Held? <==> Lists(p, page)
  {
    hide PInv, View, Holds;
    if Lists(p, page) {
      var i :| 2 <= i < |p.plist| && p.plist[i].va == page;
      ViewIs(p, i);
    }
    if View(p, page).Held? {
      var i := ViewFrom(p, page);
    }
  }

  /** The entry of page is the same page, with the same contents. */
  ghost predicate EntrySame(p: P, p1: P, page: nat) {
    var e, e1 := EntryOf(p, page), EntryOf(p1, page);
    && e1.ppn == e.ppn && (IsValid(e1) <==> IsValid(e))
    && (InRam(e.ppn) ==> e.ppn in p.m.data && e.ppn in p1.m.data && p1.m.data[e.ppn] == p.m.data[e.ppn])
  }

  /** A page off the list stays so, with its entry and its contents. */
  ghost predicate OffList(p: P, p1: P, page: nat) {
    !Lists(p, page) ==> !Lists(p1, page) && EntrySame(p, p1, page)
  }

  lemma OffListTrans(a: P, b: P, c: P, page: nat)
    requires OffList(a, b, page) && OffList(b, c, page)
    ensures OffList(a, c, page)
  {
    hide Lists, EntryOf, IsValid;
  }

  lemma OffListSelf(p: P, page: nat)
    requires PInv(p) && Proper(p, page)
    ensures OffList(p, p, page)
  {
    hide Stacks, Listed, Slots;
    if InRam(EntryOf(p, page).ppn) {
      RamKnown(p.m, EntryOf(p, page).ppn);
    }
  }

  /** Other pages than the one at va keep entry and frame. */
  lemma OnlyAtOther(p: P, p1: P, va: nat, page: nat)
    requires PInv(p) && OnlyAt(p, p1, va) && Canonical(va) && Proper(p, page) && PageOf(va) != page
    ensures EntryOf(p1, page) == EntryOf(p, page)
    ensures InRam(EntryOf(p, page).ppn) ==> Known(p.m, EntryOf(p, page).ppn) && Known(p1.m, EntryOf(p, page).ppn)
    ensures InRam(EntryOf(p, page).ppn) && Own(p.m, p.root, va) ==> EntryOf(p, page).ppn != EntryOf(p, va).ppn
  {
    hide Inv, At, LinkOk, Stacks, Listed, Slots, Node, IsValid, Canonical, PageNo, Vpn0, Vpn1, Vpn2, Known;
    AlignedPage(page);
    LeavesApart(p, va, page);
    OwnLinks(p.m, p.root, page);
    PtrAt(p.m, LeafAt(p, page));
    if InRam(EntryOf(p, page).ppn) {
      RamKnown(p.m, EntryOf(p, page).ppn);
      RamKnown(p1.m, EntryOf(p, page).ppn);
      if Own(p.m, p.root, va) && EntryOf(p, page).ppn == EntryOf(p, va).ppn {
        OwnLinks(p.m, p.root, va);
        PtrAt(p.m, LeafAt(p, va));
        OneTarget(p.m, LeafAt(p, page), LeafAt(p, va));
      }
    }
  }

  lemma ListedAt(p: P, i: nat)
    requires PInv(p) && i < |p.plist|
    ensures Proper(p, p.plist[i].va) && PageOf(p.plist[i].va) == p.plist[i].va
    ensures i >= 2 ==> PageOk(p, p.plist[i])
  {
    hide Inv, Stacks, Slots, PageOk, Canonical, Vpn2;
    AlignedPage(p.plist[i].va);
  }

  lemma SwapOutOff(p: P, v: nat, page: nat)
    requires PInv(p) && 2 <= v < |p.plist| && !p.plist[v].atds && Proper(p, page)
    requires CheckAd(p.m, p.root, p.plist[v].va).Place? && Known(p.m, CheckAd(p.m, p.root, p.plist[v].va).f) &&
      CheckAd(p.m, p.root, p.plist[v].va).i < ENTRIES && Known(p.m, p.plist[v].f)
    ensures OffList(p, SwapOut(p, v, CheckAd(p.m, p.root, p.plist[v].va)), page)
  {
    hide PInv, CheckAd, IsValid, Known, SwapOut, OnlyAt, Holds, Room, Canonical, Own, PageOk, EntryOf;
    if !Lists(p, page) {
      SwapOutKeeps(p, v);
      ListedAt(p, v);
      OnlyAtOther(p, SwapOut(p, v, CheckAd(p.m, p.root, p.plist[v].va)), p.plist[v].va, page);
      KnownIn(p.m, EntryOf(p, page).ppn);
    }
  }

  lemma DoSwapOff(p: P, page: nat)
    requires PInv(p) && Proper(p, page)
    ensures OffList(p, DoSwap(p).0, page)
  {
    hide PInv, CheckAd, IsValid, Known, SwapOut, Room, Canonical, Own, OffList, Proper;
    VictimKnown(p);
    VictimIsFirst(p);
    PlistTwo(p);
    OffListSelf(p, page);
    if |p.plist| > 2 && !p.plist[2].atds {
      VictimPlace(p, 2);
      SwapOutOff(p, 2, page);
    }
  }

  lemma SwapInOff(p: P, i: nat, page: nat)
    requires PInv(p) && 2 <= i < |p.plist| && p.plist[i].atds && Proper(p, page)
    ensures p.plist[i].pte.Place? && Known(p.m, p.plist[i].pte.f) && p.plist[i].pte.i < ENTRIES && OnDisk(p.disk, p.plist[i].block, PAGE_SECTORS)
    ensures OffList(p, SwapIn(p, i), page)
  {
    hide PInv, CheckAd, IsValid, Known, SwapIn, OnlyAt, Holds, Room, Canonical, OnDisk, Own, EntryOf, ReadSectors;
    SwapInKeeps(p, i);
    SwapInMemory(p, i);
    if !Lists(p, page) {
      ListedAt(p, i);
      var p1, x := SwapIn(p, i), p.plist[i];
      forall j | 2 <= j < |p1.plist|
        ensures p1.plist[j].va != page
      {
        assert p1.plist[j].va == p.plist[if j == |p.plist| - 1 then i else if j < i then j else j + 1].va;
      }
      OnlyAtOther(p, p1, x.va, page);
      ListedFrame(p, i);
      KnownIn(p.m, EntryOf(p, page).ppn);
    }
  }

  lemma ListedFrame(p: P, i: nat)
    requires PInv(p) && 2 <= i < |p.plist|
    ensures EntryOf(p, p.plist[i].va).ppn == p.plist[i].f && InRam(p.plist[i].f)
  {
    hide Inv, At, Stacks, Slots, IsValid;
    assert PageOk(p, p.plist[i]);
  }

  lemma AddPageOff(p: P, stval: nat, page: nat)
    requires PInv(p) && Fresh(p, stval) && Room(p.m) >= 3 && Proper(p, page) && PageOf(stval) != page
    ensures Known(p.m, p.root) && OffList(p, AddPage(p, stval), page)
  {
    hide PInv, IsValid, Known, AddPage, Room, Canonical, At, Fresh, LinkOk, Ptr, PageNo, Vpn0, Vpn1, Vpn2;
    AddPageMemory(p, stval);
    AddPageShape(p, stval);
    AddPageKeeps(p, stval);
    FreshMeans(p, stval);
    var p1 := AddPage(p, stval);
    AlignedPage(page);
    LeavesApart(p, stval, page);
    OwnLinks(p.m, p.root, page);
    PtrAt(p.m, LeafAt(p, page));
    KnownIn(p.m, EntryOf(p, page).ppn);
    KnownIn(p1.m, EntryOf(p, page).ppn);
  }

  lemma FreshMeans(p: P, stval: nat)
    requires Fresh(p, stval)
    ensures Canonical(stval) && Own(p.m, p.root, stval)
  {
  }

  lemma SetAccessOff(p: P, stval: nat, bits: bv10, page: nat)
    requires PInv(p) && Canonical(stval) && Own(p.m, p.root, stval) && CheckAd(p.m, p.root, stval).Place? && bits & PRESENT == 0 && Proper(p, page)
    ensures Known(p.m, CheckAd(p.m, p.root, stval).f) && CheckAd(p.m, p.root, stval).i < ENTRIES
    ensures OffList(p, SetAccess(p, CheckAd(p.m, p.root, stval), bits), page)
  {
    hide PInv, IsValid, Known, Room, Canonical, Own, At, LinkOk, Ptr, PageNo, Vpn0, Vpn1, Vpn2, CheckAd, OnlyAt, OffList, Proper;
    SetAccessMemory(p, stval, bits);
    var p1 := SetAccess(p, CheckAd(p.m, p.root, stval), bits);
    OffListSelf(p, page);
    if PageOf(stval) == page {
      LeavesSameOf(p, stval);
    } else {
      OnlyAtOther(p, p1, stval, page);
    }
    OffListEntry(p, p1, page);
  }

  lemma OffListEntry(p: P, p1: P, page: nat)
    requires OffList(p, p, page) && p1.plist == p.plist && p1.m.data == p.m.data
    requires EntryOf(p1, page).ppn == EntryOf(p, page).ppn && (IsValid(EntryOf(p1, page)) <==> IsValid(EntryOf(p, page)))
    ensures OffList(p, p1, page)
  {
    hide EntryOf, IsValid;
  }

  // ---------- One step of a process, as it sees it ----------

  /** Flat memory: a fault makes a page that is not there a page of zeros, a store changes one byte. */
  function Flat(c: Contents, e: Event, page: nat): Contents {
    if PageOf(e.va) != page then c
    else
      match e
      case LoadFault(_) => if c.Absent? then Held(BlankPage()) else c
      case StoreFault(_) => if c.Absent? then Held(BlankPage()) else c
      case Store(va, b) => if c.Held? && |c.bytes| == PAGE_SIZE then Held(c.bytes[va % PAGE_SIZE := b]) else c
  }

  lemma ProperKept(p: P, p1: P, page: nat)
    requires Proper(p, page) && p1.root == p.root && p1.m.roots == p.m.roots && p1.m.shared == p.m.shared
    ensures Proper(p1, page)
  {
  }

  /** The fault is for a page seen for the first time. */
  predicate NewPage(p: P, stval: nat) {
    CheckAd(p.m, p.root, stval).Nowhere? && FindSwapped(p.plist, PageOf(stval)) == |p.plist|
  }

  lemma SwapPathOff(p: P, i: nat, page: nat)
    requires PInv(p) && 2 <= i < |p.plist| && p.plist[i].atds && Proper(p, page)
    ensures p.plist[i].pte.Place? && Known(p.m, p.plist[i].pte.f) && p.plist[i].pte.i < ENTRIES && OnDisk(p.disk, p.plist[i].block, PAGE_SECTORS)
    ensures PInv(SwapIn(p, i)) && OffList(p, SwapIn(p, i), page) && OffList(p, DoSwap(SwapIn(p, i)).0, page)
  {
    hide PInv, Holds, SwapIn, DoSwap, Known, Room, OnDisk, OffList, Proper, OnlyAt, PageOk;
    SwapInOff(p, i, page);
    SwapInKeeps(p, i);
    OnlyAtMeans(p, SwapIn(p, i), p.plist[i].va);
    ProperKept(p, SwapIn(p, i), page);
    DoSwapOff(SwapIn(p, i), page);
    OffListTrans(p, SwapIn(p, i), DoSwap(SwapIn(p, i)).0, page);
  }

  /** A handled fault touches no page that cannot be swapped. */
  lemma FaultOff(p: P, stval: nat, bits: bv10, page: nat)
    requires PInv(p) && Canonical(stval) && Own(p.m, p.root, stval) && Served(p, stval) && bits & PRESENT == 0 && Proper(p, page)
    ensures !(NewPage(p, stval) && PageOf(stval) == page) ==> OffList(p, Fault(p, stval, bits), page)
  {
    hide PInv, Holds, View, DoSwap, SwapIn, AddPage, SetAccess, IsValid, At, CheckAd, Known, OnDisk, OnlyAt, Room, FindSwapped, Fresh, Canonical, Own, OffList, Proper;
    if CheckAd(p.m, p.root, stval).Place? {
      SetAccessOff(p, stval, bits, page);
    } else {
      FaultFinds(p, stval);
      FindSwappedIs(p.plist, PageOf(stval));
      var i := FindSwapped(p.plist, PageOf(stval));
      if i < |p.plist| {
        SwapPathOff(p, i, page);
      } else if PageOf(stval) != page {
        DoSwapKeeps(p);
        DoSwapOff(p, page);
        FreshAfterSwap(p, stval);
        var p1 := if p.pnum >= MAX_RESIDENT then DoSwap(p).0 else p;
        OffListSelf(p, page);
        ProperKept(p, p1, page);
        AddPageOff(p1, stval, page);
        OffListTrans(p, p1, AddPage(p1, stval), page);
      }
    }
  }

  lemma OffListSees(p: P, p1: P, page: nat)
    requires PInv(p) && PInv(p1) && RamOnly(p) && Proper(p, page) && !Lists(p, page) && OffList(p, p1, page)
    ensures Sees(p1, page) == Sees(p, page)
    ensures IsValid(EntryOf(p, page)) ==> Sees(p, page).Held?
  {
    hide PInv, View, IsValid, Proper, Lists, At;
    ListsView(p, page);
    ListsView(p1, page);
  }

  lemma NewPageSees(p: P, stval: nat)
    requires PInv(p) && Canonical(stval) && Own(p.m, p.root, stval) && NewPage(p, stval)
    ensures !Lists(p, PageOf(stval)) && Sees(p, PageOf(stval)).Absent?
  {
    hide PInv, View, IsValid, CheckAd, Canonical, Own, FindSwapped, Lists, At;
    FaultFinds(p, stval);
    LeavesSameOf(p, stval);
    FreshOff(p, stval);
    ListsView(p, PageOf(stval));
  }

  lemma FreshOff(p: P, stval: nat)
    requires Fresh(p, stval)
    ensures !Lists(p, PageOf(stval))
  {
    hide IsValid, At;
  }

  /** A fault on a page that is mapped or on disk finds it there. */
  lemma KnownPageSees(p: P, stval: nat)
    requires PInv(p) && RamOnly(p) && Canonical(stval) && Own(p.m, p.root, stval) && !NewPage(p, stval)
    ensures Sees(p, PageOf(stval)).Held?
  {
    hide PInv, View, IsValid, CheckAd, Canonical, Own, FindSwapped, Lists, At, Stacks, Listed, Slots;
    FindSwappedIs(p.plist, PageOf(stval));
    ProperOf(p, stval);
    ListsView(p, PageOf(stval));
    if CheckAd(p.m, p.root, stval).Place? {
      PInvMem(p);
      CheckAdIs(p.m, p.root, stval);
      LeavesSameOf(p, stval);
      OffListSelf(p, PageOf(stval));
      if !Lists(p, PageOf(stval)) {
        OffListSees(p, p, PageOf(stval));
      }
    } else {
      FaultFinds(p, stval);
      ListsAt(p, FindSwapped(p.plist, PageOf(stval)));
    }
  }

  lemma ListsAt(p: P, i: nat)
    requires 2 <= i < |p.plist|
    ensures Lists(p, p.plist[i].va)
  {
  }

  lemma PInvMem(p: P)
    requires PInv(p)
    ensures Inv(p.m) && p.root in p.m.roots
  {
  }

  lemma ProperOf(p: P, stval: nat)
    requires Canonical(stval) && Own(p.m, p.root, stval)
    ensures Proper(p, PageOf(stval))
  {
    hide Canonical;
    CanonicalOf(stval);
    LeavesSameOf(p, stval);
  }

  /** The fault handlers leave each page as the process sees it, and give it a zeroed page where there was none. */
  lemma FaultSees(p: P, stval: nat, bits: bv10, page: nat)
    requires PInv(p) && RamOnly(p) && Canonical(stval) && Own(p.m, p.root, stval) && Served(p, stval) && bits & PRESENT == 0 && Proper(p, page)
    ensures PInv(Fault(p, stval, bits))
    ensures Sees(Fault(p, stval, bits), page) ==
      if PageOf(stval) == page && Sees(p, page).Absent? then Held(BlankPage()) else Sees(p, page)
    ensures Lists(Fault(p, stval, bits), page) || (!Lists(p, page) && OffList(p, Fault(p, stval, bits), page))
  {
    hide PInv, Fault, Holds, View, IsValid, At, CheckAd, Known, Room, SameView, Canonical, Own, OffList, Proper, Lists, NewPage, RamOnly;
    var p1 := Fault(p, stval, bits);
    FaultKeeps(p, stval, bits);
    SameViewMeans(p, p1);
    FaultOff(p, stval, bits, page);
    ListsView(p, page);
    ListsView(p1, page);
    if NewPage(p, stval) && PageOf(stval) == page {
      NewPageSees(p, stval);
      NewPageMeans(p, stval);
    } else {
      if PageOf(stval) == page {
        KnownPageSees(p, stval);
      }
      if !Lists(p, page) {
        OffListSees(p, p1, page);
      }
    }
  }

  lemma NewPageMeans(p: P, stval: nat)
    requires NewPage(p, stval)
    ensures CheckAd(p.m, p.root, stval).Nowhere?
  {
  }

  lemma RamOnlyBy(p: P, p1: P)
    requires PInv(p1) && RamOnly(p) && p1.root == p.root && p1.m.roots == p.m.roots && p1.m.shared == p.m.shared
    requires forall page :: Proper(p, page) ==> Lists(p1, page) || (!Lists(p, page) && OffList(p, p1, page))
    ensures RamOnly(p1)
  {
    hide PInv, IsValid, At, Canonical, Vpn2;
    forall page | Proper(p1, page) && IsValid(EntryOf(p1, page))
      ensures InRam(EntryOf(p1, page).ppn)
    {
      assert Proper(p, page);
      if Lists(p1, page) {
        var i :| 2 <= i < |p1.plist| && p1.plist[i].va == page;
        ListedFrame(p1, i);
      }
    }
  }

  lemma FaultRoots(p: P, stval: nat, bits: bv10)
    requires PInv(p) && Canonical(stval) && Own(p.m, p.root, stval) && Served(p, stval) && bits & PRESENT == 0
    ensures (var p1 := Fault(p, stval, bits); p1.root == p.root && p1.m.roots == p.m.roots && p1.m.shared == p.m.shared)
  {
    hide PInv, DoSwap, SwapIn, AddPage, SetAccess, CheckAd, Known, OnDisk, OnlyAt, Room, FindSwapped, Fresh, Canonical, Own, Holds, View, At, IsValid;
    if CheckAd(p.m, p.root, stval).Place? {
      SetAccessMemory(p, stval, bits);
      OnlyAtMeans(p, Fault(p, stval, bits), stval);
    } else {
      FaultFinds(p, stval);
      FindSwappedIs(p.plist, PageOf(stval));
      var i := FindSwapped(p.plist, PageOf(stval));
      if i < |p.plist| {
        SwapInKeeps(p, i);
        OnlyAtMeans(p, SwapIn(p, i), p.plist[i].va);
        DoSwapKeeps(SwapIn(p, i));
      } else {
        DoSwapKeeps(p);
        FreshAfterSwap(p, stval);
        var p1 := if p.pnum >= MAX_RESIDENT then DoSwap(p).0 else p;
        AddPageNew(p1, stval);
        RootIsKnown(p1);
        AddPageShape(p1, stval);
      }
    }
  }

  /** A store changes one byte of the page it goes to and nothing else that the process sees. */
  lemma PutSees(p: P, va: nat, b: byte, page: nat)
    requires PInv(p) && Canonical(va) && Own(p.m, p.root, va) && InRam(EntryOf(p, va).ppn) && IsValid(EntryOf(p, va)) && Proper(p, page) && RamOnly(p)
    ensures Known(p.m, EntryOf(p, va).ppn) && PInv(Put(p, va, b))
    ensures Sees(Put(p, va, b), page) == Flat(Sees(p, page), Store(va, b), page)
    ensures Lists(Put(p, va, b), page) <==> Lists(p, page)
    ensures EntryOf(Put(p, va, b), page) == EntryOf(p, page)
  {
    hide PInv, IsValid, At, Canonical, Vpn0, Vpn1, Vpn2, Known, PageNo, Holds, View, LinkOk, Ptr;
    PutMemory(p, va, b);
    PutKeeps(p, va, b);
    OwnLinks(p.m, p.root, page);
    ListsView(p, page);
    ListsView(Put(p, va, b), page);
    if Lists(p, page) {
      PutView(p, va, b, page);
    } else {
      PutOff(p, va, b, page);
    }
  }

  lemma PutOff(p: P, va: nat, b: byte, page: nat)
    requires PInv(p) && Canonical(va) && Own(p.m, p.root, va) && InRam(EntryOf(p, va).ppn) && IsValid(EntryOf(p, va)) && Proper(p, page) && RamOnly(p)
    requires Known(p.m, EntryOf(p, va).ppn) && EntryOf(Put(p, va, b), page) == EntryOf(p, page) && View(p, page).Absent? && View(Put(p, va, b), page).Absent?
    ensures Sees(Put(p, va, b), page) == Flat(Sees(p, page), Store(va, b), page)
  {
    hide Inv, IsValid, At, Canonical, Vpn0, Vpn1, Vpn2, PageNo, Holds, View, LinkOk, Stacks, Listed, Slots;
    AlignedPage(page);
    if PageOf(va) == page {
      LeavesSameOf(p, va);
    } else if IsValid(EntryOf(p, page)) {
      LeavesApart(p, va, page);
      OwnLinks(p.m, p.root, page);
      OwnLinks(p.m, p.root, va);
      PtrAt(p.m, LeafAt(p, page));
      PtrAt(p.m, LeafAt(p, va));
      if EntryOf(p, page).ppn == EntryOf(p, va).ppn {
        OneTarget(p.m, LeafAt(p, page), LeafAt(p, va));
      }
    }
  }

  /** Each step of a process is a step of flat memory, whatever goes to disk or comes back on the way. */
  lemma ApplySees(p: P, e: Event, page: nat)
    requires PInv(p) && RamOnly(p) && Enabled(p, e) && Proper(p, page)
    ensures PInv(Apply(p, e)) && Sees(Apply(p, e), page) == Flat(Sees(p, page), e, page)
  {
    hide PInv, Fault, IsValid, At, CheckAd, Canonical, Own, Known, Sees, RamOnly, Served, Proper, OffList, Lists;
    FaultBits();
    match e
    case LoadFault(va) => FaultSees(p, va, ACCESSED, page);
    case StoreFault(va) => FaultSees(p, va, ACCESSED | DIRTY, page);
    case Store(va, b) =>
      StoreValid(p, va);
      PutSees(p, va, b, page);
  }

  lemma ApplyRamOnly(p: P, e: Event)
    requires PInv(p) && RamOnly(p) && Enabled(p, e)
    ensures PInv(Apply(p, e)) && RamOnly(Apply(p, e))
  {
    hide PInv, Fault, IsValid, At, CheckAd, Canonical, Own, Known, Sees, Served, Proper, OffList, Lists, RamOnly;
    FaultBits();
    match e
    case LoadFault(va) => FaultRamOnly(p, va, ACCESSED);
    case StoreFault(va) => FaultRamOnly(p, va, ACCESSED | DIRTY);
    case Store(va, b) =>
      StoreValid(p, va);
      PutKeeps(p, va, b);
      PutRamOnly(p, va, b);
  }

  lemma FaultRamOnly(p: P, stval: nat, bits: bv10)
    requires PInv(p) && RamOnly(p) && Canonical(stval) && Own(p.m, p.root, stval) && Served(p, stval) && bits & PRESENT == 0
    ensures PInv(Fault(p, stval, bits)) && RamOnly(Fault(p, stval, bits))
  {
    hide PInv, Fault, IsValid, At, CheckAd, Canonical, Own, Known, Sees, Served, Proper, OffList, Lists, RamOnly, Holds, View;
    FaultKeeps(p, stval, bits);
    FaultRoots(p, stval, bits);
    forall page | Proper(p, page)
      ensures Lists(Fault(p, stval, bits), page) || (!Lists(p, page) && OffList(p, Fault(p, stval, bits), page))
    {
      FaultSees(p, stval, bits, page);
    }
    RamOnlyBy(p, Fault(p, stval, bits));
  }

  lemma PutRamOnly(p: P, va: nat, b: byte)
    requires PInv(p) && RamOnly(p) && Canonical(va) && Own(p.m, p.root, va) && InRam(EntryOf(p, va).ppn) && IsValid(EntryOf(p, va))
    ensures Known(p.m, EntryOf(p, va).ppn) && RamOnly(Put(p, va, b))
  {
    hide PInv, IsValid, At, Canonical, Vpn2, Known;
    PutMemory(p, va, b);
    forall page | Proper(Put(p, va, b), page)
      ensures EntryOf(Put(p, va, b), page) == EntryOf(p, page) && Proper(p, page)
    {
      assert Proper(p, page);
      PutSees(p, va, b, page);
    }
  }

  // ---------- What a step leaves to the other processes ----------

  predicate DiskKept(p: P, p1: P) {
    forall k: nat :: k < p.swapBlock && k in p.disk ==> k in p1.disk && p1.disk[k] == p.disk[k]
  }

  /** The disk slot is in use by a page of this list. */
  ghost predicate HasSlot(s: seq<Page>, b: nat) {
    exists i :: 2 <= i < |s| && s[i].atds && s[i].block == b
  }

  ghost predicate NewSlots(p: P, p1: P) {
    forall b: nat :: HasSlot(p1.plist, b) ==> HasSlot(p.plist, b) || p.swapBlock <= b
  }

  /** Memory changed for the process alone, and the disk from the next free slot on. */
  ghost predicate Private(p: P, p1: P) {
    && p1.root == p.root && p1.m.roots == p.m.roots && Apart(p.m, p1.m, p.root)
    && p.swapBlock <= p1.swapBlock && DiskKept(p, p1) && NewSlots(p, p1)
  }

  lemma PrivateTrans(a: P, b: P, c: P)
    requires Private(a, b) && Private(b, c)
    ensures Private(a, c)
  {
    hide Apart, HasSlot;
    ApartTrans(a.m, b.m, c.m, a.root);
  }

  lemma PrivateSelf(p: P)
    requires PInv(p)
    ensures Private(p, p)
  {
    hide Apart, HasSlot, Inv;
    ApartSelf(p.m, p.root);
  }

  /** Setting one leaf entry of r, and the contents of the page it leads to, is r's own affair. */
  lemma OnlyAtApart(p: P, p1: P, va: nat)
    requires PInv(p) && OnlyAt(p, p1, va) && Own(p.m, p.root, va)
    requires forall f :: f in p.m.data && f != EntryOf(p, va).ppn ==> f in p1.m.data && p1.m.data[f] == p.m.data[f]
    requires InRam(EntryOf(p, va).ppn) || p1.m.data == p.m.data
    ensures Apart(p.m, p1.m, p.root)
  {
    hide Inv, At, LinkOk, Stacks, Listed, Slots, Node, Known, Vpn0, Vpn1, Vpn2;
    OwnLinks(p.m, p.root, va);
    SameLinks(p.m, p1.m);
    PtrAt(p.m, LeafAt(p, va));
    forall x | LinkOk(p.m, x) && x.r != p.root
      ensures PageSame(p.m, p1.m, x)
    {
      if InRam(Ptr(p.m, x)) {
        RamKnown(p.m, Ptr(p.m, x));
        RamKnown(p1.m, Ptr(p.m, x));
        KnownIn(p.m, Ptr(p.m, x));
        if Ptr(p.m, x) == EntryOf(p, va).ppn {
          OneTarget(p.m, x, LeafAt(p, va));
        }
      }
    }
  }

  lemma DoSwapPrivate(p: P)
    requires PInv(p)
    ensures Private(p, DoSwap(p).0)
  {
    hide PInv, CheckAd, IsValid, Known, SwapOut, Room, Own, Private, EntryOf, PageOk;
    VictimKnown(p);
    VictimIsFirst(p);
    PlistTwo(p);
    PrivateSelf(p);
    if |p.plist| > 2 && !p.plist[2].atds {
      VictimPlace(p, 2);
      SwapOutPrivate(p, 2);
    }
  }

  lemma SwapOutPrivate(p: P, v: nat)
    requires PInv(p) && 2 <= v < |p.plist| && !p.plist[v].atds
    ensures CheckAd(p.m, p.root, p.plist[v].va).Place? && Known(p.m, CheckAd(p.m, p.root, p.plist[v].va).f) &&
      CheckAd(p.m, p.root, p.plist[v].va).i < ENTRIES && Known(p.m, p.plist[v].f)
    ensures Private(p, SwapOut(p, v, CheckAd(p.m, p.root, p.plist[v].va)))
  {
    hide PInv, CheckAd, IsValid, Known, Room, Own, EntryOf, PageOk, Apart, OnlyAt, WriteSectors, Holds, SetEntry, Entry;
    SwapOutKeeps(p, v);
    ListedAt(p, v);
    var p1 := SwapOut(p, v, CheckAd(p.m, p.root, p.plist[v].va));
    OnlyAtApart(p, p1, p.plist[v].va);
    OnlyAtMeans(p, p1, p.plist[v].va);
    KnownSize(p.m, p.plist[v].f);
    forall k: nat | k < p.swapBlock && k in p.disk
      ensures k in p1.disk && p1.disk[k] == p.disk[k]
    {
      WriteElsewhere(p.disk, p.swapBlock, p.m.data[p.plist[v].f], PAGE_SECTORS, k);
    }
    forall b: nat | HasSlot(p1.plist, b) && b < p.swapBlock
      ensures HasSlot(p.plist, b)
    {
      var i :| 2 <= i < |p1.plist| && p1.plist[i].atds && p1.plist[i].block == b;
      assert i != v && p.plist[i] == p1.plist[i];
    }
  }

  lemma SwapInPrivate(p: P, i: nat)
    requires PInv(p) && 2 <= i < |p.plist| && p.plist[i].atds
    ensures p.plist[i].pte.Place? && Known(p.m, p.plist[i].pte.f) && p.plist[i].pte.i < ENTRIES && OnDisk(p.disk, p.plist[i].block, PAGE_SECTORS)
    ensures Private(p, SwapIn(p, i))
  {
    hide PInv, CheckAd, IsValid, Known, Room, Own, EntryOf, PageOk, Apart, OnlyAt, ReadSectors, OnDisk, Holds, SetEntry, Entry;
    SwapInKeeps(p, i);
    SwapInMemory(p, i);
    ListedAt(p, i);
    ListedFrame(p, i);
    var p1 := SwapIn(p, i);
    OnlyAtApart(p, p1, p.plist[i].va);
    OnlyAtMeans(p, p1, p.plist[i].va);
    forall b: nat | HasSlot(p1.plist, b)
      ensures HasSlot(p.plist, b)
    {
      var j :| 2 <= j < |p1.plist| && p1.plist[j].atds && p1.plist[j].block == b;
      assert p1.plist[j] == p.plist[if j < i then j else j + 1];
    }
  }

  lemma AddPagePrivate(p: P, stval: nat)
    requires PInv(p) && Fresh(p, stval) && Room(p.m) >= 3
    ensures Known(p.m, p.root) && Private(p, AddPage(p, stval))
  {
    hide PInv, IsValid, Known, Room, Own, EntryOf, PageOk, Apart, AddPage, MapPage, Canonical, Fresh, Holds;
    FreshMeans(p, stval);
    PInvMem(p);
    MapApart(p.m, p.root, stval, 1);
    AddPageShape(p, stval);
    AddPageNew(p, stval);
    AddPageMap(p, stval);
    var p1 := AddPage(p, stval);
    forall b: nat | HasSlot(p1.plist, b)
      ensures HasSlot(p.plist, b)
    {
      var j :| 2 <= j < |p1.plist| && p1.plist[j].atds && p1.plist[j].block == b;
      assert p1.plist[j] == p.plist[j];
    }
  }

  lemma AddPageMap(p: P, stval: nat)
    requires Room(p.m) >= 3 && Known(p.m, p.root)
    ensures AddPage(p, stval).m == MapPage(p.m, p.root, stval, 1).0
  {
  }

  lemma SetAccessPrivate(p: P, stval: nat, bits: bv10)
    requires PInv(p) && Own(p.m, p.root, stval) && CheckAd(p.m, p.root, stval).Place? && bits & PRESENT == 0
    ensures Known(p.m, CheckAd(p.m, p.root, stval).f) && CheckAd(p.m, p.root, stval).i < ENTRIES
    ensures Private(p, SetAccess(p, CheckAd(p.m, p.root, stval), bits))
  {
    hide PInv, IsValid, Known, Room, Own, EntryOf, CheckAd, Apart, OnlyAt, SetEntry, Entry, HasSlot;
    SetAccessMemory(p, stval, bits);
    var p1 := SetAccess(p, CheckAd(p.m, p.root, stval), bits);
    OnlyAtApart(p, p1, stval);
    OnlyAtMeans(p, p1, stval);
  }

  lemma FaultPrivate(p: P, stval: nat, bits: bv10)
    requires PInv(p) && Canonical(stval) && Own(p.m, p.root, stval) && Served(p, stval) && bits & PRESENT == 0
    ensures Private(p, Fault(p, stval, bits))
  {
    hide PInv, DoSwap, SwapIn, AddPage, SetAccess, CheckAd, Known, OnDisk, OnlyAt, Room, FindSwapped, Fresh, Canonical, Own, Holds, View, At, IsValid, Private;
    if CheckAd(p.m, p.root, stval).Place? {
      SetAccessPrivate(p, stval, bits);
    } else {
      FaultFinds(p, stval);
      FindSwappedIs(p.plist, PageOf(stval));
      var i := FindSwapped(p.plist, PageOf(stval));
      if i < |p.plist| {
        SwapInPrivate(p, i);
        SwapInKeeps(p, i);
        DoSwapPrivate(SwapIn(p, i));
        PrivateTrans(p, SwapIn(p, i), DoSwap(SwapIn(p, i)).0);
      } else {
        DoSwapKeeps(p);
        DoSwapPrivate(p);
        PrivateSelf(p);
        FreshAfterSwap(p, stval);
        var p1 := if p.pnum >= MAX_RESIDENT then DoSwap(p).0 else p;
        AddPagePrivate(p1, stval);
        PrivateTrans(p, p1, AddPage(p1, stval));
      }
    }
  }

  lemma PutPrivate(p: P, va: nat, b: byte)
    requires PInv(p) && Canonical(va) && Own(p.m, p.root, va) && InRam(EntryOf(p, va).ppn) && IsValid(EntryOf(p, va))
    ensures Known(p.m, EntryOf(p, va).ppn) && Private(p, Put(p, va, b))
  {
    hide PInv, IsValid, Known, At, LinkOk, Apart, HasSlot, Node, OnlyAt;
    PutMemory(p, va, b);
    PutOnlyAt(p, va, b);
    OnlyAtApart(p, Put(p, va, b), va);
  }

  lemma PutOnlyAt(p: P, va: nat, b: byte)
    requires PInv(p) && Own(p.m, p.root, va) && InRam(EntryOf(p, va).ppn)
    ensures Known(p.m, EntryOf(p, va).ppn) && OnlyAt(p, Put(p, va, b), va)
  {
    hide PInv, IsValid, Known, At, LinkOk, Node;
    PutMemory(p, va, b);
  }

  lemma ApplyPrivate(p: P, e: Event)
    requires PInv(p) && Enabled(p, e)
    ensures PInv(Apply(p, e)) && Private(p, Apply(p, e))
  {
    hide PInv, Fault, IsValid, At, CheckAd, Canonical, Own, Known, Served, Private, View;
    FaultBits();
    ApplyKeeps(p, e);
    match e
    case LoadFault(va) => FaultPrivate(p, va, ACCESSED);
    case StoreFault(va) => FaultPrivate(p, va, ACCESSED | DIRTY);
    case Store(va, b) =>
      StoreValid(p, va);
      PutPrivate(p, va, b);
  }

  // ---------- A process that does not take the step ----------

  /** Memory and disk changed, and nothing of it concerns q. */
  ghost predicate Undisturbed(q: P, q1: P) {
    && q1 == q.(m := q1.m, disk := q1.disk, swapBlock := q1.swapBlock)
    && Inv(q1.m) && q.root in q1.m.roots && q1.m.shared == q.m.shared
    && q.swapBlock <= q1.swapBlock && q1.swapBlock % PAGE_SECTORS == 0 && DiskKept(q, q1)
    && forall x :: LinkOk(q.m, x) && x.r == q.root ==> At(q1.m, x) == At(q.m, x) && PageSame(q.m, q1.m, x)
  }

  lemma NodeStays(m: M, m1: M, x: Link)
    requires Inv(m) && Inv(m1) && LinkOk(m, x) && x.Leaf? && x.r in m1.roots
    requires forall y :: LinkOk(m, y) && y.r == x.r ==> At(m1, y) == At(m, y)
    ensures Node(m1, x) == Node(m, x)
  {
    hide Inv, At, LinkOk;
    AboveOk(m, x);
    LinkRoot(m, x);
    NodeAbove(m, x);
    NodeAbove(m1, x);
    PtrAt(m, Above(x));
    PtrAt(m1, Above(x));
  }

  lemma UndisturbedPage(q: P, q1: P, page: nat)
    requires PInv(q) && Undisturbed(q, q1) && Own(q.m, q.root, page)
    ensures EntryOf(q1, page) == EntryOf(q, page) && Node(q1.m, LeafAt(q, page)) == Node(q.m, LeafAt(q, page))
    ensures Own(q1.m, q1.root, page) && PageSame(q.m, q1.m, LeafAt(q, page)) && Ptr(q.m, LeafAt(q, page)) == EntryOf(q, page).ppn
  {
    hide Inv, At, LinkOk, Stacks, Listed, Slots, Known, Node, Vpn0, Vpn1, Vpn2;
    OwnLinks(q.m, q.root, page);
    NodeStays(q.m, q1.m, LeafAt(q, page));
    PtrAt(q.m, LeafAt(q, page));
  }

  lemma UndisturbedAt(q: P, q1: P, i: nat)
    requires PInv(q) && Undisturbed(q, q1) && i < |q.plist|
    ensures EntryOf(q1, q.plist[i].va) == EntryOf(q, q.plist[i].va) && Own(q1.m, q1.root, q.plist[i].va)
    ensures i >= 2 ==> PageOk(q1, q.plist[i]) && Holds(q1, q.plist[i]) == Holds(q, q.plist[i])
  {
    hide Inv, At, LinkOk, Stacks, Slots, Node, Canonical, IsValid, Vpn0, Vpn1, Vpn2;
    ListedAt(q, i);
    UndisturbedPage(q, q1, q.plist[i].va);
    if i >= 2 {
      PageKept(q, q1, q.plist[i]);
    }
  }

  /** What one process does leaves the list of another in order, and everything that other sees. */
  lemma UndisturbedKeeps(q: P, q1: P)
    requires PInv(q) && Undisturbed(q, q1)
    ensures PInv(q1)
    ensures forall page :: View(q1, page) == View(q, page)
  {
    hide Inv, At, LinkOk, Node, Canonical, IsValid, PageOk, Holds, Vpn2, PageSame;
    forall i | 0 <= i < |q.plist|
      ensures EntryOf(q1, q.plist[i].va) == EntryOf(q, q.plist[i].va) && Own(q1.m, q1.root, q.plist[i].va)
      ensures i >= 2 ==> PageOk(q1, q.plist[i]) && Holds(q1, q.plist[i]) == Holds(q, q.plist[i])
    {
      UndisturbedAt(q, q1, i);
    }
  }

  lemma UndisturbedSees(q: P, q1: P, page: nat)
    requires PInv(q) && RamOnly(q) && Undisturbed(q, q1) && Proper(q, page)
    ensures Sees(q1, page) == Sees(q, page)
  {
    hide PInv, At, LinkOk, Node, Canonical, IsValid, Own, View, Ptr;
    UndisturbedKeeps(q, q1);
    UndisturbedPage(q, q1, page);
  }

  lemma UndisturbedRam(q: P, q1: P)
    requires PInv(q) && RamOnly(q) && Undisturbed(q, q1)
    ensures RamOnly(q1)
  {
    hide PInv, At, LinkOk, Node, Canonical, IsValid, View, Ptr, PageSame, Vpn2, Inv;
    forall page | Proper(q1, page) && IsValid(EntryOf(q1, page))
      ensures InRam(EntryOf(q1, page).ppn)
    {
      PInvMem(q);
      assert Proper(q, page);
      UndisturbedPage(q, q1, page);
    }
  }
}
