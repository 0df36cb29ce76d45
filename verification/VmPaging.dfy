/** Demand paging of one process: its list of pages, the pages swapped to disk, and the fault handlers. */
module VmPaging {
  import opened VmMemory
  import opened VmMap

  const SECTOR := 512
  const SWAP_START := 10000
  const PAGE_SECTORS := 8
  const MAX_RESIDENT := 4
  const KERNEL_STACK_PAGE := 0xffff_ffc0_00ff_f000
  const USER_STACK_PAGE := 0xf_0000_f000

  // ---------- Pages on disk ----------

  type Disk = map<nat, seq<byte>>

  /** The first n sectors of page bytes, from sector b on. */
  function WriteSectors(d: Disk, b: nat, bytes: seq<byte>, n: nat): (r: Disk)
    requires SECTOR * n <= |bytes|
    decreases n
  {
    if n == 0 then d else WriteSectors(d, b, bytes, n - 1)[b + n - 1 := bytes[SECTOR * (n - 1)..SECTOR * n]]
  }

  predicate OnDisk(d: Disk, b: nat, n: nat) {
    forall k: nat :: b <= k < b + n ==> k in d && |d[k]| == SECTOR
  }

  function ReadSectors(d: Disk, b: nat, n: nat): (r: seq<byte>)
    requires OnDisk(d, b, n)
    ensures |r| == SECTOR * n
    decreases n
  {
    if n == 0 then [] else ReadSectors(d, b, n - 1) + d[b + n - 1]
  }

  lemma {:induction false} WriteElsewhere(d: Disk, b: nat, bytes: seq<byte>, n: nat, k: nat)
    requires SECTOR * n <= |bytes| && (k < b || b + n <= k)
    ensures k in WriteSectors(d, b, bytes, n) <==> k in d
    ensures k in d ==> WriteSectors(d, b, bytes, n)[k] == d[k]
    decreases n
  {
    if n > 0 {
      WriteElsewhere(d, b, bytes, n - 1, k);
    }
  }

  /** What was written is read back. */
  lemma {:induction false} SectorsRoundTrip(d: Disk, b: nat, bytes: seq<byte>, n: nat)
    requires SECTOR * n <= |bytes|
    ensures OnDisk(WriteSectors(d, b, bytes, n), b, n) && ReadSectors(WriteSectors(d, b, bytes, n), b, n) == bytes[..SECTOR * n]
    decreases n
  {
    if n > 0 {
      var d1 := WriteSectors(d, b, bytes, n - 1);
      SectorsRoundTrip(d, b, bytes, n - 1);
      var d2 := WriteSectors(d, b, bytes, n);
      ReadSame(d1, d2, b, n - 1);
      assert bytes[..SECTOR * (n - 1)] + bytes[SECTOR * (n - 1)..SECTOR * n] == bytes[..SECTOR * n];
    }
  }

  lemma {:induction false} ReadSame(d1: Disk, d2: Disk, b: nat, n: nat)
    requires OnDisk(d1, b, n) && forall k: nat :: b <= k < b + n ==> k in d2 && d2[k] == d1[k]
    ensures OnDisk(d2, b, n) && ReadSectors(d2, b, n) == ReadSectors(d1, b, n)
    decreases n
  {
    if n > 0 {
      ReadSame(d1, d2, b, n - 1);
    }
  }

  // ---------- The pages of a process ----------

  /** A page of the process: where it belongs, its frame, and, when on disk, its sectors and its entry. */
  datatype Page = Page(va: nat, f: nat, atds: bool, block: nat, pte: Place)

  datatype P = P(m: M, root: nat, plist: seq<Page>, pnum: int, disk: Disk, swapBlock: nat)

  /** As the hardware raises faults: the upper bits repeat bit 38. */
  predicate Canonical(va: nat) {
    va < 0x40_0000_0000 || 0xffff_ffc0_0000_0000 <= va < 0x1_0000_0000_0000_0000
  }

  function PageOf(va: nat): nat {
    va / PAGE_SIZE * PAGE_SIZE
  }

  lemma CanonicalPage(a: nat, b: nat)
    requires Canonical(a) && Canonical(b)
    ensures PageNo(a) == PageNo(b) <==> PageOf(a) == PageOf(b)
    ensures Canonical(PageOf(a)) && PageNo(PageOf(a)) == PageNo(a)
  {
    hide PageNo;
    CanonicalNo(a);
    CanonicalNo(b);
    CanonicalNo(PageOf(a));
  }

  /** The page number of a canonical address, by its half of the address space. */
  lemma CanonicalNo(va: nat)
    requires Canonical(va)
    ensures Canonical(PageOf(va)) && PageOf(va) / PAGE_SIZE == va / PAGE_SIZE
    ensures PageNo(va) == if va < 0x40_0000_0000 then va / PAGE_SIZE else va / PAGE_SIZE - 0xF_FFFF_F800_0000
    ensures va < 0x40_0000_0000 <==> va / PAGE_SIZE < 0x400_0000
  {
    if va >= 0x40_0000_0000 {
      var low := va - 0xffff_ff80_0000_0000;
      assert va == 0x80_0000_0000 * 0x1FF_FFFF + low;
      assert va % 0x80_0000_0000 == low;
    }
  }

  function LeafAt(p: P, va: nat): Link {
    LeafOf(p.root, va)
  }

  function EntryOf(p: P, va: nat): Pte {
    At(p.m, LeafAt(p, va))
  }

  /** Pages in memory, not counting the two stacks. */
  function Resident(s: seq<Page>): nat {
    if s == [] then 0 else (if s[0].atds then 0 else 1) + Resident(s[1..])
  }

  /** A stack is mapped to its frame. */
  ghost predicate StackAt(p: P, x: Page) {
    IsValid(EntryOf(p, x.va)) && EntryOf(p, x.va).ppn == x.f && InRam(x.f)
  }

  /** The two stacks come first; they never move, and their atds flag says nothing. */
  ghost predicate Stacks(p: P) {
    && |p.plist| >= 2 && p.plist[0].va == KERNEL_STACK_PAGE && p.plist[1].va == USER_STACK_PAGE
    && p.plist[0].atds && p.plist[1].atds
    && StackAt(p, p.plist[0]) && StackAt(p, p.plist[1])
  }

  /** A page on the list belongs to its entry: valid exactly when it is in memory. */
  ghost predicate PageOk(p: P, x: Page) {
    var e := EntryOf(p, x.va);
    && e.ppn == x.f && InRam(x.f) && (IsValid(e) <==> !x.atds)
    && (x.atds ==>
         SWAP_START <= x.block && x.block + PAGE_SECTORS <= p.swapBlock && x.block % PAGE_SECTORS == 0 &&
         OnDisk(p.disk, x.block, PAGE_SECTORS) && x.pte == Place(Node(p.m, LeafAt(p, x.va)), Vpn0(x.va)))
  }

  ghost predicate Listed(p: P) {
    && (forall i :: 0 <= i < |p.plist| ==>
         Canonical(p.plist[i].va) && p.plist[i].va % PAGE_SIZE == 0 && Own(p.m, p.root, p.plist[i].va))
    && (forall i, j :: 0 <= i < j < |p.plist| ==> p.plist[i].va != p.plist[j].va)
    && (forall i :: 2 <= i < |p.plist| ==> PageOk(p, p.plist[i]))
  }

  ghost predicate Slots(p: P) {
    && SWAP_START <= p.swapBlock && p.swapBlock % PAGE_SECTORS == 0
    && forall i, j :: 2 <= i < j < |p.plist| && p.plist[i].atds && p.plist[j].atds ==> p.plist[i].block != p.plist[j].block
  }

  ghost predicate PInv(p: P) {
    && Inv(p.m) && p.root in p.m.roots
    && Stacks(p) && Listed(p) && Slots(p)
    && p.pnum == 2 + Resident(p.plist[2..])
  }

  /** What page x of the process holds, wherever it is. */
  function Holds(p: P, x: Page): seq<byte> {
    if x.atds then (if OnDisk(p.disk, x.block, PAGE_SECTORS) then ReadSectors(p.disk, x.block, PAGE_SECTORS) else [])
    else (if x.f in p.m.data then p.m.data[x.f] else [])
  }

  // ---------- do_swap ----------

  /** Page i goes to disk; its frame stays with it. */
  function SwapOut(p: P, i: nat, at: Place): P
    requires i < |p.plist| && at.Place? && Known(p.m, at.f) && at.i < ENTRIES && Known(p.m, p.plist[i].f)
  {
    var x := p.plist[i];
    p.(disk := WriteSectors(p.disk, p.swapBlock, p.m.data[x.f], PAGE_SECTORS),
       plist := p.plist[i := x.(atds := true, pte := at, block := p.swapBlock)],
       swapBlock := p.swapBlock + PAGE_SECTORS,
       m := SetEntry(p.m, at.f, at.i, ClearValid(Entry(p.m, at.f, at.i))),
       pnum := p.pnum - 1)
  }

  /** The page do_swap takes, from the i-th on: the first one in memory, unless a page that is not comes before it. */
  function Victim(p: P, i: nat): (v: int)
    requires i <= |p.plist|
    ensures v == -1 || i <= v < |p.plist|
    ensures v >= 0 ==> !p.plist[v].atds && CheckAd(p.m, p.root, p.plist[v].va).Place?
    decreases |p.plist| - i
  {
    if i == |p.plist| then -1
    else if CheckAd(p.m, p.root, p.plist[i].va).Nowhere? then -1
    else if !p.plist[i].atds then i
    else Victim(p, i + 1)
  }

  /** The walk of check_ad ends in a table. */
  lemma PlaceKnown(m: M, r: nat, va: nat)
    requires Inv(m) && Own(m, r, va) && CheckAd(m, r, va).Place?
    ensures var at := CheckAd(m, r, va); Known(m, at.f) && at.i < ENTRIES
    ensures CheckAd(m, r, va) == Place(Node(m, LeafOf(r, va)), Vpn0(va)) && Node(m, LeafOf(r, va)) != 0
    ensures Entry(m, CheckAd(m, r, va).f, CheckAd(m, r, va).i) == At(m, LeafOf(r, va)) && IsValid(At(m, LeafOf(r, va)))
  {
    hide Inv, At, Known, LinkOk, IsValid, CheckAd;
    CheckAdIs(m, r, va);
    NodeIsPtr(m, LeafOf(r, va));
    NodeEntryAt(m, LeafOf(r, va));
  }

  lemma NodeEntryAt(m: M, l: Link)
    ensures Node(m, l) != 0 ==> At(m, l) == Entry(m, Node(m, l), Slot(l))
  {
  }

  lemma VictimKnown(p: P)
    requires PInv(p)
    ensures var v := Victim(p, 0); v >= 0 ==>
      v >= 2 && Known(p.m, p.plist[v].f) && Known(p.m, CheckAd(p.m, p.root, p.plist[v].va).f) &&
      CheckAd(p.m, p.root, p.plist[v].va).i < ENTRIES
  {
    hide Inv, CheckAd, IsValid, Known, At, Victim;
    var v := Victim(p, 0);
    if v >= 0 {
      assert v != 0 && v != 1;
      assert PageOk(p, p.plist[v]);
      PlaceKnown(p.m, p.root, p.plist[v].va);
      RamKnown(p.m, p.plist[v].f);
    }
  }

  lemma RamKnown(m: M, f: nat)
    requires Inv(m) && InRam(f)
    ensures Known(m, f)
  {
  }

  /** do_swap */
  ghost function DoSwap(p: P): (r: (P, int))
    requires PInv(p)
  {
    VictimKnown(p);
    var v := Victim(p, 0);
    if v == -1 then (p, 0) else (SwapOut(p, v, CheckAd(p.m, p.root, p.plist[v].va)), 1)
  }

  // ---------- do_unswap ----------

  /** The first page of that address that is marked as on disk. */
  function FindSwapped(s: seq<Page>, va: nat): (i: nat)
    ensures i <= |s|
    ensures i < |s| ==> s[i].va == va && s[i].atds
    ensures forall j :: 0 <= j < i ==> !(s[j].va == va && s[j].atds)
  {
    if s == [] then 0 else if s[0].va == va && s[0].atds then 0 else 1 + FindSwapped(s[1..], va)
  }

  /** Page i comes back from disk and goes to the end of the list. */
  function SwapIn(p: P, i: nat): P
    requires i < |p.plist| && p.plist[i].pte.Place? && Known(p.m, p.plist[i].pte.f) && p.plist[i].pte.i < ENTRIES
    requires OnDisk(p.disk, p.plist[i].block, PAGE_SECTORS)
  {
    var x := p.plist[i];
    var m1 := p.m.(data := p.m.data[x.f := ReadSectors(p.disk, x.block, PAGE_SECTORS)]);
    p.(m := SetEntry(m1, x.pte.f, x.pte.i, SetAttribute(Entry(p.m, x.pte.f, x.pte.i), PRESENT)),
       plist := p.plist[..i] + p.plist[i + 1..] + [x.(atds := false, block := 0)],
       pnum := p.pnum + 1)
  }

  // ---------- What the changes keep ----------

  /** Another entry for a mapped or swapped page, for the same frame. */
  lemma SetLeaf(m: M, r: nat, va: nat, e: Pte)
    requires Inv(m) && Own(m, r, va) && Node(m, LeafOf(r, va)) != 0 && e.ppn == Ptr(m, LeafOf(r, va)) != 0
    ensures Known(m, Node(m, LeafOf(r, va)))
    ensures (var m1 := SetEntry(m, Node(m, LeafOf(r, va)), Vpn0(va), e);
      Inv(m1) && At(m1, LeafOf(r, va)) == e && m1.roots == m.roots && m1.shared == m.shared && m1.data == m.data && Room(m1) == Room(m) &&
      (forall x :: LinkOk(m, x) && x != LeafOf(r, va) ==> At(m1, x) == At(m, x)) &&
      (forall x :: LinkOk(m, x) && x.Leaf? ==> Node(m1, x) == Node(m, x)))
  {
    hide Inv, At, Known, LinkOk, Vpn0, Vpn1, Vpn2, Room, Loose, Blank;
    var l := LeafOf(r, va);
    OwnLinks(m, r, va);
    NodeIsPtr(m, l);
    assert MayFill(m, l, e);
    FillKeeps(m, l, e);
    FillRest(m, l, e);
    FillRoom(m, l, e);
    var m1 := Fill(m, l, e);
    forall x | LinkOk(m, x) && x.Leaf?
      ensures Node(m1, x) == Node(m, x)
    {
      NodeKept(m, m1, x);
    }
  }

  lemma NodeKept(m: M, m1: M, x: Link)
    requires Inv(m) && Inv(m1) && LinkOk(m, x) && x.Leaf? && m1.roots == m.roots
    requires forall y :: LinkOk(m, y) && !y.Leaf? ==> At(m1, y) == At(m, y)
    ensures Node(m1, x) == Node(m, x)
  {
    hide Inv, At, LinkOk;
    AboveOk(m, x);
    LinkRoot(m, x);
    NodeAbove(m, x);
    NodeAbove(m1, x);
    PtrAt(m, Above(x));
    PtrAt(m1, Above(x));
  }

  /** Other contents for one page. */
  lemma SetData(m: M, f: nat, bytes: seq<byte>)
    requires Inv(m) && Known(m, f) && |bytes| == PAGE_SIZE
    ensures (var m1 := m.(data := m.data[f := bytes]);
      Inv(m1) && m1.roots == m.roots && m1.shared == m.shared && Room(m1) == Room(m) &&
      (forall x :: LinkOk(m, x) ==> At(m1, x) == At(m, x) && Node(m1, x) == Node(m, x)))
  {
    var m1 := m.(data := m.data[f := bytes]);
    assert forall x :: (LinkOk(m1, x) <==> LinkOk(m, x)) && At(m1, x) == At(m, x) && Ptr(m1, x) == Ptr(m, x);
    assert forall g :: Known(m, g) ==> Known(m1, g);
    forall l | LinkOk(m1, l)
      ensures TargetOk(m1, l)
    {
      assert TargetOk(m, l);
    }
  }

  lemma {:induction false} ResidentUpdate(s: seq<Page>, i: nat, x: Page)
    requires i < |s|
    ensures Resident(s[i := x]) == Resident(s) - (if s[i].atds then 0 else 1) + (if x.atds then 0 else 1)
  {
    if i > 0 {
      ResidentUpdate(s[1..], i - 1, x);
      assert s[i := x][1..] == s[1..][i - 1 := x];
    }
  }

  lemma {:induction false} ResidentJoin(s: seq<Page>, t: seq<Page>)
    ensures Resident(s + t) == Resident(s) + Resident(t)
  {
    if s == [] {
      assert s + t == t;
    } else {
      ResidentJoin(s[1..], t);
      assert (s + t)[1..] == s[1..] + t;
    }
  }

  /** Pages of different addresses have different entries. */
  lemma LeavesApart(p: P, a: nat, b: nat)
    requires Canonical(a) && Canonical(b) && PageOf(a) != PageOf(b)
    ensures LeafAt(p, a) != LeafAt(p, b)
  {
    CanonicalPage(a, b);
    PageNoSplits(a);
    PageNoSplits(b);
  }

  lemma LeavesSame(p: P, a: nat, b: nat)
    requires Canonical(a) && Canonical(b) && PageOf(a) == PageOf(b)
    ensures LeafAt(p, a) == LeafAt(p, b) && (Own(p.m, p.root, a) <==> Own(p.m, p.root, b))
  {
    CanonicalPage(a, b);
    SplitUnique(a, b);
  }

  lemma SplitUnique(a: nat, b: nat)
    requires PageNo(a) == PageNo(b)
    ensures Vpn0(a) == Vpn0(b) && Vpn1(a) == Vpn1(b) && Vpn2(a) == Vpn2(b)
  {
    PageNoSplits(a);
    PageNoSplits(b);
  }

  /** A page that nothing touches stays as it is, and holds what it held. */
  lemma PageKept(p: P, p1: P, x: Page)
    requires PageOk(p, x) && p1.root == p.root && p1.swapBlock >= p.swapBlock
    requires EntryOf(p1, x.va) == EntryOf(p, x.va) && Node(p1.m, LeafAt(p, x.va)) == Node(p.m, LeafAt(p, x.va))
    requires x.atds ==> forall k: nat :: x.block <= k < x.block + PAGE_SECTORS && k in p.disk ==> k in p1.disk && p1.disk[k] == p.disk[k]
    requires !x.atds ==> x.f in p.m.data && x.f in p1.m.data && p1.m.data[x.f] == p.m.data[x.f]
    ensures PageOk(p1, x) && Holds(p1, x) == Holds(p, x)
  {
    hide At, Node, IsValid, Vpn0, Vpn1, Vpn2;
    if x.atds {
      ReadSame(p.disk, p1.disk, x.block, PAGE_SECTORS);
    }
  }

  /** Two pages of the list have different frames. */
  lemma FramesApart(p: P, i: nat, j: nat)
    requires PInv(p) && 2 <= i < |p.plist| && 2 <= j < |p.plist| && i != j
    ensures p.plist[i].f != p.plist[j].f
  {
    hide Inv, At, Stacks, Slots, Vpn0, Vpn1, Vpn2, Canonical;
    assert PageOk(p, p.plist[i]) && PageOk(p, p.plist[j]);
    OwnLinks(p.m, p.root, p.plist[i].va);
    OwnLinks(p.m, p.root, p.plist[j].va);
    AlignedPage(p.plist[i].va);
    AlignedPage(p.plist[j].va);
    LeavesApart(p, p.plist[i].va, p.plist[j].va);
    PtrAt(p.m, LeafAt(p, p.plist[i].va));
    PtrAt(p.m, LeafAt(p, p.plist[j].va));
    if p.plist[i].f == p.plist[j].f {
      OneTarget(p.m, LeafAt(p, p.plist[i].va), LeafAt(p, p.plist[j].va));
    }
  }

  lemma AlignedPage(va: nat)
    requires va % PAGE_SIZE == 0
    ensures PageOf(va) == va
  {
  }

  // ---------- Swapping out ----------

  /** Entries other than that of the page at va, and the tables they are in, are as before. */
  ghost predicate OnlyAt(p: P, p1: P, va: nat) {
    && Inv(p1.m) && p1.root == p.root && p1.m.roots == p.m.roots && p1.m.shared == p.m.shared
    && (forall x :: LinkOk(p.m, x) && x != LeafAt(p, va) ==> At(p1.m, x) == At(p.m, x))
    && (forall x :: LinkOk(p.m, x) && x.Leaf? && InRam(Ptr(p.m, x)) ==> Node(p1.m, x) == Node(p.m, x))
  }

  lemma VictimPlace(p: P, v: nat)
    requires PInv(p) && 2 <= v < |p.plist| && !p.plist[v].atds
    ensures CheckAd(p.m, p.root, p.plist[v].va).Place? && Known(p.m, CheckAd(p.m, p.root, p.plist[v].va).f) &&
      CheckAd(p.m, p.root, p.plist[v].va).i < ENTRIES && Known(p.m, p.plist[v].f)
    ensures CheckAd(p.m, p.root, p.plist[v].va) == Place(Node(p.m, LeafAt(p, p.plist[v].va)), Vpn0(p.plist[v].va))
    ensures Node(p.m, LeafAt(p, p.plist[v].va)) != 0
    ensures Entry(p.m, CheckAd(p.m, p.root, p.plist[v].va).f, CheckAd(p.m, p.root, p.plist[v].va).i) == EntryOf(p, p.plist[v].va)
  {
    hide Inv, CheckAd, IsValid, Known, At;
    assert PageOk(p, p.plist[v]);
    CheckAdIs(p.m, p.root, p.plist[v].va);
    PlaceKnown(p.m, p.root, p.plist[v].va);
    RamKnown(p.m, p.plist[v].f);
  }

  lemma SwapOutMemory(p: P, v: nat)
    requires PInv(p) && 2 <= v < |p.plist| && !p.plist[v].atds
    ensures CheckAd(p.m, p.root, p.plist[v].va).Place? && Known(p.m, CheckAd(p.m, p.root, p.plist[v].va).f) &&
      CheckAd(p.m, p.root, p.plist[v].va).i < ENTRIES && Known(p.m, p.plist[v].f)
    ensures (var p1 := SwapOut(p, v, CheckAd(p.m, p.root, p.plist[v].va));
      OnlyAt(p, p1, p.plist[v].va) && EntryOf(p1, p.plist[v].va) == ClearValid(EntryOf(p, p.plist[v].va)) &&
      Node(p1.m, LeafAt(p, p.plist[v].va)) == Node(p.m, LeafAt(p, p.plist[v].va)) && p1.m.data == p.m.data && Room(p1.m) == Room(p.m))
  {
    hide Inv, CheckAd, IsValid, Known, At, Node, LinkOk, Room;
    VictimPlace(p, v);
    var va := p.plist[v].va;
    assert PageOk(p, p.plist[v]);
    PtrAt(p.m, LeafAt(p, va));
    OwnLinks(p.m, p.root, va);
    RamNonzero(p.plist[v].f);
    SetLeaf(p.m, p.root, va, ClearValid(EntryOf(p, va)));
  }

  lemma RamNonzero(f: nat)
    requires InRam(f)
    ensures f != 0
  {
  }

  /** After a swap-out: the page itself, and every other page. */
  lemma SwapOutPage(p: P, v: nat, i: nat)
    requires PInv(p) && 2 <= v < |p.plist| && !p.plist[v].atds && 2 <= i < |p.plist|
    ensures CheckAd(p.m, p.root, p.plist[v].va).Place? && Known(p.m, CheckAd(p.m, p.root, p.plist[v].va).f) &&
      CheckAd(p.m, p.root, p.plist[v].va).i < ENTRIES && Known(p.m, p.plist[v].f)
    ensures (var p1 := SwapOut(p, v, CheckAd(p.m, p.root, p.plist[v].va));
      PageOk(p1, p1.plist[i]) && Holds(p1, p1.plist[i]) == Holds(p, p.plist[i]))
  {
    hide Inv, CheckAd, IsValid, Known, At, Node, LinkOk, Room, Canonical, Stacks, Vpn0, Vpn1, Vpn2, WriteSectors, ReadSectors, OnDisk, SetEntry;
    VictimPlace(p, v);
    SwapOutMemory(p, v);
    var at := CheckAd(p.m, p.root, p.plist[v].va);
    var p1, x, y := SwapOut(p, v, at), p.plist[i], p.plist[v];
    assert PageOk(p, x) && PageOk(p, y);
    KnownSize(p.m, y.f);
    if i == v {
      SectorsRoundTrip(p.disk, p.swapBlock, p.m.data[y.f], PAGE_SECTORS);
      ValidAttribute(EntryOf(p, y.va), PRESENT);
      assert p.m.data[y.f][..SECTOR * PAGE_SECTORS] == p.m.data[y.f];
    } else {
      AlignedPage(x.va);
      AlignedPage(y.va);
      assert x.va != y.va;
      LeavesApart(p, x.va, y.va);
      OwnLinks(p.m, p.root, x.va);
      PtrAt(p.m, LeafAt(p, x.va));
      forall k: nat | x.block <= k < x.block + PAGE_SECTORS && k in p.disk && x.atds
        ensures k in p1.disk && p1.disk[k] == p.disk[k]
      {
        WriteElsewhere(p.disk, p.swapBlock, p.m.data[y.f], PAGE_SECTORS, k);
      }
      RamKnown(p.m, x.f);
      KnownSize(p.m, x.f);
      PageKept(p, p1, x);
    }
  }

  lemma KnownSize(m: M, f: nat)
    requires Known(m, f)
    ensures f in m.data && |m.data[f]| == PAGE_SIZE
  {
  }

  /** Stacks and rest of the list after an entry of another page was set. */
  lemma StacksKept(p: P, p1: P, va: nat)
    requires Stacks(p) && OnlyAt(p, p1, va) && Canonical(va) && |p1.plist| >= 2 && p1.plist[..2] == p.plist[..2]
    requires PageOf(va) != KERNEL_STACK_PAGE && PageOf(va) != USER_STACK_PAGE
    requires Own(p.m, p.root, KERNEL_STACK_PAGE) && Own(p.m, p.root, USER_STACK_PAGE)
    ensures Stacks(p1)
  {
    hide Inv, At, IsValid, Vpn0, Vpn1, Vpn2, Node;
    assert p1.plist[0] == p1.plist[..2][0] && p1.plist[1] == p1.plist[..2][1];
    LeavesApart(p, va, KERNEL_STACK_PAGE);
    LeavesApart(p, va, USER_STACK_PAGE);
    OwnLinks(p.m, p.root, KERNEL_STACK_PAGE);
    OwnLinks(p.m, p.root, USER_STACK_PAGE);
  }

  /** do_swap keeps everything in order, and no page loses its contents. */
  lemma SwapOutKeeps(p: P, v: nat)
    requires PInv(p) && 2 <= v < |p.plist| && !p.plist[v].atds
    ensures CheckAd(p.m, p.root, p.plist[v].va).Place? && Known(p.m, CheckAd(p.m, p.root, p.plist[v].va).f) &&
      CheckAd(p.m, p.root, p.plist[v].va).i < ENTRIES && Known(p.m, p.plist[v].f)
    ensures (var p1 := SwapOut(p, v, CheckAd(p.m, p.root, p.plist[v].va));
      PInv(p1) && OnlyAt(p, p1, p.plist[v].va) && Room(p1.m) == Room(p.m) && p1.m.data == p.m.data && p1.pnum == p.pnum - 1 &&
      |p1.plist| == |p.plist| && (forall i :: 0 <= i < |p.plist| ==> p1.plist[i].va == p.plist[i].va) &&
      (forall i :: 2 <= i < |p.plist| ==> Holds(p1, p1.plist[i]) == Holds(p, p.plist[i])))
  {
    hide Inv, CheckAd, IsValid, Known, At, Node, LinkOk, Room, Holds, PageOk, Vpn0, Vpn1, Vpn2, WriteSectors, SetEntry;
    VictimPlace(p, v);
    SwapOutMemory(p, v);
    var va := p.plist[v].va;
    var p1 := SwapOut(p, v, CheckAd(p.m, p.root, va));
    forall i | 2 <= i < |p.plist|
      ensures PageOk(p1, p1.plist[i]) && Holds(p1, p1.plist[i]) == Holds(p, p.plist[i])
    {
      SwapOutPage(p, v, i);
    }
    AlignedPage(va);
    StacksKept(p, p1, va);
    SwapOutSlots(p, v);
    assert p1.plist[2..] == p.plist[2..][v - 2 := p1.plist[v]];
    ResidentUpdate(p.plist[2..], v - 2, p1.plist[v]);
  }

  lemma SwapOutSlots(p: P, v: nat)
    requires PInv(p) && 2 <= v < |p.plist| && !p.plist[v].atds
    requires CheckAd(p.m, p.root, p.plist[v].va).Place? && Known(p.m, CheckAd(p.m, p.root, p.plist[v].va).f) &&
      CheckAd(p.m, p.root, p.plist[v].va).i < ENTRIES && Known(p.m, p.plist[v].f)
    ensures Slots(SwapOut(p, v, CheckAd(p.m, p.root, p.plist[v].va)))
  {
    hide Inv, CheckAd, IsValid, Known, At, Node, LinkOk, WriteSectors, SetEntry, Stacks;
    var p1 := SwapOut(p, v, CheckAd(p.m, p.root, p.plist[v].va));
    forall i, j | 2 <= i < j < |p1.plist| && p1.plist[i].atds && p1.plist[j].atds
      ensures p1.plist[i].block != p1.plist[j].block
    {
      assert PageOk(p, p.plist[i]) && PageOk(p, p.plist[j]);
    }
  }

  // ---------- Swapping in ----------

  lemma SwapInPlace(p: P, i: nat)
    requires PInv(p) && 2 <= i < |p.plist| && p.plist[i].atds
    ensures p.plist[i].pte.Place? && Known(p.m, p.plist[i].pte.f) && p.plist[i].pte.i < ENTRIES && OnDisk(p.disk, p.plist[i].block, PAGE_SECTORS)
    ensures Known(p.m, p.plist[i].f) && p.plist[i].pte == Place(Node(p.m, LeafAt(p, p.plist[i].va)), Vpn0(p.plist[i].va))
    ensures Node(p.m, LeafAt(p, p.plist[i].va)) != 0 && Entry(p.m, p.plist[i].pte.f, p.plist[i].pte.i) == EntryOf(p, p.plist[i].va)
  {
    hide Inv, IsValid, Known, Stacks, Slots, Vpn1, Vpn2, LinkOk, Canonical, OnDisk;
    var x := p.plist[i];
    assert PageOk(p, x);
    RamKnown(p.m, x.f);
    RamNonzero(x.f);
    OwnLinks(p.m, p.root, x.va);
    NodeIsPtr(p.m, LeafAt(p, x.va));
    NodeEntryAt(p.m, LeafAt(p, x.va));
  }

  lemma SwapInMemory(p: P, i: nat)
    requires PInv(p) && 2 <= i < |p.plist| && p.plist[i].atds
    ensures p.plist[i].pte.Place? && Known(p.m, p.plist[i].pte.f) && p.plist[i].pte.i < ENTRIES && OnDisk(p.disk, p.plist[i].block, PAGE_SECTORS)
    ensures (var p1, x := SwapIn(p, i), p.plist[i];
      OnlyAt(p, p1, x.va) && EntryOf(p1, x.va) == SetAttribute(EntryOf(p, x.va), PRESENT) &&
      p1.m.data == p.m.data[x.f := ReadSectors(p.disk, x.block, PAGE_SECTORS)] && Room(p1.m) == Room(p.m))
  {
    hide Inv, IsValid, Known, At, Node, LinkOk, Room, Vpn0, Vpn1, Vpn2, OnDisk, ReadSectors, Stacks, Slots, Canonical;
    SwapInPlace(p, i);
    var x := p.plist[i];
    assert PageOk(p, x);
    var m1 := p.m.(data := p.m.data[x.f := ReadSectors(p.disk, x.block, PAGE_SECTORS)]);
    SetData(p.m, x.f, ReadSectors(p.disk, x.block, PAGE_SECTORS));
    OwnLinks(p.m, p.root, x.va);
    PtrAt(p.m, LeafAt(p, x.va));
    PtrAt(m1, LeafAt(p, x.va));
    RamNonzero(x.f);
    AttributePpn(EntryOf(p, x.va), PRESENT);
    SetLeaf(m1, p.root, x.va, SetAttribute(EntryOf(p, x.va), PRESENT));
    SameLinks(p.m, m1);
    PtrsAt(p.m, m1);
  }

  /** After a swap-in: the page itself, and every other page. */
  lemma SwapInPage(p: P, i: nat, j: nat)
    requires PInv(p) && 2 <= i < |p.plist| && p.plist[i].atds && 2 <= j < |p.plist|
    ensures p.plist[i].pte.Place? && Known(p.m, p.plist[i].pte.f) && p.plist[i].pte.i < ENTRIES && OnDisk(p.disk, p.plist[i].block, PAGE_SECTORS)
    ensures (var p1, x := SwapIn(p, i), p.plist[j];
      var y := if j == i then x.(atds := false, block := 0) else x;
      PageOk(p1, y) && Holds(p1, y) == Holds(p, x))
  {
    hide Inv, IsValid, Known, At, Node, LinkOk, Room, Canonical, Stacks, Slots, Vpn0, Vpn1, Vpn2, ReadSectors, OnDisk, SetEntry;
    SwapInPlace(p, i);
    SwapInMemory(p, i);
    var p1, x, z := SwapIn(p, i), p.plist[j], p.plist[i];
    assert PageOk(p, x) && PageOk(p, z);
    RamKnown(p.m, x.f);
    KnownSize(p.m, x.f);
    if j == i {
      ValidAttribute(EntryOf(p, x.va), PRESENT);
      AttributePpn(EntryOf(p, x.va), PRESENT);
      PresentSet();
    } else {
      AlignedPage(x.va);
      AlignedPage(z.va);
      assert x.va != z.va;
      LeavesApart(p, x.va, z.va);
      OwnLinks(p.m, p.root, x.va);
      PtrAt(p.m, LeafAt(p, x.va));
      FramesApart(p, i, j);
      PageKept(p, p1, x);
    }
  }

  lemma PresentSet()
    ensures PRESENT & PRESENT != 0
  {
  }

  /** The list with its i-th member moved to the end. */
  function ToEnd(s: seq<Page>, i: nat, x: Page): (r: seq<Page>)
    requires i < |s|
    ensures |r| == |s| && r[|s| - 1] == x && forall j :: 0 <= j < |s| - 1 ==> r[j] == if j < i then s[j] else s[j + 1]
  {
    s[..i] + s[i + 1..] + [x]
  }

  lemma ResidentToEnd(s: seq<Page>, i: nat, x: Page)
    requires i < |s|
    ensures Resident(ToEnd(s, i, x)) == Resident(s[i := x])
  {
    var a, b := s[..i], s[i + 1..];
    assert s[i := x] == a + ([x] + b);
    ResidentJoin(a, [x] + b);
    ResidentJoin([x], b);
    ResidentJoin(a + b, [x]);
    ResidentJoin(a, b);
  }

  /** do_unswap keeps everything in order: the page is back, at the end of the list, with what it held. */
  lemma SwapInKeeps(p: P, i: nat)
    requires PInv(p) && 2 <= i < |p.plist| && p.plist[i].atds
    ensures p.plist[i].pte.Place? && Known(p.m, p.plist[i].pte.f) && p.plist[i].pte.i < ENTRIES && OnDisk(p.disk, p.plist[i].block, PAGE_SECTORS)
    ensures (var p1, x := SwapIn(p, i), p.plist[i];
      PInv(p1) && OnlyAt(p, p1, x.va) && Room(p1.m) == Room(p.m) && p1.pnum == p.pnum + 1 &&
      p1.plist == ToEnd(p.plist, i, x.(atds := false, block := 0)) &&
      (forall j :: 2 <= j < |p.plist| - 1 ==> Holds(p1, p1.plist[j]) == Holds(p, p.plist[if j < i then j else j + 1])) &&
      Holds(p1, p1.plist[|p.plist| - 1]) == Holds(p, x))
  {
    hide Inv, IsValid, Known, At, Node, LinkOk, Room, Holds, PageOk, Vpn0, Vpn1, Vpn2, ReadSectors, OnDisk, SetEntry, Canonical, Listed, Stacks, Slots, Own, Resident;
    SwapInPlace(p, i);
    SwapInMemory(p, i);
    var p1, x := SwapIn(p, i), p.plist[i];
    var y := x.(atds := false, block := 0);
    assert p1.plist == ToEnd(p.plist, i, y);
    forall j | 2 <= j < |p1.plist|
      ensures PageOk(p1, p1.plist[j])
      ensures Holds(p1, p1.plist[j]) == Holds(p, p.plist[if j == |p.plist| - 1 then i else if j < i then j else j + 1])
    {
      SwapInPage(p, i, if j == |p.plist| - 1 then i else if j < i then j else j + 1);
    }
    SwapInListed(p, p1, i, y);
    SwapInSlots(p, i);
    SwapInCount(p, i);
  }

  lemma SwapInCount(p: P, i: nat)
    requires PInv(p) && 2 <= i < |p.plist| && p.plist[i].atds
    requires p.plist[i].pte.Place? && Known(p.m, p.plist[i].pte.f) && p.plist[i].pte.i < ENTRIES && OnDisk(p.disk, p.plist[i].block, PAGE_SECTORS)
    ensures SwapIn(p, i).pnum == 2 + Resident(SwapIn(p, i).plist[2..])
  {
    hide Inv, IsValid, Known, SetEntry, Stacks, Listed, Slots, OnDisk, ReadSectors;
    var y := p.plist[i].(atds := false, block := 0);
    assert SwapIn(p, i).plist[2..] == ToEnd(p.plist[2..], i - 2, y);
    ResidentToEnd(p.plist[2..], i - 2, y);
    ResidentUpdate(p.plist[2..], i - 2, y);
  }

  lemma SwapInListed(p: P, p1: P, i: nat, y: Page)
    requires PInv(p) && 2 <= i < |p.plist| && p1.plist == ToEnd(p.plist, i, y) && y.va == p.plist[i].va
    requires OnlyAt(p, p1, y.va) && forall j :: 2 <= j < |p1.plist| ==> PageOk(p1, p1.plist[j])
    ensures Listed(p1) && Stacks(p1)
  {
    hide Inv, IsValid, Known, At, Node, LinkOk, PageOk, Vpn0, Vpn1, Vpn2, Slots;
    var x := p.plist[i];
    AlignedPage(x.va);
    assert p1.plist[..2] == p.plist[..2];
    assert x.va != p.plist[0].va && x.va != p.plist[1].va;
    StacksKept(p, p1, x.va);
  }

  lemma SwapInSlots(p: P, i: nat)
    requires PInv(p) && 2 <= i < |p.plist| && p.plist[i].atds
    requires p.plist[i].pte.Place? && Known(p.m, p.plist[i].pte.f) && p.plist[i].pte.i < ENTRIES && OnDisk(p.disk, p.plist[i].block, PAGE_SECTORS)
    ensures Slots(SwapIn(p, i))
  {
    hide Inv, IsValid, Known, At, Node, LinkOk, SetEntry, Stacks, Listed, OnDisk, ReadSectors, Resident;
    var p1, x := SwapIn(p, i), p.plist[i];
    assert p1.plist == ToEnd(p.plist, i, x.(atds := false, block := 0));
  }

  // ---------- A new page ----------

  /** The end of a fault on a page that is nowhere. */
  function AddPage(p: P, stval: nat): P
    requires Room(p.m) >= 3 && Known(p.m, p.root)
  {
    var (m1, kva) := MapPage(p.m, p.root, stval, 1);
    p.(m := m1, plist := p.plist + [Page(PageOf(stval), FrameOf(kva), false, 0, Nowhere)], pnum := p.pnum + 1)
  }

  /** stval's page is neither mapped nor on the list. */
  ghost predicate Fresh(p: P, stval: nat) {
    && Canonical(stval) && Own(p.m, p.root, stval) && !IsValid(EntryOf(p, stval))
    && forall i :: 0 <= i < |p.plist| ==> p.plist[i].va != PageOf(stval)
  }

  lemma AddPageMemory(p: P, stval: nat)
    requires PInv(p) && Fresh(p, stval) && Room(p.m) >= 3
    ensures Known(p.m, p.root)
    ensures (var p1 := AddPage(p, stval); var f := p1.plist[|p.plist|].f;
      MappedPage(p.m, p1.m, p.root, stval, f, LeafBits(1)) && InRam(f) && Room(p1.m) >= Room(p.m) - 3 && IsValid(EntryOf(p1, stval)) &&
      EntryOf(p1, stval).ppn == f && p1.m.data[f] == BlankPage())
  {
    hide Inv, At, Known, LinkOk, MapPage, IsValid, LeafBits, Listed, Stacks, Slots, Vpn0, Vpn1, Vpn2, Canonical, Room;
    MapPageMaps(p.m, p.root, stval, 1);
    BitsValid(1);
    ValidBits(AddPage(p, stval).plist[|p.plist|].f, LeafBits(1));
  }

  /** Mapping a page moves no table that leads to another page. */
  lemma MappedNode(m: M, m1: M, r: nat, va: nat, f: nat, bits: bv10, x: Link)
    requires Inv(m) && MappedPage(m, m1, r, va, f, bits) && LinkOk(m, x) && x.Leaf? && x != LeafOf(r, va) && InRam(Ptr(m, x))
    ensures Node(m1, x) == Node(m, x)
  {
    hide Inv, At, LinkOk, Ptr, Known, Vpn0, Vpn1, Vpn2;
    AboveOk(m, x);
    LinkRoot(m, x);
    NodeAbove(m, x);
    NodeAbove(m1, x);
    NodeZero(m, x);
    NodeIsPtr(m, x);
  }

  lemma NodeZero(m: M, x: Link)
    ensures Node(m, x) == 0 ==> Ptr(m, x) == 0
  {
  }

  /** Every other page after a page was added. */
  lemma AddPageOther(p: P, stval: nat, i: nat)
    requires PInv(p) && Fresh(p, stval) && Room(p.m) >= 3 && 2 <= i < |p.plist|
    ensures Known(p.m, p.root)
    ensures (var p1 := AddPage(p, stval); PageOk(p1, p.plist[i]) && Holds(p1, p.plist[i]) == Holds(p, p.plist[i]))
  {
    hide Inv, At, Known, LinkOk, MapPage, IsValid, LeafBits, Stacks, Slots, Vpn0, Vpn1, Vpn2, Canonical, Room, Node, Blank;
    AddPageMemory(p, stval);
    var p1, x := AddPage(p, stval), p.plist[i];
    assert PageOk(p, x);
    CanonicalPage(stval, stval);
    AlignedPage(x.va);
    LeavesApart(p, x.va, stval);
    OwnLinks(p.m, p.root, x.va);
    PtrAt(p.m, LeafAt(p, x.va));
    MappedNode(p.m, p1.m, p.root, stval, p1.plist[|p.plist|].f, LeafBits(1), LeafAt(p, x.va));
    KnownSize(p.m, x.f);
    KnownSize(p1.m, x.f);
    PageKept(p, p1, x);
  }

  lemma AddPageStacks(p: P, stval: nat)
    requires PInv(p) && Fresh(p, stval) && Room(p.m) >= 3
    ensures Known(p.m, p.root) && Stacks(AddPage(p, stval))
  {
    hide Inv, At, Known, LinkOk, MapPage, IsValid, LeafBits, Slots, Vpn0, Vpn1, Vpn2, Room, Node;
    AddPageMemory(p, stval);
    assert PageOf(stval) != p.plist[0].va && PageOf(stval) != p.plist[1].va;
    LeavesApart(p, KERNEL_STACK_PAGE, stval);
    LeavesApart(p, USER_STACK_PAGE, stval);
    assert Own(p.m, p.root, p.plist[0].va) && Own(p.m, p.root, p.plist[1].va);
    OwnLinks(p.m, p.root, KERNEL_STACK_PAGE);
    OwnLinks(p.m, p.root, USER_STACK_PAGE);
  }

  lemma AddPageShape(p: P, stval: nat)
    requires Room(p.m) >= 3 && Known(p.m, p.root)
    ensures (var p1 := AddPage(p, stval);
      p1.root == p.root && p1.disk == p.disk && p1.swapBlock == p.swapBlock && p1.pnum == p.pnum + 1 &&
      |p1.plist| == |p.plist| + 1 && p1.plist == p.plist + [p1.plist[|p.plist|]] &&
      p1.plist[|p.plist|].va == PageOf(stval) && !p1.plist[|p.plist|].atds)
  {
  }

  lemma AddPageNew(p: P, stval: nat)
    requires PInv(p) && Fresh(p, stval) && Room(p.m) >= 3
    ensures Known(p.m, p.root)
    ensures (var p1 := AddPage(p, stval); var y := p1.plist[|p.plist|];
      Inv(p1.m) && p1.m.roots == p.m.roots && p1.m.shared == p.m.shared && IsValid(EntryOf(p1, stval)) &&
      PageOk(p1, y) && Holds(p1, y) == BlankPage())
  {
    hide Inv, At, Known, LinkOk, MapPage, IsValid, LeafBits, Vpn0, Vpn1, Vpn2, Room, Node, Canonical, Stacks, Listed, Slots, MappedPage;
    AddPageMemory(p, stval);
    var p1 := AddPage(p, stval);
    AddPageShape(p, stval);
    MappedMeans(p.m, p1.m, p.root, stval, p1.plist[|p.plist|].f, LeafBits(1));
    LeavesSameOf(p1, stval);
    KnownSize(p1.m, p1.plist[|p.plist|].f);
  }

  lemma AddPageListed(p: P, p1: P, stval: nat)
    requires PInv(p) && Fresh(p, stval) && p1.root == p.root && p1.m.roots == p.m.roots && p1.m.shared == p.m.shared
    requires |p1.plist| == |p.plist| + 1 && p1.plist == p.plist + [p1.plist[|p.plist|]] && p1.plist[|p.plist|].va == PageOf(stval)
    requires !p1.plist[|p.plist|].atds && p1.swapBlock == p.swapBlock && p1.pnum == p.pnum + 1
    requires forall i :: 2 <= i < |p1.plist| ==> PageOk(p1, p1.plist[i])
    ensures Listed(p1) && Slots(p1) && p1.pnum == 2 + Resident(p1.plist[2..])
  {
    hide Inv, At, IsValid, Vpn0, Vpn1, Vpn2, Canonical, PageOk;
    var y := p1.plist[|p.plist|];
    CanonicalOf(stval);
    LeavesSameOf(p, stval);
    assert forall i :: 0 <= i < |p.plist| ==> p1.plist[i] == p.plist[i];
    assert p1.plist[2..] == p.plist[2..] + [y];
    ResidentJoin(p.plist[2..], [y]);
  }

  lemma PageAligned(va: nat)
    ensures PageOf(va) % PAGE_SIZE == 0
  {
  }

  lemma CanonicalOf(stval: nat)
    requires Canonical(stval)
    ensures Canonical(PageOf(stval)) && PageOf(stval) % PAGE_SIZE == 0
  {
    hide Canonical, PageNo, PageOf;
    CanonicalPage(stval, stval);
    PageAligned(stval);
  }

  /** A new page is zeroed, mapped, and last on the list; nothing else changes. */
  lemma AddPageKeeps(p: P, stval: nat)
    requires PInv(p) && Fresh(p, stval) && Room(p.m) >= 3
    ensures Known(p.m, p.root)
    ensures (var p1 := AddPage(p, stval);
      PInv(p1) && IsValid(EntryOf(p1, stval)) && Holds(p1, p1.plist[|p.plist|]) == BlankPage() &&
      |p1.plist| == |p.plist| + 1 && p1.plist[|p.plist|].va == PageOf(stval) && (forall i :: 0 <= i < |p.plist| ==> p1.plist[i] == p.plist[i]) &&
      (forall i :: 2 <= i < |p.plist| ==> Holds(p1, p.plist[i]) == Holds(p, p.plist[i])))
  {
    hide Inv, At, Known, AddPage, IsValid, Room, Canonical, Stacks, Holds, PageOk, Listed, Slots, Fresh;
    AddPageNew(p, stval);
    AddPageShape(p, stval);
    AddPageStacks(p, stval);
    var p1 := AddPage(p, stval);
    forall i | 2 <= i < |p1.plist|
      ensures PageOk(p1, p1.plist[i])
    {
      if i < |p.plist| {
        AddPageOther(p, stval, i);
      }
    }
    forall i | 2 <= i < |p.plist|
      ensures Holds(p1, p.plist[i]) == Holds(p, p.plist[i])
    {
      AddPageOther(p, stval, i);
    }
    AddPageListed(p, p1, stval);
  }

  lemma MappedMeans(m: M, m1: M, r: nat, va: nat, f: nat, bits: bv10)
    requires MappedPage(m, m1, r, va, f, bits)
    ensures Inv(m1) && m1.roots == m.roots && m1.shared == m.shared && Known(m1, f)
  {
  }

  lemma LeavesSameOf(p: P, stval: nat)
    requires Canonical(stval)
    ensures LeafAt(p, PageOf(stval)) == LeafAt(p, stval) && (Own(p.m, p.root, PageOf(stval)) <==> Own(p.m, p.root, stval))
  {
    CanonicalPage(stval, stval);
    AlignedPage(PageOf(stval));
    LeavesSame(p, PageOf(stval), stval);
  }

  // ---------- The fault handlers ----------

  /** The accessed and dirty bits of a mapped page are set. */
  function SetAccess(p: P, at: Place, bits: bv10): P
    requires at.Place? && Known(p.m, at.f) && at.i < ENTRIES
  {
    p.(m := SetEntry(p.m, at.f, at.i, SetAttribute(Entry(p.m, at.f, at.i), bits)))
  }

  lemma SetAccessMemory(p: P, stval: nat, bits: bv10)
    requires PInv(p) && Own(p.m, p.root, stval) && CheckAd(p.m, p.root, stval).Place? && bits & PRESENT == 0
    ensures Known(p.m, CheckAd(p.m, p.root, stval).f) && CheckAd(p.m, p.root, stval).i < ENTRIES
    ensures (var p1 := SetAccess(p, CheckAd(p.m, p.root, stval), bits);
      OnlyAt(p, p1, stval) && EntryOf(p1, stval).ppn == EntryOf(p, stval).ppn && IsValid(EntryOf(p1, stval)) && IsValid(EntryOf(p, stval)) &&
      (forall x :: LinkOk(p.m, x) && x.Leaf? ==> Node(p1.m, x) == Node(p.m, x)) && p1.m.data == p.m.data && Room(p1.m) == Room(p.m))
  {
    hide Inv, CheckAd, IsValid, Known, At, Node, LinkOk, Room, Vpn0, Vpn1, Vpn2, Stacks, Listed, Slots;
    PlaceKnown(p.m, p.root, stval);
    OwnLinks(p.m, p.root, stval);
    ValidPpn(p.m, LeafAt(p, stval));
    PtrAt(p.m, LeafAt(p, stval));
    ValidAttribute(EntryOf(p, stval), bits);
    AttributePpn(EntryOf(p, stval), bits);
    SetLeaf(p.m, p.root, stval, SetAttribute(EntryOf(p, stval), bits));
  }

  lemma ValidPpn(m: M, l: Link)
    requires Inv(m) && LinkOk(m, l) && IsValid(At(m, l))
    ensures At(m, l).ppn != 0
  {
    assert TargetOk(m, l);
  }

  lemma SetAccessPage(p: P, stval: nat, bits: bv10, i: nat)
    requires PInv(p) && Canonical(stval) && Own(p.m, p.root, stval) && CheckAd(p.m, p.root, stval).Place? && bits & PRESENT == 0
    requires i < |p.plist|
    ensures Known(p.m, CheckAd(p.m, p.root, stval).f) && CheckAd(p.m, p.root, stval).i < ENTRIES
    ensures (var p1, x := SetAccess(p, CheckAd(p.m, p.root, stval), bits), p.plist[i];
      (i >= 2 ==> PageOk(p1, x) && Holds(p1, x) == Holds(p, x)) && (IsValid(EntryOf(p1, x.va)) <==> IsValid(EntryOf(p, x.va))) &&
      EntryOf(p1, x.va).ppn == EntryOf(p, x.va).ppn)
  {
    hide Inv, CheckAd, IsValid, Known, At, Node, LinkOk, Room, Vpn0, Vpn1, Vpn2, Stacks, Slots, Canonical;
    SetAccessMemory(p, stval, bits);
    var x := p.plist[i];
    OwnLinks(p.m, p.root, x.va);
    assert i >= 2 ==> PageOk(p, x);
    AlignedPage(x.va);
    if PageOf(stval) == x.va {
      LeavesSame(p, stval, x.va);
    } else {
      LeavesApart(p, stval, x.va);
    }
  }

  lemma SetAccessKeeps(p: P, stval: nat, bits: bv10)
    requires PInv(p) && Canonical(stval) && Own(p.m, p.root, stval) && CheckAd(p.m, p.root, stval).Place? && bits & PRESENT == 0
    ensures Known(p.m, CheckAd(p.m, p.root, stval).f) && CheckAd(p.m, p.root, stval).i < ENTRIES
    ensures (var p1 := SetAccess(p, CheckAd(p.m, p.root, stval), bits);
      PInv(p1) && IsValid(EntryOf(p1, stval)) && forall i :: 2 <= i < |p.plist| ==> Holds(p1, p.plist[i]) == Holds(p, p.plist[i]))
  {
    hide Inv, CheckAd, IsValid, Known, At, Node, LinkOk, Room, Vpn0, Vpn1, Vpn2, Canonical, Holds, PageOk;
    SetAccessMemory(p, stval, bits);
    var p1 := SetAccess(p, CheckAd(p.m, p.root, stval), bits);
    forall i | 0 <= i < |p.plist|
      ensures i >= 2 ==> PageOk(p1, p.plist[i]) && Holds(p1, p.plist[i]) == Holds(p, p.plist[i])
      ensures IsValid(EntryOf(p1, p.plist[i].va)) <==> IsValid(EntryOf(p, p.plist[i].va))
      ensures EntryOf(p1, p.plist[i].va).ppn == EntryOf(p, p.plist[i].va).ppn
    {
      SetAccessPage(p, stval, bits, i);
    }
  }

  /** What stands on the list for the faulting page when its entry is invalid: at most one page, on disk. */
  lemma FaultFinds(p: P, stval: nat)
    requires PInv(p) && Canonical(stval) && Own(p.m, p.root, stval) && CheckAd(p.m, p.root, stval).Nowhere?
    ensures !IsValid(EntryOf(p, stval))
    ensures var i := FindSwapped(p.plist, PageOf(stval)); i < |p.plist| ==> i >= 2
    ensures FindSwapped(p.plist, PageOf(stval)) == |p.plist| ==> Fresh(p, stval)
  {
    hide Inv, CheckAd, IsValid, Known, At, Node, LinkOk, Vpn0, Vpn1, Vpn2, FindSwapped;
    CheckAdIs(p.m, p.root, stval);
    forall j | 0 <= j < |p.plist| && p.plist[j].va == PageOf(stval)
      ensures j >= 2 && p.plist[j].atds
    {
      LeavesSameOf(p, stval);
      assert j >= 2 ==> PageOk(p, p.plist[j]);
    }
    FindSwappedIs(p.plist, PageOf(stval));
  }

  lemma FindSwappedIs(s: seq<Page>, va: nat)
    ensures var i := FindSwapped(s, va);
      i <= |s| && (i < |s| ==> s[i].va == va && s[i].atds) && forall j :: 0 <= j < i ==> !(s[j].va == va && s[j].atds)
  {
  }

  /** do_swap never looks past the first page after the stacks: that page goes, or none does. */
  lemma VictimIsFirst(p: P)
    requires PInv(p)
    ensures Victim(p, 0) == if |p.plist| > 2 && !p.plist[2].atds then 2 else -1
  {
    hide Inv, CheckAd, IsValid, Known, At, LinkOk, Vpn0, Vpn1, Vpn2;
    CheckAdIs(p.m, p.root, p.plist[0].va);
    CheckAdIs(p.m, p.root, p.plist[1].va);
    assert Victim(p, 0) == Victim(p, 1) == Victim(p, 2);
    if |p.plist| > 2 {
      assert PageOk(p, p.plist[2]);
      CheckAdIs(p.m, p.root, p.plist[2].va);
    }
  }

  lemma DoSwapKeeps(p: P)
    requires PInv(p)
    ensures (var p1 := DoSwap(p).0;
      PInv(p1) && Room(p1.m) == Room(p.m) && p1.root == p.root && p1.m.roots == p.m.roots && p1.m.shared == p.m.shared &&
      |p1.plist| == |p.plist| && (forall i :: 0 <= i < |p.plist| ==> p1.plist[i].va == p.plist[i].va) &&
      (forall i :: 2 <= i < |p.plist| ==> Holds(p1, p1.plist[i]) == Holds(p, p.plist[i])))
    ensures DoSwap(p).1 == 1 ==> |p.plist| > 2 && OnlyAt(p, DoSwap(p).0, p.plist[2].va)
    ensures DoSwap(p).1 != 1 ==> DoSwap(p).0 == p
    ensures DoSwap(p).1 == if |p.plist| > 2 && !p.plist[2].atds then 1 else 0
  {
    hide PInv, SwapOut, CheckAd, Victim, OnlyAt, Holds, Room, Known;
    VictimKnown(p);
    VictimIsFirst(p);
    PlistTwo(p);
    if |p.plist| > 2 && !p.plist[2].atds {
      SwapOutKeeps(p, 2);
      OnlyAtMeans(p, DoSwap(p).0, p.plist[2].va);
    }
  }

  lemma PlistTwo(p: P)
    requires PInv(p)
    ensures |p.plist| >= 2
  {
  }

  lemma OnlyAtMeans(p: P, p1: P, va: nat)
    requires OnlyAt(p, p1, va)
    ensures p1.root == p.root && p1.m.roots == p.m.roots && p1.m.shared == p.m.shared
  {
  }

  lemma FaultBits()
    ensures ACCESSED & PRESENT == 0 && (ACCESSED | DIRTY) & PRESENT == 0
  {
  }

  /** A fault on a page that is mapped or on disk needs no memory; a new page needs up to three frames. */
  predicate Served(p: P, stval: nat) {
    CheckAd(p.m, p.root, stval).Place? || FindSwapped(p.plist, PageOf(stval)) < |p.plist| || Room(p.m) >= 3
  }

  /** handle_load_page_fault and handle_store_page_fault; bits says which attributes a present page gets. */
  ghost function Fault(p: P, stval: nat, bits: bv10): P
    requires PInv(p) && Canonical(stval) && Own(p.m, p.root, stval) && Served(p, stval)
  {
    var at := CheckAd(p.m, p.root, stval);
    if at.Place? then
      PlaceKnown(p.m, p.root, stval);
      SetAccess(p, at, bits)
    else
      FaultFinds(p, stval);
      var i := FindSwapped(p.plist, PageOf(stval));
      if i < |p.plist| then
        SwapInKeeps(p, i);
        var p1 := SwapIn(p, i);
        if p1.pnum >= MAX_RESIDENT then DoSwap(p1).0 else p1
      else
        DoSwapKeeps(p);
        var p1 := if p.pnum >= MAX_RESIDENT then DoSwap(p).0 else p;
        RootIsKnown(p1);
        AddPage(p1, stval)
  }

  lemma RootIsKnown(p: P)
    requires PInv(p)
    ensures Known(p.m, p.root)
  {
  }

  // ---------- What a process sees ----------

  datatype Contents = Absent | Held(bytes: seq<byte>)

  function FindVa(s: seq<Page>, va: nat): (i: nat)
    ensures i <= |s|
    ensures i < |s| ==> s[i].va == va
    ensures forall j :: 0 <= j < i ==> s[j].va != va
  {
    if s == [] then 0 else if s[0].va == va then 0 else 1 + FindVa(s[1..], va)
  }

  /** The contents of the listed page at va, in memory or on disk. */
  function View(p: P, va: nat): Contents {
    if |p.plist| < 2 then Absent
    else
      var i := FindVa(p.plist[2..], va);
      if i < |p.plist| - 2 then Held(Holds(p, p.plist[i + 2])) else Absent
  }

  lemma ViewIs(p: P, i: nat)
    requires PInv(p) && 2 <= i < |p.plist|
    ensures View(p, p.plist[i].va) == Held(Holds(p, p.plist[i]))
  {
    hide Inv, IsValid, Stacks, Slots, PageOk, Holds;
    var s := p.plist[2..];
    assert s[i - 2] == p.plist[i];
    FindVaIs(s, i - 2);
  }

  lemma FindVaIs(s: seq<Page>, i: nat)
    requires i < |s| && forall a, b :: 0 <= a < b < |s| ==> s[a].va != s[b].va
    ensures FindVa(s, s[i].va) == i
  {
  }

  lemma ViewFrom(p: P, va: nat) returns (i: nat)
    requires View(p, va).Held?
    ensures 2 <= i < |p.plist| && p.plist[i].va == va
  {
    i := FindVa(p.plist[2..], va) + 2;
  }

  /** Every page the process had is still there, with the same contents. */
  ghost predicate SameView(p: P, p1: P) {
    forall va :: View(p, va).Held? ==> View(p1, va) == View(p, va)
  }

  /** SameView, from the places of the pages on both lists. */
  lemma SameViewBy(p: P, p1: P, to: seq<nat>)
    requires PInv(p) && PInv(p1) && |to| == |p.plist|
    requires forall i :: 2 <= i < |p.plist| ==>
      2 <= to[i] < |p1.plist| && p1.plist[to[i]].va == p.plist[i].va && Holds(p1, p1.plist[to[i]]) == Holds(p, p.plist[i])
    ensures SameView(p, p1)
  {
    hide PInv, Holds, View;
    forall va | View(p, va).Held?
      ensures View(p1, va) == View(p, va)
    {
      var i := ViewFrom(p, va);
      ViewIs(p, i);
      ViewIs(p1, to[i]);
    }
  }

  lemma SameViewTrans(a: P, b: P, c: P)
    requires SameView(a, b) && SameView(b, c)
    ensures SameView(a, c)
  {
    hide View;
  }

  lemma DoSwapView(p: P)
    requires PInv(p)
    ensures PInv(DoSwap(p).0) && SameView(p, DoSwap(p).0)
  {
    hide PInv, Holds, View, DoSwap, Room;
    DoSwapKeeps(p);
    SameViewBy(p, DoSwap(p).0, seq(|p.plist|, i => i));
  }

  /** Where page k stands once page i of n has moved to the end. */
  function Moved(n: nat, i: nat, k: nat): nat
    requires i < n && k < n
  {
    if k == i then n - 1 else if k < i then k else k - 1
  }

  lemma SwapInAt(p: P, i: nat, k: nat)
    requires PInv(p) && 2 <= i < |p.plist| && p.plist[i].atds && 2 <= k < |p.plist|
    ensures p.plist[i].pte.Place? && Known(p.m, p.plist[i].pte.f) && p.plist[i].pte.i < ENTRIES && OnDisk(p.disk, p.plist[i].block, PAGE_SECTORS)
    ensures (var p1, j := SwapIn(p, i), Moved(|p.plist|, i, k);
      2 <= j < |p1.plist| && p1.plist[j].va == p.plist[k].va && Holds(p1, p1.plist[j]) == Holds(p, p.plist[k]))
  {
    hide PInv, Holds, SwapIn, Room, Known, OnDisk, OnlyAt;
    SwapInKeeps(p, i);
    var p1, j := SwapIn(p, i), Moved(|p.plist|, i, k);
    if k != i {
      assert k == if j < i then j else j + 1;
      assert Holds(p1, p1.plist[j]) == Holds(p, p.plist[if j < i then j else j + 1]);
    }
  }

  lemma SwapInView(p: P, i: nat)
    requires PInv(p) && 2 <= i < |p.plist| && p.plist[i].atds
    ensures p.plist[i].pte.Place? && Known(p.m, p.plist[i].pte.f) && p.plist[i].pte.i < ENTRIES && OnDisk(p.disk, p.plist[i].block, PAGE_SECTORS)
    ensures PInv(SwapIn(p, i)) && SameView(p, SwapIn(p, i))
  {
    hide PInv, Holds, View, SwapIn, Room, Known, OnDisk, OnlyAt, Moved, SameView;
    SwapInKeeps(p, i);
    var n := |p.plist|;
    var to := seq(n, k requires 0 <= k < n => Moved(n, i, k));
    forall k | 2 <= k < n
      ensures 2 <= to[k] < |SwapIn(p, i).plist| && SwapIn(p, i).plist[to[k]].va == p.plist[k].va
      ensures Holds(SwapIn(p, i), SwapIn(p, i).plist[to[k]]) == Holds(p, p.plist[k])
    {
      SwapInAt(p, i, k);
    }
    SameViewBy(p, SwapIn(p, i), to);
  }

  lemma AddPageView(p: P, stval: nat)
    requires PInv(p) && Fresh(p, stval) && Room(p.m) >= 3
    ensures Known(p.m, p.root)
    ensures PInv(AddPage(p, stval)) && SameView(p, AddPage(p, stval)) && View(AddPage(p, stval), PageOf(stval)) == Held(BlankPage())
  {
    hide PInv, Holds, View, AddPage, Room, Known, Fresh, At, IsValid;
    AddPageKeeps(p, stval);
    PlistTwo(p);
    var p1 := AddPage(p, stval);
    SameViewBy(p, p1, seq(|p.plist|, i => i));
    ViewIs(p1, |p.plist|);
  }

  lemma SetAccessView(p: P, stval: nat, bits: bv10)
    requires PInv(p) && Canonical(stval) && Own(p.m, p.root, stval) && CheckAd(p.m, p.root, stval).Place? && bits & PRESENT == 0
    ensures Known(p.m, CheckAd(p.m, p.root, stval).f) && CheckAd(p.m, p.root, stval).i < ENTRIES
    ensures (var p1 := SetAccess(p, CheckAd(p.m, p.root, stval), bits); PInv(p1) && SameView(p, p1))
  {
    hide PInv, Holds, View, Known, CheckAd, At, IsValid, Canonical;
    SetAccessKeeps(p, stval, bits);
    SameViewBy(p, SetAccess(p, CheckAd(p.m, p.root, stval), bits), seq(|p.plist|, i => i));
  }

  /** A page swapped in is not the one that goes next: it is last on the list, and alone there it is no victim. */
  lemma SwappedInStays(p: P, i: nat)
    requires PInv(p) && 2 <= i < |p.plist| && p.plist[i].atds
    ensures p.plist[i].pte.Place? && Known(p.m, p.plist[i].pte.f) && p.plist[i].pte.i < ENTRIES && OnDisk(p.disk, p.plist[i].block, PAGE_SECTORS)
    ensures (var p1 := SwapIn(p, i);
      PInv(p1) && IsValid(EntryOf(p1, p.plist[i].va)) &&
      (p1.pnum >= MAX_RESIDENT ==> IsValid(EntryOf(DoSwap(p1).0, p.plist[i].va))))
  {
    hide Inv, Holds, View, SwapIn, Room, Known, OnDisk, DoSwap, IsValid, At, Stacks, Slots, Vpn0, Vpn1, Vpn2, LinkOk, Canonical;
    SwapInKeeps(p, i);
    var p1, va := SwapIn(p, i), p.plist[i].va;
    var last := |p1.plist| - 1;
    assert PageOk(p1, p1.plist[last]);
    DoSwapKeeps(p1);
    if last == 2 {
      OneResident(p1.plist[2..]);
    } else if DoSwap(p1).1 == 1 {
      AlignedPage(va);
      AlignedPage(p1.plist[2].va);
      LeavesApart(p1, va, p1.plist[2].va);
      OwnLinks(p1.m, p1.root, va);
    }
  }

  lemma OneResident(s: seq<Page>)
    requires |s| == 1
    ensures Resident(s) <= 1
  {
    assert s[1..] == [];
  }

  /** Room for a new page is made without touching it. */
  lemma FreshAfterSwap(p: P, stval: nat)
    requires PInv(p) && Fresh(p, stval)
    ensures PInv(DoSwap(p).0) && Fresh(DoSwap(p).0, stval)
  {
    hide Inv, Holds, View, Room, DoSwap, IsValid, At, Stacks, Slots, Vpn0, Vpn1, Vpn2, LinkOk, PageOk, Resident;
    DoSwapKeeps(p);
    if DoSwap(p).1 == 1 {
      AlignedPage(p.plist[2].va);
      LeavesApart(p, stval, p.plist[2].va);
      OwnLinks(p.m, p.root, stval);
    }
  }

  /** Each handled fault keeps the list in order and leaves the faulting page mapped; every page keeps its
      contents, and a page seen for the first time is zero. */
  lemma FaultKeeps(p: P, stval: nat, bits: bv10)
    requires PInv(p) && Canonical(stval) && Own(p.m, p.root, stval) && Served(p, stval) && bits & PRESENT == 0
    ensures PInv(Fault(p, stval, bits)) && SameView(p, Fault(p, stval, bits))
    ensures IsValid(EntryOf(Fault(p, stval, bits), stval))
    ensures CheckAd(p.m, p.root, stval).Nowhere? && View(p, PageOf(stval)) == Absent ==>
      View(Fault(p, stval, bits), PageOf(stval)) == Held(BlankPage())
  {
    hide PInv, Inv, Holds, View, DoSwap, SwapIn, AddPage, SetAccess, IsValid, At, CheckAd, Known, OnDisk, OnlyAt, Room, SameView, FindSwapped, Fresh, Vpn0, Vpn1, Vpn2, Canonical, Own;
    if CheckAd(p.m, p.root, stval).Place? {
      SetAccessKeeps(p, stval, bits);
      SetAccessView(p, stval, bits);
    } else {
      FaultFinds(p, stval);
      FindSwappedIs(p.plist, PageOf(stval));
      var i := FindSwapped(p.plist, PageOf(stval));
      if i < |p.plist| {
        SwapInView(p, i);
        SwappedInStays(p, i);
        ViewIs(p, i);
        var p1 := SwapIn(p, i);
        DoSwapView(p1);
        SameViewTrans(p, p1, DoSwap(p1).0);
        SameRoot(p, i);
        LeavesSameOf(p1, stval);
        LeavesSameOf(DoSwap(p1).0, stval);
      } else {
        DoSwapKeeps(p);
        DoSwapView(p);
        FreshAfterSwap(p, stval);
        var p1 := if p.pnum >= MAX_RESIDENT then DoSwap(p).0 else p;
        SameViewSelf(p);
        AddPageView(p1, stval);
        AddPageKeeps(p1, stval);
        SameViewTrans(p, p1, AddPage(p1, stval));
      }
    }
  }

  lemma SameRoot(p: P, i: nat)
    requires PInv(p) && 2 <= i < |p.plist| && p.plist[i].atds
    requires p.plist[i].pte.Place? && Known(p.m, p.plist[i].pte.f) && p.plist[i].pte.i < ENTRIES && OnDisk(p.disk, p.plist[i].block, PAGE_SECTORS)
    ensures SwapIn(p, i).root == p.root
  {
  }

  lemma SameViewSelf(p: P)
    ensures SameView(p, p)
  {
  }
}
