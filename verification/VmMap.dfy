/** Looking up and mapping pages through the three levels. */
module VmMap {
  import opened VmMemory

  datatype Place = Nowhere | Place(f: nat, i: nat)

  /** check_ad: the entry that maps va, when all three levels are valid. */
  function CheckAd(m: M, r: nat, va: nat): Place {
    var e2 := Entry(m, r, Vpn2(va));
    if !IsValid(e2) then Nowhere
    else
      var e1 := Entry(m, e2.ppn, Vpn1(va));
      if !IsValid(e1) then Nowhere
      else if !IsValid(Entry(m, e1.ppn, Vpn0(va))) then Nowhere
      else Place(e1.ppn, Vpn0(va))
  }

  function LeafOf(r: nat, va: nat): Link {
    Leaf(r, Vpn2(va), Vpn1(va), Vpn0(va))
  }

  /** va lies in a part of the address space of r that the kernel does not share. */
  predicate Own(m: M, r: nat, va: nat) {
    r in m.roots && Vpn2(va) !in m.shared
  }

  datatype Mapping = Unmapped | Mapped(e: Pte)

  /** What the hardware finds for va. */
  function Lookup(m: M, r: nat, va: nat): Mapping {
    match CheckAd(m, r, va)
    case Nowhere => Unmapped
    case Place(f, i) => Mapped(Entry(m, f, i))
  }

  lemma NoneInvalid()
    ensures !IsValid(NONE)
  {
  }

  /** The walk of check_ad finds the leaf entry of va, exactly when that is valid. */
  lemma CheckAdIs(m: M, r: nat, va: nat)
    requires Inv(m) && Own(m, r, va)
    ensures LinkOk(m, LeafOf(r, va))
    ensures CheckAd(m, r, va).Place? <==> IsValid(At(m, LeafOf(r, va)))
    ensures CheckAd(m, r, va).Place? ==>
      CheckAd(m, r, va) == Place(Node(m, LeafOf(r, va)), Vpn0(va)) && Node(m, LeafOf(r, va)) != 0 &&
      Lookup(m, r, va) == Mapped(At(m, LeafOf(r, va)))
  {
    hide Inv, IsValid, Entry;
    var i, j, k := Vpn2(va), Vpn1(va), Vpn0(va);
    NoneInvalid();
    WalkStep(m, Top(r, i));
    WalkStep(m, Mid(r, i, j));
    LinkRoot(m, Top(r, i));
  }

  lemma WalkStep(m: M, l: Link)
    requires Inv(m) && LinkOk(m, l) && !l.Leaf?
    ensures IsValid(At(m, l)) <==> At(m, l).ppn != 0
  {
    assert TargetOk(m, l);
    NoneInvalid();
  }

  // ---------- alloc_page_helper ----------

  function TableBits(mode: int): bv10 {
    if mode == 1 then USER | PRESENT else PRESENT
  }

  function LeafBits(mode: int): bv10 {
    if mode == 1 then PRESENT | READ | WRITE | EXEC | USER else PRESENT | READ | WRITE | EXEC
  }

  lemma BitsValid(mode: int)
    ensures TableBits(mode) & PRESENT != 0 && LeafBits(mode) & PRESENT != 0
  {
  }

  /** No page in use has other contents. */
  ghost predicate SamePages(m: M, m1: M) {
    forall x :: LinkOk(m, x) && InRam(Ptr(m, x)) ==>
      Known(m, Ptr(m, x)) && Known(m1, Ptr(m, x)) && m1.data[Ptr(m, x)] == m.data[Ptr(m, x)]
  }

  lemma PagesKnown(m: M, x: Link)
    requires Inv(m) && LinkOk(m, x) && InRam(Ptr(m, x))
    ensures Known(m, Ptr(m, x))
  {
    assert TargetOk(m, x);
  }

  /** One allocation leaves the pages in use alone. */
  lemma AllocSamePages(m: M)
    requires Inv(m) && Room(m) > 0
    ensures SamePages(m, AllocPage(m))
  {
    hide Inv, Ptr, LinkOk;
    AllocKeeps(m);
    NextFrameFree(m);
    forall x | LinkOk(m, x) && InRam(Ptr(m, x))
      ensures Known(m, Ptr(m, x)) && Known(AllocPage(m), Ptr(m, x)) && AllocPage(m).data[Ptr(m, x)] == m.data[Ptr(m, x)]
    {
      PagesKnown(m, x);
    }
  }

  lemma FillSamePages(m: M, l: Link, e: Pte)
    requires Inv(m) && Known(m, Node(m, l)) && Slot(l) < ENTRIES
    ensures SamePages(m, Fill(m, l, e))
  {
    hide Inv, Ptr, LinkOk;
    forall x | LinkOk(m, x) && InRam(Ptr(m, x))
      ensures Known(m, Ptr(m, x)) && Known(Fill(m, l, e), Ptr(m, x)) && Fill(m, l, e).data[Ptr(m, x)] == m.data[Ptr(m, x)]
    {
      PagesKnown(m, x);
    }
  }

  lemma SamePagesTrans(a: M, b: M, c: M)
    requires SamePages(a, b) && SamePages(b, c)
    requires forall x :: LinkOk(a, x) && InRam(Ptr(a, x)) ==> LinkOk(b, x) && Ptr(b, x) == Ptr(a, x)
    ensures SamePages(a, c)
  {
    hide Ptr, LinkOk, Known;
  }

  /** A new table is linked in at l unless one is there. */
  function EnsureTable(m: M, l: Link, bits: bv10): (r: M)
    requires Known(m, Node(m, l)) && Slot(l) < ENTRIES && (IsValid(At(m, l)) || Room(m) > 0)
  {
    if IsValid(At(m, l)) then m
    else
      var m1 := AllocPage(m);
      if Known(m1, Node(m1, l)) then Fill(m1, l, SetAttribute(Pte(NextFrame(m), 0), bits)) else m1
  }

  lemma EnsureKeeps(m: M, l: Link, bits: bv10)
    requires Inv(m) && LinkOk(m, l) && !l.Leaf? && Node(m, l) != 0 && (IsValid(At(m, l)) || Room(m) > 0) && bits & PRESENT != 0
    ensures Known(m, Node(m, l)) && Slot(l) < ENTRIES
    ensures var r := EnsureTable(m, l, bits);
      Inv(r) && IsValid(At(r, l)) && Ptr(r, l) != 0 && Room(r) >= Room(m) - 1 && r.roots == m.roots && r.shared == m.shared
    ensures forall x :: LinkOk(m, x) && x != l ==> At(EnsureTable(m, l, bits), x) == At(m, x)
    ensures IsValid(At(m, l)) ==> EnsureTable(m, l, bits) == m
    ensures SamePages(m, EnsureTable(m, l, bits))
  {
    hide Inv, Fill, AllocPage, At, Node, Known, LinkOk, Loose, Blank;
    NodeIsPtr(m, l);
    SlotRange(m, l);
    if IsValid(At(m, l)) {
      WalkStep(m, l);
      SamePagesSelf(m);
    } else {
      NewTableKeeps(m, l, bits);
    }
  }

  lemma NewTableKeeps(m: M, l: Link, bits: bv10)
    requires Inv(m) && LinkOk(m, l) && !l.Leaf? && Node(m, l) != 0 && !IsValid(At(m, l)) && Room(m) > 0 && bits & PRESENT != 0
    ensures Known(AllocPage(m), Node(AllocPage(m), l)) && Slot(l) < ENTRIES
    ensures (var r := Fill(AllocPage(m), l, SetAttribute(Pte(NextFrame(m), 0), bits));
      Inv(r) && IsValid(At(r, l)) && At(r, l).ppn != 0 && Room(r) == Room(m) - 1 && r.roots == m.roots && r.shared == m.shared &&
      SamePages(m, r) && forall x :: LinkOk(m, x) && x != l ==> At(r, x) == At(m, x))
  {
    hide Inv, Fill, AllocPage, At, Node, Known, LinkOk, Loose, Blank, Ptr, Room, IsValid, SamePages, SetAttribute;
    var m1, f := AllocPage(m), NextFrame(m);
    var e := SetAttribute(Pte(f, 0), bits);
    SlotRange(m, l);
    AllocSamePages(m);
    AllocKeeps(m);
    AllocSame(m, l);
    ValidAttribute(Pte(f, 0), bits);
    AttributePpn(Pte(f, 0), bits);
    WalkStep(m, l);
    LooseRange(m1, f);
    NodeIsPtr(m1, l);
    AllocRest(m);
    PtrAt(m1, l);
    assert MayFill(m1, l, e);
    FillKeeps(m1, l, e);
    FillRest(m1, l, e);
    FillRoom(m1, l, e);
    FillSamePages(m1, l, e);
    PtrsAt(m, m1);
    SamePagesTrans(m, m1, Fill(m1, l, e));
  }

  lemma AttributePpn(e: Pte, bits: bv10)
    ensures SetAttribute(e, bits).ppn == e.ppn
  {
  }

  lemma SamePagesSelf(m: M)
    requires Inv(m)
    ensures SamePages(m, m)
  {
    hide Inv, Ptr, LinkOk;
    forall x | LinkOk(m, x) && InRam(Ptr(m, x))
      ensures Known(m, Ptr(m, x))
    {
      PagesKnown(m, x);
    }
  }

  lemma PtrsAt(m: M, m1: M)
    ensures forall x :: At(m, x) == At(m1, x) ==> Ptr(m, x) == Ptr(m1, x)
  {
  }

  /** alloc_page_helper: the new memory and the kernel's address of the page, or 0 when va was mapped. */
  function MapPage(m: M, r: nat, va: nat, mode: int): (M, nat)
    requires Room(m) >= 3 && Known(m, r)
  {
    var i, j, k := Vpn2(va), Vpn1(va), Vpn0(va);
    var m1 := EnsureTable(m, Top(r, i), TableBits(mode));
    if !(Known(m1, Node(m1, Mid(r, i, j))) && Room(m1) >= 2) then (m1, 0)
    else
      var m2 := EnsureTable(m1, Mid(r, i, j), TableBits(mode));
      if !(Known(m2, Node(m2, Leaf(r, i, j, k))) && Room(m2) >= 1) then (m2, 0)
      else if IsValid(At(m2, Leaf(r, i, j, k))) then (m2, 0)
      else
        var m3, f := AllocPage(m2), NextFrame(m2);
        if !Known(m3, Node(m3, Leaf(r, i, j, k))) then (m3, 0)
        else (Fill(m3, Leaf(r, i, j, k), SetAttribute(SetPfn(f), LeafBits(mode))), KvaOf(f))
  }

  /** What mapping va in r has done to memory: the page is there, zeroed and nobody else's, and every other
      address of every process is translated as before, to a page with the same contents. */
  ghost predicate MappedPage(m: M, m1: M, r: nat, va: nat, f: nat, bits: bv10) {
    && Inv(m1) && m1.roots == m.roots && m1.shared == m.shared
    && At(m1, LeafOf(r, va)) == Pte(f, bits)
    && InRam(f) && Known(m1, f) && m1.data[f] == BlankPage()
    && f !in m.roots && (forall x :: LinkOk(m, x) ==> Ptr(m, x) != f)
    && (forall x :: LinkOk(m, x) && x.Leaf? && x != LeafOf(r, va) ==> At(m1, x) == At(m, x))
    && (forall x :: LinkOk(m, x) && InRam(Ptr(m, x)) && x != LeafOf(r, va) ==>
         Ptr(m1, x) == Ptr(m, x) && Known(m, Ptr(m, x)) && Known(m1, Ptr(m, x)) && m1.data[Ptr(m, x)] == m.data[Ptr(m, x)])
  }

  /** Both tables above va exist. */
  predicate HasTables(m: M, r: nat, va: nat) {
    IsValid(At(m, Top(r, Vpn2(va)))) && IsValid(At(m, Mid(r, Vpn2(va), Vpn1(va))))
  }

  /** How many of them are missing. */
  function Lacking(m: M, r: nat, va: nat): (n: nat)
    ensures n <= 2 && (n == 0 <==> HasTables(m, r, va))
  {
    if !IsValid(At(m, Top(r, Vpn2(va)))) then 2 else if !IsValid(At(m, Mid(r, Vpn2(va), Vpn1(va)))) then 1 else 0
  }

  /** Both levels of tables above va, made where they are missing. */
  lemma TablesFor(m: M, r: nat, va: nat, bits: bv10)
    requires Inv(m) && Own(m, r, va) && Room(m) >= Lacking(m, r, va) && bits & PRESENT != 0
    ensures Known(m, r)
    ensures (var i, j, k := Vpn2(va), Vpn1(va), Vpn0(va);
      var m1 := EnsureTable(m, Top(r, i), bits);
      Known(m1, Node(m1, Mid(r, i, j))) && Room(m1) >= Room(m) - 1 && (IsValid(At(m1, Mid(r, i, j))) || Room(m1) > 0) &&
      (var m2 := EnsureTable(m1, Mid(r, i, j), bits);
       Inv(m2) && Known(m2, Node(m2, Leaf(r, i, j, k))) && Node(m2, Leaf(r, i, j, k)) != 0 &&
       Room(m2) >= Room(m) - Lacking(m, r, va) &&
       m2.roots == m.roots && m2.shared == m.shared &&
       SamePages(m, m2) && (IsValid(At(m, Leaf(r, i, j, k))) ==> m2 == m) &&
       (forall x :: LinkOk(m, x) && InRam(Ptr(m, x)) ==> Ptr(m2, x) == Ptr(m, x)) &&
       (forall x :: LinkOk(m, x) && x.Leaf? ==> At(m2, x) == At(m, x))))
  {
    hide Inv, At, Known, LinkOk, EnsureTable, IsValid, SamePages, Room;
    var i, j, k := Vpn2(va), Vpn1(va), Vpn0(va);
    OwnLinks(m, r, va);
    LinkRoot(m, Top(r, i));
    EnsureKeeps(m, Top(r, i), bits);
    var m1 := EnsureTable(m, Top(r, i), bits);
    OwnLinks(m1, r, va);
    NodeAbove(m1, Mid(r, i, j));
    NodeIsPtr(m1, Mid(r, i, j));
    EnsureKeeps(m1, Mid(r, i, j), bits);
    var m2 := EnsureTable(m1, Mid(r, i, j), bits);
    OwnLinks(m2, r, va);
    NodeAbove(m2, Leaf(r, i, j, k));
    NodeIsPtr(m2, Leaf(r, i, j, k));
    SameLinks(m, m1);
    SameLinks(m, m2);
    EmptyPtr(m, Top(r, i), m1);
    EmptyPtr(m1, Mid(r, i, j), m2);
    SamePagesTrans(m, m1, m2);
    if IsValid(At(m, LeafOf(r, va))) {
      ValidAbove(m, r, va);
    }
  }

  lemma OwnLinks(m: M, r: nat, va: nat)
    requires r in m.roots && Vpn2(va) !in m.shared
    ensures LinkOk(m, Top(r, Vpn2(va))) && LinkOk(m, Mid(r, Vpn2(va), Vpn1(va))) && LinkOk(m, LeafOf(r, va))
  {
  }

  lemma SameLinks(m: M, m1: M)
    requires m1.roots == m.roots && m1.shared == m.shared
    ensures forall x :: LinkOk(m1, x) <==> LinkOk(m, x)
  {
  }

  /** Only an empty entry was filled, so pointers in use are as before. */
  lemma EmptyPtr(m: M, l: Link, m1: M)
    requires Inv(m) && LinkOk(m, l) && !l.Leaf? && (IsValid(At(m, l)) ==> m1 == m)
    requires forall x :: LinkOk(m, x) && x != l ==> At(m1, x) == At(m, x)
    ensures forall x :: LinkOk(m, x) && InRam(Ptr(m, x)) ==> Ptr(m1, x) == Ptr(m, x)
  {
    WalkStep(m, l);
  }

  /** A valid leaf has valid tables above it. */
  lemma ValidAbove(m: M, r: nat, va: nat)
    requires Inv(m) && Own(m, r, va) && IsValid(At(m, LeafOf(r, va)))
    ensures IsValid(At(m, Top(r, Vpn2(va)))) && IsValid(At(m, Mid(r, Vpn2(va), Vpn1(va))))
  {
    hide IsValid, Entry, Inv, LinkOk;
    OwnLinks(m, r, va);
    NoneInvalid();
    WalkStep(m, Top(r, Vpn2(va)));
    WalkStep(m, Mid(r, Vpn2(va), Vpn1(va)));
    LinkRoot(m, Top(r, Vpn2(va)));
  }

  lemma SetPfnSmall(f: nat, bits: bv10)
    requires InRam(f)
    ensures SetAttribute(SetPfn(f), bits) == Pte(f, bits)
  {
    OrZero(bits);
  }

  lemma OrZero(bits: bv10)
    ensures 0 | bits == bits
  {
  }

  /** The last step of alloc_page_helper. */
  lemma LeafKeeps(m: M, r: nat, va: nat, bits: bv10)
    requires Inv(m) && Own(m, r, va) && Room(m) >= 1 && Node(m, LeafOf(r, va)) != 0 && bits & PRESENT != 0
    ensures Known(AllocPage(m), Node(AllocPage(m), LeafOf(r, va)))
    ensures MappedPage(m, Fill(AllocPage(m), LeafOf(r, va), SetAttribute(SetPfn(NextFrame(m)), bits)), r, va, NextFrame(m), bits)
  {
    hide Inv, At, Known, LinkOk, Fill, AllocPage, IsValid, Loose, Node;
    var l, f, m1 := LeafOf(r, va), NextFrame(m), AllocPage(m);
    OwnLinks(m, r, va);
    SlotRange(m, l);
    AllocKeeps(m);
    AllocRest(m);
    AllocSame(m, l);
    NextFrameFree(m);
    SetPfnSmall(f, bits);
    NodeIsPtr(m1, l);
    LooseRange(m1, f);
    var e := Pte(f, bits);
    assert MayFill(m1, l, e);
    FillKeeps(m1, l, e);
    FillRest(m1, l, e);
    AllocSamePages(m);
    PtrsAt(m, m1);
    BlankKnown(m1, f);
    FillKnown(m1, l, e);
  }

  lemma LooseRange(m: M, f: nat)
    requires Loose(m, f)
    ensures f >= FIRST_FRAME
  {
  }

  lemma BlankKnown(m: M, f: nat)
    requires Blank(m, f)
    ensures Known(m, f) && m.data[f] == BlankPage()
  {
  }

  lemma FillKnown(m: M, l: Link, e: Pte)
    requires Known(m, Node(m, l)) && Slot(l) < ENTRIES
    ensures forall g :: Known(m, g) ==> Known(Fill(m, l, e), g)
  {
  }

  /** alloc_page_helper returns 0 exactly when va was mapped, and then changes nothing; otherwise va is mapped
      to a fresh zeroed page, every other address of every process is translated as before, and no page in use
      has other contents. */
  lemma MapPageMaps(m: M, r: nat, va: nat, mode: int)
    requires Inv(m) && Own(m, r, va) && Room(m) >= 3
    ensures Known(m, r)
    ensures MapPage(m, r, va, mode).1 == 0 <==> IsValid(At(m, LeafOf(r, va)))
    ensures MapPage(m, r, va, mode).1 == 0 ==> MapPage(m, r, va, mode).0 == m
    ensures Room(MapPage(m, r, va, mode).0) >= Room(m) - 3
    ensures MapPage(m, r, va, mode).1 != 0 ==>
      MappedPage(m, MapPage(m, r, va, mode).0, r, va, FrameOf(MapPage(m, r, va, mode).1), LeafBits(mode))
  {
    hide Inv, At, Known, LinkOk, EnsureTable, IsValid, SamePages, TableBits, LeafBits, AllocPage, Fill, MappedPage;
    BitsValid(mode);
    TablesFor(m, r, va, TableBits(mode));
    OwnLinks(m, r, va);
    var i, j, k := Vpn2(va), Vpn1(va), Vpn0(va);
    var m1 := EnsureTable(m, Top(r, i), TableBits(mode));
    var m2 := EnsureTable(m1, Mid(r, i, j), TableBits(mode));
    if !IsValid(At(m2, LeafOf(r, va))) {
      var f := NextFrame(m2);
      LeafKeeps(m2, r, va, LeafBits(mode));
      NextFrameFree(m2);
      KvaRoundTrip(f);
      FillRoom(AllocPage(m2), LeafOf(r, va), SetAttribute(SetPfn(f), LeafBits(mode)));
      MappedVia(m, m2, MapPage(m, r, va, mode).0, r, va, f, LeafBits(mode));
    }
  }

  lemma FillRoom(m: M, l: Link, e: Pte)
    requires Known(m, Node(m, l)) && Slot(l) < ENTRIES
    ensures Room(Fill(m, l, e)) == Room(m)
  {
  }

  lemma MappedVia(m: M, m2: M, m3: M, r: nat, va: nat, f: nat, bits: bv10)
    requires MappedPage(m2, m3, r, va, f, bits) && SamePages(m, m2)
    requires m2.roots == m.roots && m2.shared == m.shared && InRam(f)
    requires forall x :: LinkOk(m, x) && InRam(Ptr(m, x)) ==> Ptr(m2, x) == Ptr(m, x)
    requires forall x :: LinkOk(m, x) && x.Leaf? ==> At(m2, x) == At(m, x)
    ensures MappedPage(m, m3, r, va, f, bits)
  {
    hide Inv, At, Known, LinkOk, IsValid, Room, Ptr;
    SameLinks(m, m2);
  }

  /** The same in the hardware's terms: va now leads to the page returned, and no other address of any process
      leads anywhere else than before. */
  lemma MapThenLookup(m: M, r: nat, va: nat, mode: int)
    requires Inv(m) && Own(m, r, va) && Room(m) >= 3
    ensures Known(m, r)
    ensures MapPage(m, r, va, mode).1 != 0 <==> Lookup(m, r, va) == Unmapped
    ensures MapPage(m, r, va, mode).1 != 0 ==>
      Lookup(MapPage(m, r, va, mode).0, r, va) == Mapped(Pte(FrameOf(MapPage(m, r, va, mode).1), LeafBits(mode)))
    ensures forall r2, va2: nat :: Own(m, r2, va2) && (r2 != r || PageNo(va2) != PageNo(va)) ==>
      Lookup(MapPage(m, r, va, mode).0, r2, va2) == Lookup(m, r2, va2)
  {
    hide Inv, At, Known, LinkOk, MapPage, IsValid, LeafBits, CheckAd;
    MapPageMaps(m, r, va, mode);
    CheckAdIs(m, r, va);
    LookupIs(m, r, va);
    var m1, f := MapPage(m, r, va, mode).0, FrameOf(MapPage(m, r, va, mode).1);
    if MapPage(m, r, va, mode).1 != 0 {
      BitsValid(mode);
      ValidBits(f, LeafBits(mode));
      LookupIs(m1, r, va);
      forall r2, va2: nat | Own(m, r2, va2) && (r2 != r || PageNo(va2) != PageNo(va))
        ensures Lookup(m1, r2, va2) == Lookup(m, r2, va2)
      {
        PageNoSplits(va);
        PageNoSplits(va2);
        OwnLinks(m, r2, va2);
        LookupIs(m, r2, va2);
        LookupIs(m1, r2, va2);
      }
    }
  }

  lemma ValidBits(f: nat, bits: bv10)
    ensures IsValid(Pte(f, bits)) <==> bits & PRESENT != 0
  {
  }

  lemma LookupIs(m: M, r: nat, va: nat)
    requires Inv(m) && Own(m, r, va)
    ensures Lookup(m, r, va) == if IsValid(At(m, LeafOf(r, va))) then Mapped(At(m, LeafOf(r, va))) else Unmapped
  {
    hide Inv, IsValid, At, CheckAd, Node;
    CheckAdIs(m, r, va);
    LookupPlace(m, r, va);
  }

  lemma LookupPlace(m: M, r: nat, va: nat)
    ensures CheckAd(m, r, va).Nowhere? ==> Lookup(m, r, va) == Unmapped
  {
  }

  // ---------- Pages given back ----------

  function FreeAll(m: M, fs: seq<nat>): M
    decreases |fs|
  {
    if fs == [] then m else FreeAll(FreePage(m, fs[0]), fs[1..])
  }

  /** Frames that may be given back: nothing that lives leads to them. */
  ghost predicate Garbage(m: M, fs: seq<nat>) {
    && (forall i, j :: 0 <= i < j < |fs| ==> fs[i] != fs[j])
    && forall i :: 0 <= i < |fs| ==> Loose(m, fs[i])
  }

  lemma {:induction false} FreeAllKeeps(m: M, fs: seq<nat>)
    requires Inv(m) && Garbage(m, fs)
    ensures Inv(FreeAll(m, fs)) && FreeAll(m, fs).free == m.free + fs
    decreases |fs|
  {
    hide LinkOk, At, Node, Ptr;
    if fs != [] {
      var m1 := FreePage(m, fs[0]);
      FreeSame(m, fs[0]);
      assert forall l :: LinkOk(m1, l) <==> LinkOk(m, l);
      forall l | LinkOk(m1, l)
        ensures TargetOk(m1, l)
      {
        assert TargetOk(m, l);
      }
      assert Known(m, fs[0]) && Known(m1, fs[0]);
      FreeAllKeeps(m1, fs[1..]);
      assert m.free + [fs[0]] + fs[1..] == m.free + fs;
    }
  }

  lemma FreeSame(m: M, f: nat)
    ensures forall l :: (LinkOk(FreePage(m, f), l) <==> LinkOk(m, l)) && At(FreePage(m, f), l) == At(m, l) && Ptr(FreePage(m, f), l) == Ptr(m, l)
    ensures forall g :: Known(FreePage(m, f), g) <==> Known(m, g)
  {
  }

  /** When a process ends, its pages can be given back: no other process reaches any of them. */
  lemma ExitGarbage(m: M, r: nat, ls: seq<Link>, fs: seq<nat>)
    requires Inv(m) && r in m.roots && |ls| == |fs|
    requires forall i, j :: 0 <= i < j < |ls| ==> ls[i] != ls[j]
    requires forall i :: 0 <= i < |ls| ==> LinkOk(m, ls[i]) && ls[i].r == r && Ptr(m, ls[i]) == fs[i] && InRam(fs[i])
    ensures var m1 := m.(roots := m.roots - {r}); Inv(m1) && Garbage(m1, fs)
  {
    hide At, Node;
    var m1 := m.(roots := m.roots - {r});
    RootGone(m, r);
    forall l | LinkOk(m1, l)
      ensures TargetOk(m1, l)
    {
      assert TargetOk(m, l);
    }
    forall i | 0 <= i < |fs|
      ensures Loose(m1, fs[i])
    {
      assert TargetOk(m, ls[i]);
    }
  }

  lemma RootGone(m: M, r: nat)
    ensures var m1 := m.(roots := m.roots - {r});
      forall l :: (LinkOk(m1, l) <==> LinkOk(m, l) && l.r != r) && At(m1, l) == At(m, l) && Ptr(m1, l) == Ptr(m, l)
    ensures forall g :: Known(m.(roots := m.roots - {r}), g) <==> Known(m, g)
  {
  }
}
