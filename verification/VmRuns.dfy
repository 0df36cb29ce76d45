/** A process under demand paging sees flat memory: faults in any order, its own stores in between. */
module VmRuns {
  import opened VmMemory
  import opened VmMap
  import opened VmPaging

  datatype Event = LoadFault(va: nat) | StoreFault(va: nat) | Store(va: nat, b: byte)

  ghost predicate Enabled(p: P, e: Event)
    requires PInv(p)
  {
    && Canonical(e.va) && Own(p.m, p.root, e.va)
    && match e
       case LoadFault(va) => Served(p, va)
       case StoreFault(va) => Served(p, va)
       case Store(va, _) => CheckAd(p.m, p.root, va).Place? && InRam(EntryOf(p, va).ppn)
  }

  /** A store of one byte through the page table. */
  function Put(p: P, va: nat, b: byte): P
    requires Known(p.m, EntryOf(p, va).ppn)
  {
    var f := EntryOf(p, va).ppn;
    p.(m := p.m.(data := p.m.data[f := p.m.data[f][va % PAGE_SIZE := b]]))
  }

  lemma PutMemory(p: P, va: nat, b: byte)
    requires PInv(p) && Own(p.m, p.root, va) && InRam(EntryOf(p, va).ppn)
    ensures Known(p.m, EntryOf(p, va).ppn)
    ensures (var p1 := Put(p, va, b);
      Inv(p1.m) && p1.m.roots == p.m.roots && p1.m.shared == p.m.shared &&
      (forall x :: LinkOk(p.m, x) ==> At(p1.m, x) == At(p.m, x) && Node(p1.m, x) == Node(p.m, x)))
  {
    hide Inv, At, Node, LinkOk, Stacks, Listed, Slots, Vpn0, Vpn1, Vpn2, Room;
    var f := EntryOf(p, va).ppn;
    RamKnown(p.m, f);
    KnownSize(p.m, f);
    SetData(p.m, f, p.m.data[f][va % PAGE_SIZE := b]);
  }

  /** A store reaches the page it goes to and no other. */
  lemma PutPage(p: P, va: nat, b: byte, i: nat)
    requires PInv(p) && Canonical(va) && Own(p.m, p.root, va) && InRam(EntryOf(p, va).ppn) && IsValid(EntryOf(p, va)) && 2 <= i < |p.plist|
    ensures Known(p.m, EntryOf(p, va).ppn)
    ensures (var p1, x := Put(p, va, b), p.plist[i];
      PageOk(p1, x) &&
      (if x.va == PageOf(va) then |Holds(p, x)| == PAGE_SIZE && Holds(p1, x) == Holds(p, x)[va % PAGE_SIZE := b] else Holds(p1, x) == Holds(p, x)))
  {
    hide Inv, At, Node, LinkOk, Stacks, Slots, Vpn0, Vpn1, Vpn2, IsValid, Canonical, Room, Known;
    PutMemory(p, va, b);
    var p1, x, f := Put(p, va, b), p.plist[i], EntryOf(p, va).ppn;
    assert PageOk(p, x);
    OwnLinks(p.m, p.root, x.va);
    OwnLinks(p.m, p.root, va);
    RamKnown(p.m, x.f);
    KnownSize(p.m, x.f);
    AlignedPage(x.va);
    if x.va == PageOf(va) {
      LeavesSame(p, x.va, va);
    } else {
      LeavesApart(p, x.va, va);
      PtrAt(p.m, LeafAt(p, x.va));
      PtrAt(p.m, LeafAt(p, va));
      if x.f == f {
        OneTarget(p.m, LeafAt(p, x.va), LeafAt(p, va));
      }
      PageKept(p, p1, x);
    }
  }

  lemma PutKeeps(p: P, va: nat, b: byte)
    requires PInv(p) && Canonical(va) && Own(p.m, p.root, va) && InRam(EntryOf(p, va).ppn) && IsValid(EntryOf(p, va))
    ensures Known(p.m, EntryOf(p, va).ppn) && PInv(Put(p, va, b))
  {
    hide Inv, At, Node, LinkOk, Vpn0, Vpn1, Vpn2, IsValid, Canonical, PageOk, Holds, Known;
    PutMemory(p, va, b);
    var p1 := Put(p, va, b);
    forall i | 0 <= i < |p.plist|
      ensures i >= 2 ==> PageOk(p1, p.plist[i])
      ensures EntryOf(p1, p.plist[i].va) == EntryOf(p, p.plist[i].va)
    {
      OwnLinks(p.m, p.root, p.plist[i].va);
      if i >= 2 {
        PutPage(p, va, b, i);
      }
    }
  }

  lemma PutView(p: P, va: nat, b: byte, page: nat)
    requires PInv(p) && Canonical(va) && Own(p.m, p.root, va) && InRam(EntryOf(p, va).ppn) && IsValid(EntryOf(p, va))
    requires View(p, page).Held?
    ensures Known(p.m, EntryOf(p, va).ppn)
    ensures (var bytes := View(p, page).bytes;
      if page == PageOf(va) then |bytes| == PAGE_SIZE && View(Put(p, va, b), page) == Held(bytes[va % PAGE_SIZE := b])
      else View(Put(p, va, b), page) == Held(bytes))
  {
    hide PInv, View, Holds, At, IsValid, Canonical, Own, Known;
    PutKeeps(p, va, b);
    var i := ViewFrom(p, page);
    ViewIs(p, i);
    PutPage(p, va, b, i);
    ViewIs(Put(p, va, b), i);
  }

  lemma StoreValid(p: P, va: nat)
    requires PInv(p) && Own(p.m, p.root, va) && CheckAd(p.m, p.root, va).Place?
    ensures IsValid(EntryOf(p, va))
    ensures InRam(EntryOf(p, va).ppn) ==> Known(p.m, EntryOf(p, va).ppn)
  {
    hide CheckAd, Stacks, Listed, Slots;
    CheckAdIs(p.m, p.root, va);
    if InRam(EntryOf(p, va).ppn) {
      RamKnown(p.m, EntryOf(p, va).ppn);
    }
  }

  ghost function Apply(p: P, e: Event): P
    requires PInv(p)
  {
    if !Enabled(p, e) then p
    else
      match e
      case LoadFault(va) => Fault(p, va, ACCESSED)
      case StoreFault(va) => Fault(p, va, ACCESSED | DIRTY)
      case Store(va, b) => StoreValid(p, va); Put(p, va, b)
  }

  /** The bytes of a page after e, from those before it. */
  ghost function After(p: P, e: Event, page: nat, bytes: seq<byte>): seq<byte>
    requires PInv(p)
  {
    if e.Store? && Enabled(p, e) && PageOf(e.va) == page && |bytes| == PAGE_SIZE then bytes[e.va % PAGE_SIZE := e.b] else bytes
  }

  lemma ApplyKeeps(p: P, e: Event)
    requires PInv(p)
    ensures PInv(Apply(p, e))
    ensures forall page :: View(p, page).Held? ==> View(Apply(p, e), page) == Held(After(p, e, page, View(p, page).bytes))
  {
    hide PInv, View, Fault, At, IsValid, CheckAd, Canonical, Own, SameView, Known;
    FaultBits();
    if Enabled(p, e) {
      match e
      case LoadFault(va) =>
        FaultKeeps(p, va, ACCESSED);
        SameViewMeans(p, Fault(p, va, ACCESSED));
      case StoreFault(va) =>
        FaultKeeps(p, va, ACCESSED | DIRTY);
        SameViewMeans(p, Fault(p, va, ACCESSED | DIRTY));
      case Store(va, b) =>
        StoreValid(p, va);
        PutKeeps(p, va, b);
        forall page | View(p, page).Held?
          ensures View(Put(p, va, b), page) == Held(After(p, e, page, View(p, page).bytes))
        {
          PutView(p, va, b, page);
        }
    }
  }

  lemma SameViewMeans(p: P, p1: P)
    requires SameView(p, p1)
    ensures forall va :: View(p, va).Held? ==> View(p1, va) == View(p, va)
  {
  }

  ghost function Run(p: P, es: seq<Event>): (r: P)
    requires PInv(p)
    ensures PInv(r)
    decreases |es|
  {
    if es == [] then p else (ApplyKeeps(p, es[0]); Run(Apply(p, es[0]), es[1..]))
  }

  /** The stores of the run to one page, applied to its bytes as to flat memory. */
  ghost function Stored(p: P, es: seq<Event>, page: nat, bytes: seq<byte>): seq<byte>
    requires PInv(p)
    decreases |es|
  {
    if es == [] then bytes
    else (ApplyKeeps(p, es[0]); Stored(Apply(p, es[0]), es[1..], page, After(p, es[0], page, bytes)))
  }

  /** Over any run of faults and stores a page holds what it held at first with the stores to it applied,
      however often it went to disk and came back. */
  lemma {:induction false} PagingIsTransparent(p: P, es: seq<Event>, page: nat)
    requires PInv(p) && View(p, page).Held?
    ensures PInv(Run(p, es)) && View(Run(p, es), page) == Held(Stored(p, es, page, View(p, page).bytes))
    decreases |es|
  {
    hide PInv, View, Apply, After;
    if es != [] {
      ApplyKeeps(p, es[0]);
      PagingIsTransparent(Apply(p, es[0]), es[1..], page);
    }
  }

  lemma PageMeans(p: P, i: nat)
    requires PInv(p) && 2 <= i < |p.plist|
    ensures IsValid(EntryOf(p, p.plist[i].va)) <==> !p.plist[i].atds
    ensures p.plist[i].atds ==>
      SWAP_START <= p.plist[i].block && p.plist[i].block + PAGE_SECTORS <= p.swapBlock && p.plist[i].block % PAGE_SECTORS == 0
  {
    hide Inv, At, IsValid, Stacks, Slots;
    assert PageOk(p, p.plist[i]);
  }

  lemma SlotsApart(p: P, i: nat, j: nat)
    requires PInv(p) && 2 <= i < |p.plist| && 2 <= j < |p.plist| && i != j && p.plist[i].atds && p.plist[j].atds
    ensures p.plist[i].block + PAGE_SECTORS <= p.plist[j].block || p.plist[j].block + PAGE_SECTORS <= p.plist[i].block
  {
    hide Inv, At, IsValid, Stacks, Listed;
    PageMeans(p, i);
    PageMeans(p, j);
  }

  lemma CountMeans(p: P)
    requires PInv(p)
    ensures |p.plist| >= 2 && p.pnum == 2 + Resident(p.plist[2..])
  {
  }

  /** In every state a run reaches: the counter is two more than the pages in memory, a page is mapped exactly
      when it is in memory, and pages on disk own disjoint runs of eight sectors below the next free one. */
  lemma PagingState(p: P, es: seq<Event>, i: nat, j: nat)
    requires PInv(p)
    ensures (var r := Run(p, es);
      |r.plist| >= 2 && r.pnum == 2 + Resident(r.plist[2..]) &&
      (2 <= i < |r.plist| ==>
        (IsValid(EntryOf(r, r.plist[i].va)) <==> !r.plist[i].atds) &&
        (r.plist[i].atds ==> SWAP_START <= r.plist[i].block && r.plist[i].block + PAGE_SECTORS <= r.swapBlock)) &&
      (2 <= i < |r.plist| && 2 <= j < |r.plist| && i != j && r.plist[i].atds && r.plist[j].atds ==>
        r.plist[i].block + PAGE_SECTORS <= r.plist[j].block || r.plist[j].block + PAGE_SECTORS <= r.plist[i].block))
  {
    hide PInv, IsValid, At, Run;
    var r := Run(p, es);
    CountMeans(r);
    if 2 <= i < |r.plist| {
      PageMeans(r, i);
      if 2 <= j < |r.plist| && i != j && r.plist[i].atds && r.plist[j].atds {
        SlotsApart(r, i, j);
      }
    }
  }
}
