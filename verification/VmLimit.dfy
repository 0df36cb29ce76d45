/** The limit of four pages: when it holds, and when it does not. */
module VmLimit {
  import opened VmMemory
  import opened VmMap
  import opened VmPaging
  import opened VmFlat
  import opened VmRuns

  /** The first page of the list, that page left aside, is on disk. */
  predicate FrontAway(s: seq<Page>, page: nat) {
    if s == [] then false else if s[0].va == page then FrontAway(s[1..], page) else s[0].atds
  }

  /** A fault on a page that is not mapped, when four pages are and the one that do_swap would take is on disk. */
  ghost predicate Overfills(p: P, e: Event)
    requires PInv(p)
  {
    && Enabled(p, e) && !e.Store? && CheckAd(p.m, p.root, e.va).Nowhere?
    && p.pnum >= 4 && |p.plist| >= 2 && FrontAway(p.plist[2..], PageOf(e.va))
  }

  lemma DoSwapCount(p: P)
    requires PInv(p)
    ensures |p.plist| >= 2 && |DoSwap(p).0.plist| == |p.plist|
    ensures var p1 := DoSwap(p).0;
      if |p.plist| > 2 && !p.plist[2].atds then
        p1.pnum == p.pnum - 1 && p1.plist[2].atds && forall i :: 3 <= i < |p.plist| ==> p1.plist[i] == p.plist[i]
      else p1 == p
  {
    hide PInv, CheckAd, Known, WriteSectors, SetEntry, ClearValid, Entry;
    VictimKnown(p);
    VictimIsFirst(p);
    PlistTwo(p);
  }

  /** How many pages in memory a handled fault leaves. */
  lemma FaultCount(p: P, stval: nat, bits: bv10)
    requires PInv(p) && Canonical(stval) && Own(p.m, p.root, stval) && Served(p, stval) && FaultOnly(bits)
    ensures |p.plist| >= 2
    ensures var at, n, away := CheckAd(p.m, p.root, stval), Fault(p, stval, bits).pnum, FrontAway(p.plist[2..], PageOf(stval));
      if at.Place? then n == p.pnum
      else if FindSwapped(p.plist, PageOf(stval)) < |p.plist| then n == if p.pnum >= 3 && !away then p.pnum else p.pnum + 1
      else n == if p.pnum >= 4 && !away then p.pnum else p.pnum + 1
  {
    hide PInv, DoSwap, SwapIn, AddPage, IsValid, At, CheckAd, Known, OnDisk, OnlyAt, Room, FindSwapped, Fresh, Canonical, Own, Resident, FrontAway;
    CountMeans(p);
    if CheckAd(p.m, p.root, stval).Nowhere? {
      FaultFinds(p, stval);
      FindSwappedIs(p.plist, PageOf(stval));
      var i := FindSwapped(p.plist, PageOf(stval));
      if i < |p.plist| {
        SwapInKeeps(p, i);
        DoSwapCount(SwapIn(p, i));
        SwapInFront(p, i);
      } else {
        DoSwapKeeps(p);
        DoSwapCount(p);
        NewFront(p, stval);
        FreshAfterSwap(p, stval);
        var p1 := if p.pnum >= MAX_RESIDENT then DoSwap(p).0 else p;
        RootIsKnown(p1);
        AddPageList(p1, stval);
      }
    }
  }

  /** The bits of a fault do not include the one that makes a page valid. */
  predicate FaultOnly(bits: bv10) {
    bits & PRESENT == 0
  }

  lemma AddPageList(p: P, stval: nat)
    requires Room(p.m) >= 3 && Known(p.m, p.root)
    ensures AddPage(p, stval).pnum == p.pnum + 1 && |AddPage(p, stval).plist| == |p.plist| + 1
    ensures var p1 := AddPage(p, stval);
      (forall i :: 0 <= i < |p.plist| ==> p1.plist[i] == p.plist[i]) && !p1.plist[|p.plist|].atds
  {
    hide Room, Known, MapPage;
  }

  /** With a page in memory that is not new, the front of the list is a page. */
  lemma NewFront(p: P, stval: nat)
    requires PInv(p) && Fresh(p, stval)
    ensures |p.plist| >= 2 && (p.pnum >= 4 ==> |p.plist| > 2)
    ensures FrontAway(p.plist[2..], PageOf(stval)) <==> |p.plist| > 2 && p.plist[2].atds
  {
    hide Inv, Stacks, Listed, Slots, Canonical, Own, IsValid;
    PlistTwo(p);
    if p.plist[2..] != [] {
      assert p.plist[2..][0] == p.plist[2];
    }
  }

  lemma FrontStep(s: seq<Page>, page: nat)
    requires s != []
    ensures FrontAway(s, page) == if s[0].va == page then FrontAway(s[1..], page) else s[0].atds
  {
  }

  lemma FrontNone(page: nat)
    ensures !FrontAway([], page)
  {
  }

  lemma DistinctVas(p: P, i: nat, j: nat)
    requires PInv(p) && i < |p.plist| && j < |p.plist| && i != j
    ensures p.plist[i].va != p.plist[j].va
  {
    hide Inv, Stacks, Slots;
  }

  /** The page that do_swap would take once page i is back in memory. */
  lemma SwapInFront(p: P, i: nat)
    requires PInv(p) && 2 <= i < |p.plist| && p.plist[i].atds
    ensures p.plist[i].pte.Place? && Known(p.m, p.plist[i].pte.f) && p.plist[i].pte.i < ENTRIES && OnDisk(p.disk, p.plist[i].block, PAGE_SECTORS)
    ensures |SwapIn(p, i).plist| > 2 && SwapIn(p, i).pnum == p.pnum + 1
    ensures FrontAway(p.plist[2..], p.plist[i].va) <==> SwapIn(p, i).plist[2].atds
  {
    hide PInv, SwapIn, FrontAway, Known, OnDisk, Holds, OnlyAt, Room;
    SwapInKeeps(p, i);
    var s, page := p.plist[2..], p.plist[i].va;
    assert s[0] == p.plist[2];
    FrontStep(s, page);
    if i == 2 {
      if |p.plist| > 3 {
        assert s[1..][0] == p.plist[3];
        DistinctVas(p, 2, 3);
        FrontStep(s[1..], page);
      } else {
        assert s[1..] == [];
        FrontNone(page);
      }
    } else {
      DistinctVas(p, 2, i);
    }
  }

  /** One event more: four pages at most stay four at most, if and only if the event does not overfill. */
  lemma StepLimit(p: P, e: Event)
    requires PInv(p) && p.pnum <= 4
    ensures Apply(p, e).pnum <= 4 <==> !Overfills(p, e)
  {
    hide PInv, Fault, At, CheckAd, Canonical, Own, Known, Served, FrontAway, FindSwapped, IsValid;
    if Enabled(p, e) {
      FaultBitsOnly();
      match e
      case LoadFault(va) => FaultCount(p, va, ACCESSED);
      case StoreFault(va) => FaultCount(p, va, ACCESSED | DIRTY);
      case Store(va, b) => StoreValid(p, va);
    }
  }

  lemma FaultBitsOnly()
    ensures FaultOnly(ACCESSED) && FaultOnly(ACCESSED | DIRTY)
  {
  }

  ghost predicate WithinLimit(p: P, es: seq<Event>)
    requires PInv(p)
    decreases |es|
  {
    p.pnum <= 4 && (es == [] || (ApplyKeeps(p, es[0]); WithinLimit(Apply(p, es[0]), es[1..])))
  }

  ghost predicate NeverOverfills(p: P, es: seq<Event>)
    requires PInv(p)
    decreases |es|
  {
    es == [] || (!Overfills(p, es[0]) && (ApplyKeeps(p, es[0]); NeverOverfills(Apply(p, es[0]), es[1..])))
  }

  /** A process has at most four pages in every state of a run if and only if no event of the run comes when it has four
      and the first page of its list is on disk. */
  lemma {:induction false} LimitIff(p: P, es: seq<Event>)
    requires PInv(p) && p.pnum <= 4
    ensures WithinLimit(p, es) <==> NeverOverfills(p, es)
    decreases |es|
  {
    hide PInv, Apply, Overfills;
    if es != [] {
      StepLimit(p, es[0]);
      ApplyKeeps(p, es[0]);
      var p1 := Apply(p, es[0]);
      if p1.pnum <= 4 {
        LimitIff(p1, es[1..]);
      }
    }
  }

  // ---------- The limit fails ----------

  /** Every event is a fault on a page not seen before. */
  ghost predicate NewFaults(p: P, es: seq<Event>)
    requires PInv(p)
    decreases |es|
  {
    es == [] ||
    (Enabled(p, es[0]) && !es[0].Store? && NewPage(p, es[0].va) && (ApplyKeeps(p, es[0]); NewFaults(Apply(p, es[0]), es[1..])))
  }

  /** What n new pages leave of a process that began with its stacks alone. */
  ghost predicate Grown(p: P, n: nat) {
    && |p.plist| == 2 + n && p.pnum == (if n <= 2 then 2 + n else 1 + n)
    && forall i :: 2 <= i < |p.plist| ==> (p.plist[i].atds <==> i == 2 && n >= 3)
  }

  lemma NewFaultList(p: P, stval: nat, bits: bv10, n: nat)
    requires PInv(p) && Canonical(stval) && Own(p.m, p.root, stval) && Served(p, stval) && NewPage(p, stval) && Grown(p, n)
    ensures Grown(Fault(p, stval, bits), n + 1)
  {
    hide PInv, DoSwap, AddPage, IsValid, At, CheckAd, Known, OnDisk, OnlyAt, Room, FindSwapped, Fresh, Canonical, Own;
    FaultFinds(p, stval);
    DoSwapKeeps(p);
    DoSwapCount(p);
    FreshAfterSwap(p, stval);
    var p1 := if p.pnum >= MAX_RESIDENT then DoSwap(p).0 else p;
    RootIsKnown(p1);
    AddPageList(p1, stval);
  }

  /** There is no bound: n new pages one after the other, n at least 3, leave one page on disk, the first, and the process
      with n + 1 pages in memory. */
  lemma {:induction false} NewPagesPileUp(p: P, es: seq<Event>, n: nat)
    requires PInv(p) && NewFaults(p, es) && Grown(p, n)
    ensures Grown(Run(p, es), n + |es|)
    decreases |es|
  {
    hide PInv, Apply, Enabled, NewPage, Grown;
    if es != [] {
      NewFaultStep(p, es[0], n);
      ApplyKeeps(p, es[0]);
      NewPagesPileUp(Apply(p, es[0]), es[1..], n + 1);
    }
  }

  lemma NewFaultStep(p: P, e: Event, n: nat)
    requires PInv(p) && Enabled(p, e) && !e.Store? && NewPage(p, e.va) && Grown(p, n)
    ensures Grown(Apply(p, e), n + 1)
  {
    hide PInv, Fault, At, CheckAd, Canonical, Own, Known, Served, NewPage, Grown;
    match e
    case LoadFault(va) => NewFaultList(p, va, ACCESSED, n);
    case StoreFault(va) => NewFaultList(p, va, ACCESSED | DIRTY, n);
  }
}
