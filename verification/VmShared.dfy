/** The kernel's part of every address space: the directory entries that all processes share. */
module VmShared {
  import opened VmMemory
  import opened VmMap
  import opened VmIo
  import opened VmBoot
  import opened VmPaging
  import opened VmElf
  import opened VmExec
  import opened VmFlat
  import opened VmSystem
  import opened VmRights
  import Runs = VmRuns

  /** No directory of m has another shared entry in m1. */
  ghost predicate Shares(m: M, m1: M) {
    && m.roots <= m1.roots && m1.shared == m.shared
    && forall q, i :: q in m.roots && i in m.shared ==> Entry(m1, q, i) == Entry(m, q, i)
  }

  lemma SharesTrans(a: M, b: M, c: M)
    requires Shares(a, b) && Shares(b, c)
    ensures Shares(a, c)
  {
    hide Entry;
  }

  lemma TablesShare(m: M, m1: M)
    requires m1.table == m.table && m1.roots == m.roots && m1.shared == m.shared
    ensures Shares(m, m1)
  {
  }

  // ---------- Steps on tables ----------

  lemma AllocShares(m: M)
    requires Inv(m) && Room(m) > 0
    ensures Shares(m, AllocPage(m))
  {
    hide Inv, AllocPage, NextFrame, Entry;
    NextFrameFree(m);
    AllocRest(m);
  }

  /** An entry of a frame that is no directory. */
  lemma SetEntryShares(m: M, f: nat, i: nat, e: Pte)
    requires Known(m, f) && i < ENTRIES && f !in m.roots
    ensures Shares(m, SetEntry(m, f, i, e))
  {
  }

  lemma FillShares(m: M, l: Link, e: Pte)
    requires Inv(m) && LinkOk(m, l) && Node(m, l) != 0
    ensures Known(m, Node(m, l)) && Slot(l) < ENTRIES && Shares(m, Fill(m, l, e))
  {
    hide Inv, Ptr;
    NodeIsPtr(m, l);
    SlotRange(m, l);
  }

  lemma EnsureShares(m: M, l: Link, bits: bv10)
    requires Inv(m) && LinkOk(m, l) && !l.Leaf? && Node(m, l) != 0 && (IsValid(At(m, l)) || Room(m) > 0)
    ensures Known(m, Node(m, l)) && Slot(l) < ENTRIES && Shares(m, EnsureTable(m, l, bits))
  {
    hide Inv, AllocPage, Fill, At, Node, Known, LinkOk, IsValid, Room, Shares, Loose, Blank;
    NodeIsPtr(m, l);
    SlotRange(m, l);
    if IsValid(At(m, l)) {
      TablesShare(m, m);
    } else {
      AllocShares(m);
      AllocKeeps(m);
      AllocSame(m, l);
      var m1 := AllocPage(m);
      FillShares(m1, l, SetAttribute(Pte(NextFrame(m), 0), bits));
      SharesTrans(m, m1, EnsureTable(m, l, bits));
    }
  }

  lemma TablesMadeShare(m: M, r: nat, va: nat, bits: bv10)
    requires Inv(m) && Own(m, r, va) && Room(m) >= 3 && bits & PRESENT != 0
    ensures Known(m, r)
    ensures (var i, j := Vpn2(va), Vpn1(va);
      var m1 := EnsureTable(m, Top(r, i), bits);
      Known(m1, Node(m1, Mid(r, i, j))) && Shares(m, EnsureTable(m1, Mid(r, i, j), bits)))
  {
    hide Inv, At, Known, LinkOk, EnsureTable, IsValid, SamePages, Room, Shares;
    TablesFor(m, r, va, bits);
    var i, j := Vpn2(va), Vpn1(va);
    OwnLinks(m, r, va);
    LinkRoot(m, Top(r, i));
    TopIs(m, r, i);
    EnsureKeeps(m, Top(r, i), bits);
    EnsureShares(m, Top(r, i), bits);
    var m1 := EnsureTable(m, Top(r, i), bits);
    OwnLinks(m1, r, va);
    NodeAbove(m1, Mid(r, i, j));
    EnsureShares(m1, Mid(r, i, j), bits);
    SharesTrans(m, m1, EnsureTable(m1, Mid(r, i, j), bits));
  }

  lemma MapPageShares(m: M, r: nat, va: nat, mode: int)
    requires Inv(m) && Own(m, r, va) && Room(m) >= 3
    ensures Known(m, r) && Shares(m, MapPage(m, r, va, mode).0)
  {
    hide Inv, At, Known, LinkOk, EnsureTable, IsValid, SamePages, TableBits, LeafBits, AllocPage, Fill, Node, Room, LeafOf, Shares;
    BitsValid(mode);
    MapPageMaps(m, r, va, mode);
    TablesFor(m, r, va, TableBits(mode));
    MadeTables(m, r, va, TableBits(mode));
    TablesMadeShare(m, r, va, TableBits(mode));
    OwnLinks(m, r, va);
    var i, j := Vpn2(va), Vpn1(va);
    TopIs(m, r, i);
    LeafLink(r, va);
    SlotRange(m, Top(r, i));
    var m2 := EnsureTable(EnsureTable(m, Top(r, i), TableBits(mode)), Mid(r, i, j), TableBits(mode));
    SameLinks(m, m2);
    GrantSteps(m, r, va, mode);
    if MapPage(m, r, va, mode).1 != 0 {
      var l := LeafOf(r, va);
      AllocShares(m2);
      AllocKeeps(m2);
      AllocSame(m2, l);
      FillShares(AllocPage(m2), l, Pte(NextFrame(m2), LeafBits(mode)));
      SharesTrans(m2, AllocPage(m2), MapPage(m, r, va, mode).0);
      SharesTrans(m, m2, MapPage(m, r, va, mode).0);
    }
  }

  // ---------- do_exec ----------

  lemma {:induction false} LoadJobsShare(m: M, r: nat, jobs: seq<Job>)
    requires Inv(m) && Clear(m, r, jobs) && Room(m) >= 3 * |jobs|
    ensures Shares(m, LoadJobs(m, r, jobs))
    decreases |jobs|
  {
    hide Inv, At, Known, LinkOk, LoadJob, IsValid, Room, Loaded, Kept, Clear, Ptr, Own, LeafOf, Shares;
    if jobs == [] {
      TablesShare(m, m);
    } else {
      var n := |jobs| - 1;
      var m0 := LoadJobs(m, r, jobs[..n]);
      ClearPrefix(m, r, jobs);
      LoadJobsShare(m, r, jobs[..n]);
      LoadJobsKeeps(m, r, jobs[..n]);
      JobApart(m, r, jobs);
      ClearLast(m, m0, r, jobs);
      LoadJobShares(m0, r, jobs[n]);
      SharesTrans(m, m0, LoadJobs(m, r, jobs));
    }
  }

  lemma LoadJobShares(m: M, r: nat, j: Job)
    requires Inv(m) && Own(m, r, j.va) && Room(m) >= 3
    ensures Known(m, r) && Shares(m, LoadJob(m, r, j))
  {
    hide Inv, MapPage, Room, Known;
    MapPageShares(m, r, j.va, 1);
  }

  lemma NewRootShares(m: M)
    requires Inv(m) && KernelClean(m) && Room(m) > 0
    ensures KERNEL_ROOT in m.table && Shares(m, NewRoot(m))
    ensures forall i :: i in m.shared ==> Entry(NewRoot(m), NextFrame(m), i) == Entry(m, KERNEL_ROOT, i)
  {
    hide Inv, NewRoot, NextFrame, Entry, Room;
    NewRootKeeps(m);
    NextFrameFree(m);
    NewRootRest(m);
  }

  lemma WithStacksShare(m: M)
    requires Inv(m) && KernelClean(m) && Room(m) >= 7
    ensures Shares(m, WithStacks(m).0) && Shares(NewRoot(m), WithStacks(m).0)
  {
    hide Inv, Room, Known, LinkOk, At, MapPage, NewRoot, NextFrame, Apart, KernelClean, LeafBits, IsValid, LeafOf, Shares;
    FirstStack(m);
    StackSlots();
    NewRootKeeps(m);
    NewRootShares(m);
    var r, m1 := NextFrame(m), NewRoot(m);
    var m2, k := MapPage(m1, r, KERNEL_STACK_PAGE, 0).0, FrameOf(MapPage(m1, r, KERNEL_STACK_PAGE, 0).1);
    CleanShared(m1);
    MapPageShares(m1, r, KERNEL_STACK_PAGE, 0);
    MappedMeans(m1, m2, r, KERNEL_STACK_PAGE, k, LeafBits(0));
    MapPageShares(m2, r, USER_STACK_PAGE, 1);
    SharesTrans(m1, m2, WithStacks(m).0);
    SharesTrans(m, m1, WithStacks(m).0);
  }

  /** A new process has the shared entries of the kernel, and no other directory gets others. */
  lemma ExecShares(m: M, jobs: seq<Job>, st: StackPages, disk: Disk, swapBlock: nat)
    requires ExecFits(m, jobs)
    ensures var p := ExecP(m, jobs, st, disk, swapBlock);
      Shares(m, p.m) && forall i :: i in m.shared ==> Entry(p.m, p.root, i) == Entry(m, KERNEL_ROOT, i)
  {
    hide Inv, Room, Known, LinkOk, At, WithStacks, LoadJobs, NextFrame, Apart, IsValid, KernelClean, LeafBits, Own, ExecFits, NewRoot, Entry, Clear;
    FitsMeans(m, jobs);
    WithStacksIs(m);
    WithStacksShare(m);
    NewRootKeeps(m);
    NewRootShares(m);
    ExecClear(m, jobs);
    var (m3, k, u) := WithStacks(m);
    LoadJobsShare(m3, NextFrame(m), jobs);
    var m4 := LoadJobs(m3, NextFrame(m), jobs);
    TablesShare(m4, StoreStacks(m4, k, u, st));
  }

  // ---------- Events of a process ----------

  /** A table of pages is no directory. */
  lemma LeafFrame(m: M, r: nat, va: nat)
    requires Inv(m) && Own(m, r, va) && Node(m, LeafOf(r, va)) != 0
    ensures Known(m, Node(m, LeafOf(r, va))) && Node(m, LeafOf(r, va)) !in m.roots && Vpn0(va) < ENTRIES
  {
    hide Inv, Known, Node, LinkOk, Ptr;
    OwnLinks(m, r, va);
    NodeIsPtr(m, LeafOf(r, va));
  }

  lemma DoSwapShares(p: P)
    requires PInv(p)
    ensures Shares(p.m, DoSwap(p).0.m)
  {
    hide Inv, CheckAd, Victim, Known, Shares, At, LinkOk, Canonical, PageOk, Node, Stacks, Slots, LeafOf, ClearValid;
    VictimKnown(p);
    VictimIsFirst(p);
    PlistTwo(p);
    TablesShare(p.m, p.m);
    if |p.plist| > 2 && !p.plist[2].atds {
      var va := p.plist[2].va;
      VictimPlace(p, 2);
      LeafFrame(p.m, p.root, va);
      var at := CheckAd(p.m, p.root, va);
      SetEntryShares(p.m, at.f, at.i, ClearValid(Entry(p.m, at.f, at.i)));
    }
  }

  lemma SwapInShares(p: P, i: nat)
    requires PInv(p) && 2 <= i < |p.plist| && p.plist[i].atds
    ensures p.plist[i].pte.Place? && Known(p.m, p.plist[i].pte.f) && p.plist[i].pte.i < ENTRIES && OnDisk(p.disk, p.plist[i].block, PAGE_SECTORS)
    ensures Shares(p.m, SwapIn(p, i).m)
  {
    hide Inv, Shares, At, LinkOk, Canonical, PageOk, Node, Stacks, Slots, LeafOf, OnDisk, ReadSectors, SetAttribute, Entry;
    SwapInPlace(p, i);
    var x := p.plist[i];
    assert |ReadSectors(p.disk, x.block, PAGE_SECTORS)| == PAGE_SIZE;
    LeafFrame(p.m, p.root, x.va);
    var m1 := p.m.(data := p.m.data[x.f := ReadSectors(p.disk, x.block, PAGE_SECTORS)]);
    TablesShare(p.m, m1);
    SetEntryShares(m1, x.pte.f, x.pte.i, SetAttribute(Entry(p.m, x.pte.f, x.pte.i), PRESENT));
    SharesTrans(p.m, m1, SwapIn(p, i).m);
  }

  lemma FaultShares(p: P, stval: nat, bits: bv10)
    requires PInv(p) && Canonical(stval) && Own(p.m, p.root, stval) && Served(p, stval)
    ensures Shares(p.m, Fault(p, stval, bits).m)
  {
    hide PInv, DoSwap, SwapIn, IsValid, At, CheckAd, Known, OnDisk, Room, FindSwapped, Fresh, Canonical, Own, Shares, Entry;
    TablesShare(p.m, p.m);
    PInvMem(p);
    if CheckAd(p.m, p.root, stval).Place? {
      PlaceKnown(p.m, p.root, stval);
      LeafFrame(p.m, p.root, stval);
      var at := CheckAd(p.m, p.root, stval);
      SetEntryShares(p.m, at.f, at.i, SetAttribute(Entry(p.m, at.f, at.i), bits));
    } else {
      FaultFinds(p, stval);
      FindSwappedIs(p.plist, PageOf(stval));
      var i := FindSwapped(p.plist, PageOf(stval));
      if i < |p.plist| {
        SwapInShares(p, i);
        SwapInKeeps(p, i);
        DoSwapShares(SwapIn(p, i));
        SharesTrans(p.m, SwapIn(p, i).m, DoSwap(SwapIn(p, i)).0.m);
      } else {
        DoSwapKeeps(p);
        DoSwapShares(p);
        FreshAfterSwap(p, stval);
        var p1 := if p.pnum >= MAX_RESIDENT then DoSwap(p).0 else p;
        FreshOwn(p1, stval);
        AddPageShares(p1, stval);
        SharesTrans(p.m, p1.m, AddPage(p1, stval).m);
      }
    }
  }

  lemma FreshOwn(p: P, stval: nat)
    requires PInv(p) && Fresh(p, stval)
    ensures Inv(p.m) && Own(p.m, p.root, stval)
  {
  }

  lemma AddPageShares(p: P, stval: nat)
    requires Inv(p.m) && Own(p.m, p.root, stval) && Room(p.m) >= 3
    ensures Known(p.m, p.root) && Shares(p.m, AddPage(p, stval).m)
  {
    hide Inv, MapPage, Room, Known, Shares;
    MapPageShares(p.m, p.root, stval, 1);
  }

  lemma EventShares(p: P, e: Runs.Event)
    requires PInv(p) && Runs.Enabled(p, e)
    ensures Shares(p.m, Runs.Apply(p, e).m)
  {
    hide PInv, Fault, At, CheckAd, Canonical, Own, Known, Served, Shares;
    match e
    case LoadFault(va) => FaultShares(p, va, ACCESSED);
    case StoreFault(va) => FaultShares(p, va, ACCESSED | DIRTY);
    case Store(va, b) =>
      Runs.StoreValid(p, va);
      Runs.PutMemory(p, va, b);
      TablesShare(p.m, Runs.Put(p, va, b).m);
  }

  // ---------- Every state from boot ----------

  /** The directories of all processes have the kernel's shared entries. */
  ghost predicate AllShare(s: Sys) {
    && SInv(s)
    && forall r, i :: r in s.procs && i in s.m.shared ==> Entry(s.m, r, i) == Entry(s.m, KERNEL_ROOT, i)
  }

  lemma EndedShares(s: Sys, r: nat)
    requires r in s.procs
    ensures Ended(s, r).m.table == s.m.table && Ended(s, r).m.shared == s.m.shared
  {
    FreeAllTables(s.m.(roots := s.m.roots - {r}), ListFrames(s.procs[r].plist));
  }

  lemma {:induction false} FreeAllTables(m: M, fs: seq<nat>)
    ensures FreeAll(m, fs).table == m.table && FreeAll(m, fs).shared == m.shared
    decreases |fs|
  {
    if fs != [] {
      FreeAllTables(FreePage(m, fs[0]), fs[1..]);
    }
  }

  lemma ApplyShares(s: Sys, e: Event)
    requires AllShare(s) && Enabled(s, e)
    ensures AllShare(Apply(s, e))
    ensures forall i :: i in s.m.shared ==> Entry(Apply(s, e).m, KERNEL_ROOT, i) == Entry(s.m, KERNEL_ROOT, i)
    ensures Apply(s, e).m.shared == s.m.shared
  {
    hide PInv, RamOnly, Inv, SlotsOwned, ExecFits, Runs.Apply, Runs.Enabled, ExecP, Program, Ended, KernelClean, Entry, Apart, DiskKept, NewSlots;
    VmSystem.ApplyKeeps(s, e);
    match e {
      case Exec(file, st) =>
        ExecShares(s.m, Program(file), st, s.disk, s.swapBlock);
        OfPut(s, ExecP(s.m, Program(file), st, s.disk, s.swapBlock));
      case Access(r, a) =>
        assert ProcOk(s, r);
        EventShares(Of(s, r), a);
        ApplyPrivate(Of(s, r), a);
        OfPut(s, Runs.Apply(Of(s, r), a));
      case Exit(r) =>
        EndedShares(s, r);
        EndedProcs(s, r);
        TableEntries(s.m, Ended(s, r).m);
    }
  }

  lemma TableEntries(m: M, m1: M)
    requires m1.table == m.table
    ensures forall f, i :: Entry(m1, f, i) == Entry(m, f, i)
  {
  }

  lemma {:induction false} RunShares(s: Sys, es: seq<Event>)
    requires AllShare(s) && Allowed(s, es)
    ensures AllShare(Run(s, es)) && Run(s, es).m.shared == s.m.shared
    ensures forall i :: i in s.m.shared ==> Entry(Run(s, es).m, KERNEL_ROOT, i) == Entry(s.m, KERNEL_ROOT, i)
    decreases |es|
  {
    hide AllShare, SInv, Enabled, Apply, Entry;
    if es != [] {
      ShareMeans(s);
      ApplyShares(s, es[0]);
      VmSystem.ApplyKeeps(s, es[0]);
      RunShares(Apply(s, es[0]), es[1..]);
    }
  }

  lemma ShareMeans(s: Sys)
    requires AllShare(s)
    ensures SInv(s)
  {
  }

  /** In every state reached from boot every process translates the addresses of the kernel as the kernel's own
      directory does, in software and in hardware, and by the entry that boot left there. */
  lemma KernelSeen(s: Sys, es: seq<Event>, r: nat, kva: nat)
    requires Start(s) && SInv(s) && Allowed(s, es) && r in Run(s, es).procs && KERNEL_FIRST <= kva < KERNEL_LAST
    ensures var t := Run(s, es);
      CheckAd(t.m, r, kva) == CheckAd(t.m, KERNEL_ROOT, kva) && HwWalk(t.m, r, kva) == HwWalk(t.m, KERNEL_ROOT, kva) &&
      Entry(t.m, r, Vpn2(kva)) == Entry(s.m, KERNEL_ROOT, Vpn2(kva))
  {
    hide PInv, Inv, RamOnly, SlotsOwned, Allowed, Run, Entry, IsValid, HwValid, HwLeaf, Vpn0, Vpn1, Vpn2, Known;
    KernelSlot(kva);
    RunShares(s, es);
  }
}
