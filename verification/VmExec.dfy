/** do_exec's memory: a new directory, two stacks, and the program's pages. */
module VmExec {
  import opened VmMemory
  import opened VmMap
  import opened VmIo
  import opened VmBoot
  import opened VmPaging
  import opened VmElf

  // ---------- Mapping for one directory leaves the others alone ----------

  lemma EnsureApart(m: M, l: Link, bits: bv10)
    requires Inv(m) && LinkOk(m, l) && !l.Leaf? && Node(m, l) != 0 && (IsValid(At(m, l)) || Room(m) > 0) && bits & PRESENT != 0
    ensures Known(m, Node(m, l)) && Slot(l) < ENTRIES && Apart(m, EnsureTable(m, l, bits), l.r)
  {
    hide Inv, At, Known, LinkOk, EnsureTable, IsValid, Room, Node, Ptr;
    EnsureKeeps(m, l, bits);
    SameLinks(m, EnsureTable(m, l, bits));
  }

  lemma LeafApart(m: M, l: Link, e: Pte)
    requires Inv(m) && LinkOk(m, l) && l.Leaf? && Room(m) >= 1 && Node(m, l) != 0 && e.ppn == NextFrame(m)
    ensures Known(AllocPage(m), Node(AllocPage(m), l)) && Slot(l) < ENTRIES && Apart(m, Fill(AllocPage(m), l, e), l.r)
  {
    hide Inv, At, Known, LinkOk, Fill, AllocPage, IsValid, Loose, Node, Blank;
    var m1 := AllocPage(m);
    SlotRange(m, l);
    AllocKeeps(m);
    AllocRest(m);
    AllocSame(m, l);
    NodeIsPtr(m1, l);
    LooseRange(m1, e.ppn);
    assert MayFill(m1, l, e);
    FillKeeps(m1, l, e);
    FillRest(m1, l, e);
    AllocSamePages(m);
    FillSamePages(m1, l, e);
    PtrsAt(m, m1);
    SamePagesTrans(m, m1, Fill(m1, l, e));
  }

  /** alloc_page_helper changes memory for its own directory alone. */
  lemma MapApart(m: M, r: nat, va: nat, mode: int)
    requires Inv(m) && Own(m, r, va) && Room(m) >= 3
    ensures Known(m, r) && Apart(m, MapPage(m, r, va, mode).0, r)
  {
    hide Inv, At, Known, LinkOk, EnsureTable, IsValid, SamePages, TableBits, LeafBits, AllocPage, Fill, Node, Apart, Ptr, Room;
    BitsValid(mode);
    MapPageMaps(m, r, va, mode);
    TablesFor(m, r, va, TableBits(mode));
    OwnLinks(m, r, va);
    var i, j := Vpn2(va), Vpn1(va);
    LinkRoot(m, Top(r, i));
    TopIs(m, r, i);
    EnsureApart(m, Top(r, i), TableBits(mode));
    EnsureKeeps(m, Top(r, i), TableBits(mode));
    var m1 := EnsureTable(m, Top(r, i), TableBits(mode));
    OwnLinks(m1, r, va);
    NodeAbove(m1, Mid(r, i, j));
    EnsureApart(m1, Mid(r, i, j), TableBits(mode));
    var m2 := EnsureTable(m1, Mid(r, i, j), TableBits(mode));
    ApartTrans(m, m1, m2, r);
    OwnLinks(m2, r, va);
    if !IsValid(At(m2, LeafOf(r, va))) && Room(m2) >= 1 {
      NextFrameFree(m2);
      SetPfnSmall(NextFrame(m2), LeafBits(mode));
      LeafApart(m2, LeafOf(r, va), Pte(NextFrame(m2), LeafBits(mode)));
      ApartTrans(m, m2, Fill(AllocPage(m2), LeafOf(r, va), Pte(NextFrame(m2), LeafBits(mode))), r);
    }
  }

  lemma TopIs(m: M, r: nat, i: nat)
    ensures Node(m, Top(r, i)) == r
  {
  }

  lemma LoadJobApart(m: M, r: nat, j: Job)
    requires Inv(m) && Own(m, r, j.va) && Room(m) >= 3 && !IsValid(At(m, LeafOf(r, j.va))) && |j.image| == PAGE_SIZE
    ensures Known(m, r) && Apart(m, LoadJob(m, r, j), r)
  {
    hide Inv, At, Known, LinkOk, MapPage, IsValid, LeafBits, Vpn0, Vpn1, Vpn2, Room, Ptr;
    MapApart(m, r, j.va, 1);
    MapPageMaps(m, r, j.va, 1);
    var (m1, kva) := MapPage(m, r, j.va, 1);
    SetDataKeeps(m1, FrameOf(kva), j.image);
    SameLinks(m1, LoadJob(m, r, j));
  }

  lemma {:induction false} LoadJobsApart(m: M, r: nat, jobs: seq<Job>)
    requires Inv(m) && Clear(m, r, jobs) && Room(m) >= 3 * |jobs|
    ensures Apart(m, LoadJobs(m, r, jobs), r)
    decreases |jobs|
  {
    hide Inv, At, Known, LinkOk, LoadJob, IsValid, Room, Loaded, Kept, Clear, Ptr, Own, Apart;
    if jobs == [] {
      ApartSelf(m, r);
    } else {
      var n := |jobs| - 1;
      var m0 := LoadJobs(m, r, jobs[..n]);
      ClearPrefix(m, r, jobs);
      LoadJobsApart(m, r, jobs[..n]);
      LoadJobsKeeps(m, r, jobs[..n]);
      JobApart(m, r, jobs);
      ClearLast(m, m0, r, jobs);
      LoadJobApart(m0, r, jobs[n]);
      ApartTrans(m, m0, LoadJob(m0, r, jobs[n]), r);
    }
  }

  /** The kernel's directory stays clean when memory changes for another one. */
  lemma CleanKept(m: M, m1: M, r: nat)
    requires KernelClean(m) && Apart(m, m1, r) && r != KERNEL_ROOT
    ensures KernelClean(m1)
  {
    forall i: nat | i < ENTRIES && i !in m.shared
      ensures Entry(m1, KERNEL_ROOT, i) == NONE
    {
      assert LinkOk(m, Top(KERNEL_ROOT, i)) && At(m1, Top(KERNEL_ROOT, i)) == At(m, Top(KERNEL_ROOT, i));
    }
  }

  // ---------- The two stacks ----------

  /** Both stacks lie outside the kernel's slot. */
  lemma StackSlots()
    ensures Vpn2(KERNEL_STACK_PAGE) == 256 && Vpn2(USER_STACK_PAGE) == 60
    ensures PageNo(KERNEL_STACK_PAGE) == 0x400_0FFF && PageNo(USER_STACK_PAGE) == 0xF0_000F
    ensures Canonical(KERNEL_STACK_PAGE) && Canonical(USER_STACK_PAGE)
    ensures KERNEL_STACK_PAGE % PAGE_SIZE == 0 && USER_STACK_PAGE % PAGE_SIZE == 0
  {
    LowPart(KERNEL_STACK_PAGE, 0x1FF_FFFF, 0x40_00FF_F000);
    LowPart(USER_STACK_PAGE, 0, USER_STACK_PAGE);
  }

  lemma LowPart(va: nat, high: nat, low: nat)
    requires va == 0x80_0000_0000 * high + low && low < 0x80_0000_0000
    ensures va % 0x80_0000_0000 == low
  {
  }

  /** The directory of a new process with its two stacks, and the frames of those. */
  ghost function WithStacks(m: M): (M, nat, nat)
    requires Inv(m) && KernelClean(m) && Room(m) >= 7
  {
    NewRootKeeps(m);
    var r, m1 := NextFrame(m), NewRoot(m);
    StackSlots();
    RootKnown(m1, r);
    FirstStack(m);
    var (m2, k) := MapPage(m1, r, KERNEL_STACK_PAGE, 0);
    var (m3, u) := MapPage(m2, r, USER_STACK_PAGE, 1);
    (m3, FrameOf(k), FrameOf(u))
  }

  lemma FirstStack(m: M)
    requires Inv(m) && KernelClean(m) && Room(m) >= 7
    ensures KERNEL_ROOT in m.table && Known(NewRoot(m), NextFrame(m)) && Room(NewRoot(m)) >= 3
    ensures (var m1, r := NewRoot(m), NextFrame(m);
      var m2, k := MapPage(m1, r, KERNEL_STACK_PAGE, 0).0, MapPage(m1, r, KERNEL_STACK_PAGE, 0).1;
      k != 0 && MappedPage(m1, m2, r, KERNEL_STACK_PAGE, FrameOf(k), LeafBits(0)) && Room(m2) >= Room(m) - 4 && Known(m2, r) &&
      Own(m2, r, USER_STACK_PAGE) && Apart(m, m2, r) && KernelClean(m2))
  {
    hide Inv, Room, Known, LinkOk, At, MapPage, NewRoot, NextFrame, Apart, KernelClean, LeafBits, MappedPage, IsValid;
    StackSlots();
    NewRootKeeps(m);
    var r, m1 := NextFrame(m), NewRoot(m);
    CleanShared(m1);
    RootKnown(m1, r);
    OwnLinks(m1, r, KERNEL_STACK_PAGE);
    NoneInvalid();
    MapPageMaps(m1, r, KERNEL_STACK_PAGE, 0);
    MapApart(m1, r, KERNEL_STACK_PAGE, 0);
    var m2 := MapPage(m1, r, KERNEL_STACK_PAGE, 0).0;
    MappedMeans(m1, m2, r, KERNEL_STACK_PAGE, FrameOf(MapPage(m1, r, KERNEL_STACK_PAGE, 0).1), LeafBits(0));
    RootKnown(m2, r);
    RootApart(m);
    ApartTrans(m, m1, m2, r);
    CleanKept(m1, m2, r);
  }

  lemma CleanShared(m: M)
    requires KernelClean(m)
    ensures m.shared == {KERNEL_SLOT} && KERNEL_ROOT in m.roots
  {
  }

  lemma RootApart(m: M)
    requires Inv(m) && Room(m) > 0
    ensures NextFrame(m) != KERNEL_ROOT
  {
    NextFrameFree(m);
  }

  /** After the stacks are mapped: they are there and zeroed, and the directory maps nothing else of its own. */
  lemma WithStacksIs(m: M)
    requires Inv(m) && KernelClean(m) && Room(m) >= 7
    ensures (var s, r := WithStacks(m), NextFrame(m);
      var m3, k, u := s.0, s.1, s.2;
      Inv(m3) && KernelClean(m3) && m3.roots == m.roots + {r} && r !in m.roots && Room(m3) >= Room(m) - 7 && Apart(m, m3, r) &&
      At(m3, LeafOf(r, KERNEL_STACK_PAGE)) == Pte(k, LeafBits(0)) && At(m3, LeafOf(r, USER_STACK_PAGE)) == Pte(u, LeafBits(1)) &&
      InRam(k) && InRam(u) && Known(m3, k) && Known(m3, u) && m3.data[k] == BlankPage() && m3.data[u] == BlankPage() &&
      (forall x :: LinkOk(m3, x) && x.r == r && x.Leaf? && x != LeafOf(r, KERNEL_STACK_PAGE) && x != LeafOf(r, USER_STACK_PAGE) ==>
        At(m3, x) == NONE))
  {
    hide Inv, Room, Known, LinkOk, At, MapPage, NewRoot, NextFrame, Apart, KernelClean, LeafBits, IsValid, LeafOf;
    FirstStack(m);
    StackSlots();
    NewRootKeeps(m);
    var r, m1 := NextFrame(m), NewRoot(m);
    var m2, k := MapPage(m1, r, KERNEL_STACK_PAGE, 0).0, FrameOf(MapPage(m1, r, KERNEL_STACK_PAGE, 0).1);
    CleanShared(m1);
    CleanShared(m2);
    StackLeaves(m1, r);
    StackLeaves(m2, r);
    NoneInvalid();
    MapPageMaps(m2, r, USER_STACK_PAGE, 1);
    MapApart(m2, r, USER_STACK_PAGE, 1);
    var m3 := MapPage(m2, r, USER_STACK_PAGE, 1).0;
    RootApart(m);
    ApartTrans(m, m2, m3, r);
    CleanKept(m2, m3, r);
    SameLinks(m1, m2);
    SameLinks(m2, m3);
    PtrAt(m2, LeafOf(r, KERNEL_STACK_PAGE));
  }

  lemma StackLeaves(m: M, r: nat)
    requires r in m.roots && m.shared == {KERNEL_SLOT}
    ensures Own(m, r, KERNEL_STACK_PAGE) && Own(m, r, USER_STACK_PAGE)
    ensures LinkOk(m, LeafOf(r, KERNEL_STACK_PAGE)) && LinkOk(m, LeafOf(r, USER_STACK_PAGE))
    ensures LeafOf(r, KERNEL_STACK_PAGE).Leaf? && LeafOf(r, USER_STACK_PAGE).Leaf?
    ensures LeafOf(r, KERNEL_STACK_PAGE) != LeafOf(r, USER_STACK_PAGE)
    ensures LeafOf(r, KERNEL_STACK_PAGE).r == r && LeafOf(r, USER_STACK_PAGE).r == r
  {
    StackSlots();
    OwnLinks(m, r, KERNEL_STACK_PAGE);
    OwnLinks(m, r, USER_STACK_PAGE);
  }

  // ---------- The whole of do_exec ----------

  /** The pages of a program file. */
  ghost function Program(file: seq<byte>): seq<Job> {
    if Refused(file) || !GoodFile(file) then [] else Jobs(file, PhNum(file))
  }

  /** A program's pages: outside the kernel's part, no two the same, and none on a stack. */
  predicate Images(jobs: seq<Job>) {
    && (forall i :: 0 <= i < |jobs| ==>
         Vpn2(jobs[i].va) != KERNEL_SLOT && |jobs[i].image| == PAGE_SIZE &&
         PageNo(jobs[i].va) != PageNo(KERNEL_STACK_PAGE) && PageNo(jobs[i].va) != PageNo(USER_STACK_PAGE))
    && (forall i, j :: 0 <= i < j < |jobs| ==> PageNo(jobs[i].va) != PageNo(jobs[j].va))
  }

  ghost predicate ExecFits(m: M, jobs: seq<Job>) {
    Inv(m) && KernelClean(m) && Room(m) >= 7 + 3 * |jobs| && Images(jobs)
  }

  /** What do_exec leaves on the two stacks: the first registers, and the arguments. */
  datatype StackPages = StackPages(kernel: seq<byte>, user: seq<byte>)

  predicate PageSized(st: StackPages) {
    |st.kernel| == PAGE_SIZE && |st.user| == PAGE_SIZE
  }

  function StoreStacks(m: M, k: nat, u: nat, st: StackPages): M {
    m.(data := m.data[k := st.kernel][u := st.user])
  }

  /** The process that do_exec makes, with its pages loaded, its stacks begun and its list of pages started. */
  ghost function ExecP(m: M, jobs: seq<Job>, st: StackPages, disk: Disk, swapBlock: nat): P
    requires ExecFits(m, jobs)
  {
    var (m3, k, u) := WithStacks(m);
    P(StoreStacks(LoadJobs(m3, NextFrame(m), jobs), k, u, st), NextFrame(m),
      [Page(KERNEL_STACK_PAGE, k, true, 0, Nowhere), Page(USER_STACK_PAGE, u, true, 0, Nowhere)], 2, disk, swapBlock)
  }

  /** Storing into the two stack pages changes no table, and no page of anybody but the two. */
  lemma StoreStacksKeeps(m: M, r: nat, lk: Link, lu: Link, st: StackPages)
    requires Inv(m) && LinkOk(m, lk) && LinkOk(m, lu) && lk != lu && lk.r == r && lu.r == r && PageSized(st)
    requires InRam(Ptr(m, lk)) && InRam(Ptr(m, lu))
    ensures (var k, u := Ptr(m, lk), Ptr(m, lu);
      var m1 := StoreStacks(m, k, u, st);
      Inv(m1) && m1.roots == m.roots && m1.shared == m.shared && Room(m1) == Room(m) && Apart(m, m1, r) &&
      (forall x :: At(m1, x) == At(m, x)) && (forall g :: Known(m1, g) <==> Known(m, g)) &&
      Known(m1, k) && Known(m1, u) && m1.data[k] == st.kernel && m1.data[u] == st.user &&
      (forall x :: LinkOk(m, x) && x != lk && x != lu ==> PageSame(m, m1, x)))
  {
    hide Inv, LinkOk, At, Ptr, Known, Room;
    var k, u := Ptr(m, lk), Ptr(m, lu);
    RamKnown(m, k);
    RamKnown(m, u);
    SetDataKeeps(m, k, st.kernel);
    SetDataKeeps(m.(data := m.data[k := st.kernel]), u, st.user);
    var m1 := StoreStacks(m, k, u, st);
    SameLinks(m, m1);
    DistinctAt(m, lk, lu);
    forall x | LinkOk(m, x) && x != lk && x != lu
      ensures PageSame(m, m1, x)
    {
      if InRam(Ptr(m, x)) {
        RamKnown(m, Ptr(m, x));
        RamKnown(m1, Ptr(m, x));
        KnownIn(m, Ptr(m, x));
        DistinctAt(m, x, lk);
        DistinctAt(m, x, lu);
      }
    }
  }

  lemma KnownIn(m: M, f: nat)
    ensures Known(m, f) ==> f in m.data
  {
  }

  lemma ExecClear(m: M, jobs: seq<Job>)
    requires ExecFits(m, jobs)
    ensures Clear(WithStacks(m).0, NextFrame(m), jobs) && Room(WithStacks(m).0) >= 3 * |jobs|
  {
    hide Inv, Room, Known, LinkOk, At, WithStacks, NextFrame, Apart, IsValid, Vpn0, Vpn1, Vpn2, PageNo, LeafBits;
    WithStacksIs(m);
    var m3, r := WithStacks(m).0, NextFrame(m);
    NoneInvalid();
    forall i | 0 <= i < |jobs|
      ensures Own(m3, r, jobs[i].va) && !IsValid(At(m3, LeafOf(r, jobs[i].va)))
    {
      OwnLinks(m3, r, jobs[i].va);
      PagesApart(r, jobs[i].va, KERNEL_STACK_PAGE);
      PagesApart(r, jobs[i].va, USER_STACK_PAGE);
    }
  }

  /** The program loaded, the stacks not yet begun: both are there, and no other process is disturbed. */
  lemma LoadedKeeps(m: M, jobs: seq<Job>)
    requires ExecFits(m, jobs)
    ensures (var (m3, k, u) := WithStacks(m); var m4, r := LoadJobs(m3, NextFrame(m), jobs), NextFrame(m);
      After(m3, m4, r, jobs) && KernelClean(m4) && m4.roots == m.roots + {r} && r !in m.roots && InRam(r) && r != KERNEL_ROOT &&
      Apart(m, m4, r) && Room(m4) >= Room(m) - 7 - 3 * |jobs| && InRam(k) && InRam(u) &&
      At(m4, LeafOf(r, KERNEL_STACK_PAGE)) == Pte(k, LeafBits(0)) && At(m4, LeafOf(r, USER_STACK_PAGE)) == Pte(u, LeafBits(1)))
  {
    hide Inv, Room, Known, LinkOk, At, WithStacks, LoadJobs, NextFrame, Apart, IsValid, KernelClean, LeafOf, LeafBits, Loaded, Own, ExecFits;
    FitsMeans(m, jobs);
    WithStacksIs(m);
    ExecClear(m, jobs);
    NextFrameFree(m);
    var m3, r := WithStacks(m).0, NextFrame(m);
    var m4 := LoadJobs(m3, r, jobs);
    LoadJobsKeeps(m3, r, jobs);
    LoadJobsApart(m3, r, jobs);
    ApartTrans(m, m3, m4, r);
    RootApart(m);
    CleanKept(m3, m4, r);
    StacksStay(m, jobs);
  }

  /** do_exec leaves every other process as it was, its own directory belongs to nobody else, and its list of
      pages is in order: this is where all runs of page faults start. */
  lemma ExecKeeps(m: M, jobs: seq<Job>, st: StackPages, disk: Disk, swapBlock: nat)
    requires ExecFits(m, jobs) && PageSized(st) && SWAP_START <= swapBlock && swapBlock % PAGE_SECTORS == 0
    ensures (var p := ExecP(m, jobs, st, disk, swapBlock);
      PInv(p) && KernelClean(p.m) && p.root == NextFrame(m) && p.root !in m.roots && InRam(p.root) && p.m.roots == m.roots + {p.root} &&
      Apart(m, p.m, p.root) && Room(p.m) >= Room(m) - 7 - 3 * |jobs|)
  {
    hide Inv, Room, Known, LinkOk, At, WithStacks, LoadJobs, NextFrame, Apart, IsValid, KernelClean, LeafOf, LeafBits, Loaded, Own, ExecFits, Canonical, StoreStacks, PageSame;
    FitsMeans(m, jobs);
    LoadedKeeps(m, jobs);
    var (m3, k, u) := WithStacks(m);
    var p, m4, r := ExecP(m, jobs, st, disk, swapBlock), LoadJobs(m3, NextFrame(m), jobs), NextFrame(m);
    CleanShared(m4);
    StackLeaves(m4, r);
    PtrAt(m4, LeafOf(r, KERNEL_STACK_PAGE));
    PtrAt(m4, LeafOf(r, USER_STACK_PAGE));
    StoreStacksKeeps(m4, r, LeafOf(r, KERNEL_STACK_PAGE), LeafOf(r, USER_STACK_PAGE), st);
    ApartTrans(m, m4, p.m, r);
    CleanKept(m4, p.m, r);
    CleanShared(p.m);
    StackLeaves(p.m, r);
    StackSlots();
    BitsValid(0);
    BitsValid(1);
    ValidBits(k, LeafBits(0));
    ValidBits(u, LeafBits(1));
  }

  lemma FitsMeans(m: M, jobs: seq<Job>)
    requires ExecFits(m, jobs)
    ensures Inv(m) && KernelClean(m) && Room(m) >= 7 + 3 * |jobs| && Room(m) > 0
  {
  }

  /** Loading the program leaves the stacks alone. */
  lemma StacksStay(m: M, jobs: seq<Job>)
    requires ExecFits(m, jobs) && After(WithStacks(m).0, LoadJobs(WithStacks(m).0, NextFrame(m), jobs), NextFrame(m), jobs)
    ensures (var m3, r := WithStacks(m).0, NextFrame(m);
      var m4 := LoadJobs(m3, r, jobs);
      Kept(m3, m4, LeafOf(r, KERNEL_STACK_PAGE)) && Kept(m3, m4, LeafOf(r, USER_STACK_PAGE)))
  {
    hide Inv, Room, Known, LinkOk, At, WithStacks, LoadJobs, NextFrame, Apart, IsValid, KernelClean, LeafBits, Loaded, Kept, Vpn0, Vpn1, Vpn2, PageNo;
    WithStacksIs(m);
    var m3, r := WithStacks(m).0, NextFrame(m);
    CleanShared(m3);
    StackLeaves(m3, r);
    forall i | 0 <= i < |jobs|
      ensures LeafOf(r, jobs[i].va) != LeafOf(r, KERNEL_STACK_PAGE) && LeafOf(r, jobs[i].va) != LeafOf(r, USER_STACK_PAGE)
    {
      PagesApart(r, jobs[i].va, KERNEL_STACK_PAGE);
      PagesApart(r, jobs[i].va, USER_STACK_PAGE);
    }
  }
}
