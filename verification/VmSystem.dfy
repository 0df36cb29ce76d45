/** The whole paging system from boot on: processes made by do_exec, page faults and stores of all of them in any
    order, and processes that end and give their pages back. */
module VmSystem {
  import opened VmMemory
  import opened VmMap
  import opened VmIo
  import opened VmBoot
  import opened VmPaging
  import opened VmElf
  import opened VmExec
  import opened VmFlat
  import Runs = VmRuns

  datatype Proc = Proc(plist: seq<Page>, pnum: int)

  /** Memory, disk and the next free slot there are common to all; a process is known by its directory. */
  datatype Sys = Sys(m: M, disk: Disk, swapBlock: nat, procs: map<nat, Proc>)

  datatype Event = Exec(file: seq<byte>, st: StackPages) | Access(r: nat, a: Runs.Event) | Exit(r: nat)

  /** Process r, with the memory and the disk it shares. */
  function Of(s: Sys, r: nat): P
    requires r in s.procs
  {
    P(s.m, r, s.procs[r].plist, s.procs[r].pnum, s.disk, s.swapBlock)
  }

  function Put(s: Sys, p: P): Sys {
    Sys(p.m, p.disk, p.swapBlock, s.procs[p.root := Proc(p.plist, p.pnum)])
  }

  ghost predicate ProcOk(s: Sys, r: nat)
    requires r in s.procs
  {
    PInv(Of(s, r)) && RamOnly(Of(s, r))
  }

  /** No disk slot holds pages of two processes. */
  ghost predicate SlotsOwned(s: Sys) {
    forall r1, r2, b: nat :: r1 in s.procs && r2 in s.procs && r1 != r2 && HasSlot(s.procs[r1].plist, b) ==> !HasSlot(s.procs[r2].plist, b)
  }

  ghost predicate SInv(s: Sys) {
    && Inv(s.m) && KernelClean(s.m)
    && s.m.roots == s.procs.Keys + {KERNEL_ROOT} && KERNEL_ROOT !in s.procs
    && SWAP_START <= s.swapBlock && s.swapBlock % PAGE_SECTORS == 0
    && (forall r :: r in s.procs ==> ProcOk(s, r))
    && SlotsOwned(s)
  }

  /** Memory just booted, nothing swapped, no process. */
  ghost predicate Start(s: Sys) {
    Booted(s.m) && s.swapBlock == SWAP_START && s.procs == map[]
  }

  lemma StartOk(s: Sys)
    requires Start(s)
    ensures SInv(s)
  {
    hide Inv;
    BootInv(s.m);
  }

  // ---------- Events ----------

  ghost predicate Enabled(s: Sys, e: Event)
    requires SInv(s)
  {
    match e
    case Exec(file, st) => (Refused(file) || GoodFile(file)) && PageSized(st) && ExecFits(s.m, Program(file))
    case Access(r, a) => r in s.procs && Runs.Enabled(Of(s, r), a)
    case Exit(r) => r in s.procs
  }

  /** The frames that do_exit and do_kill give back: one for each page on the list, in its order. */
  function ListFrames(s: seq<Page>): seq<nat> {
    seq(|s|, i requires 0 <= i < |s| => s[i].f)
  }

  function Ended(s: Sys, r: nat): Sys
    requires r in s.procs
  {
    s.(m := FreeAll(s.m.(roots := s.m.roots - {r}), ListFrames(s.procs[r].plist)), procs := s.procs - {r})
  }

  ghost function Apply(s: Sys, e: Event): Sys
    requires SInv(s) && Enabled(s, e)
  {
    match e
    case Exec(file, st) => Put(s, ExecP(s.m, Program(file), st, s.disk, s.swapBlock))
    case Access(r, a) => Put(s, Runs.Apply(Of(s, r), a))
    case Exit(r) => Ended(s, r)
  }

  // ---------- A step by one process ----------

  /** p takes the place of its process in s. */
  lemma PutKeeps(s: Sys, p: P)
    requires SInv(s) && PInv(p) && RamOnly(p) && KernelClean(p.m) && p.root != KERNEL_ROOT
    requires p.m.roots == s.m.roots + {p.root} && Apart(s.m, p.m, p.root)
    requires s.swapBlock <= p.swapBlock && DiskKept(P(s.m, p.root, [], 0, s.disk, s.swapBlock), p)
    requires forall b: nat :: HasSlot(p.plist, b) ==> s.swapBlock <= b || (p.root in s.procs && HasSlot(s.procs[p.root].plist, b))
    ensures SInv(Put(s, p))
    ensures forall r :: r in s.procs && r != p.root ==> Undisturbed(Of(s, r), Of(Put(s, p), r))
  {
    hide PInv, RamOnly, Inv, KernelClean, HasSlot, Apart;
    PInvMem(p);
    PInvSlots(p);
    var s1 := Put(s, p);
    forall r | r in s.procs && r != p.root
      ensures Undisturbed(Of(s, r), Of(s1, r)) && ProcOk(s1, r)
    {
      assert ProcOk(s, r);
      ApartOther(s.m, p.m, p.root, r);
      UndisturbedKeeps(Of(s, r), Of(s1, r));
      UndisturbedRam(Of(s, r), Of(s1, r));
    }
    assert Of(s1, p.root) == p;
    PutSlots(s, p);
  }

  lemma PInvSlots(p: P)
    requires PInv(p)
    ensures SWAP_START <= p.swapBlock && p.swapBlock % PAGE_SECTORS == 0
    ensures forall b: nat :: HasSlot(p.plist, b) ==> b + PAGE_SECTORS <= p.swapBlock
  {
    hide Inv, Stacks, EntryOf;
    forall b: nat | HasSlot(p.plist, b)
      ensures b + PAGE_SECTORS <= p.swapBlock
    {
      var i :| 2 <= i < |p.plist| && p.plist[i].atds && p.plist[i].block == b;
      assert PageOk(p, p.plist[i]);
    }
  }

  lemma ApartOther(m: M, m1: M, r: nat, r2: nat)
    requires Apart(m, m1, r) && r2 != r
    ensures m1.shared == m.shared && forall x :: LinkOk(m, x) && x.r == r2 ==> At(m1, x) == At(m, x) && PageSame(m, m1, x)
  {
  }

  lemma PutSlots(s: Sys, p: P)
    requires SInv(s) && s.swapBlock <= p.swapBlock
    requires forall b: nat :: HasSlot(p.plist, b) ==> s.swapBlock <= b || (p.root in s.procs && HasSlot(s.procs[p.root].plist, b))
    ensures SlotsOwned(Put(s, p))
  {
    hide PInv, RamOnly, Inv, KernelClean, HasSlot;
    forall r, b: nat | r in s.procs && HasSlot(s.procs[r].plist, b)
      ensures b < s.swapBlock
    {
      assert ProcOk(s, r);
      PInvSlots(Of(s, r));
    }
  }

  lemma AccessKeeps(s: Sys, r: nat, a: Runs.Event)
    requires SInv(s) && r in s.procs && Runs.Enabled(Of(s, r), a)
    ensures SInv(Put(s, Runs.Apply(Of(s, r), a)))
    ensures forall q :: q in s.procs && q != r ==> Undisturbed(Of(s, q), Of(Put(s, Runs.Apply(Of(s, r), a)), q))
  {
    hide PInv, RamOnly, Inv, KernelClean, HasSlot, Apart, Runs.Apply, Runs.Enabled, SlotsOwned;
    assert ProcOk(s, r);
    var p := Of(s, r);
    ApplyPrivate(p, a);
    ApplyRamOnly(p, a);
    CleanKept(s.m, Runs.Apply(p, a).m, r);
    PutKeeps(s, Runs.Apply(p, a));
  }

  lemma ExecOk(s: Sys, jobs: seq<Job>, st: StackPages)
    requires SInv(s) && ExecFits(s.m, jobs) && PageSized(st)
    ensures (var p := ExecP(s.m, jobs, st, s.disk, s.swapBlock);
      SInv(Put(s, p)) && p.root !in s.procs && p.root !in s.m.roots && InRam(p.root) &&
      forall q :: q in s.procs ==> Undisturbed(Of(s, q), Of(Put(s, p), q)))
  {
    hide PInv, RamOnly, Inv, KernelClean, HasSlot, Apart, ExecFits, ExecP, SlotsOwned, After, WithStacks;
    var p := ExecP(s.m, jobs, st, s.disk, s.swapBlock);
    ExecKeeps(s.m, jobs, st, s.disk, s.swapBlock);
    ExecShape(s.m, jobs, st, s.disk, s.swapBlock);
    ExecRamOnly(s.m, jobs, st, s.disk, s.swapBlock);
    NoSlots(p);
    PutKeeps(s, p);
  }

  lemma ExecShape(m: M, jobs: seq<Job>, st: StackPages, disk: Disk, swapBlock: nat)
    requires ExecFits(m, jobs)
    ensures (var p := ExecP(m, jobs, st, disk, swapBlock); |p.plist| == 2 && p.disk == disk && p.swapBlock == swapBlock && p.pnum == 2)
  {
    hide WithStacks, LoadJobs, StoreStacks;
  }

  lemma NoSlots(p: P)
    requires |p.plist| <= 2
    ensures forall b: nat :: !HasSlot(p.plist, b)
  {
  }

  /** Neither a page of the program nor a stack. */
  predicate Elsewhere(jobs: seq<Job>, page: nat) {
    && PageNo(page) != PageNo(KERNEL_STACK_PAGE) && PageNo(page) != PageNo(USER_STACK_PAGE)
    && forall i :: 0 <= i < |jobs| ==> PageNo(jobs[i].va) != PageNo(page)
  }

  /** What a process just made sees: its program's pages, its two stacks as they were begun, and nothing else. */
  lemma ExecSees(m: M, jobs: seq<Job>, st: StackPages, disk: Disk, swapBlock: nat, page: nat)
    requires ExecFits(m, jobs) && PageSized(st) && SWAP_START <= swapBlock && swapBlock % PAGE_SECTORS == 0
    requires Proper(ExecP(m, jobs, st, disk, swapBlock), page)
    ensures (var e := EntryOf(ExecP(m, jobs, st, disk, swapBlock), page); IsValid(e) ==> InRam(e.ppn))
    ensures page == KERNEL_STACK_PAGE ==> Sees(ExecP(m, jobs, st, disk, swapBlock), page) == Held(st.kernel)
    ensures page == USER_STACK_PAGE ==> Sees(ExecP(m, jobs, st, disk, swapBlock), page) == Held(st.user)
    ensures forall i :: 0 <= i < |jobs| && jobs[i].va == page ==> Sees(ExecP(m, jobs, st, disk, swapBlock), page) == Held(jobs[i].image)
    ensures Elsewhere(jobs, page) ==> Sees(ExecP(m, jobs, st, disk, swapBlock), page) == Absent
  {
    hide PInv, RamOnly, KernelClean, Apart, ExecFits, ExecP, WithStacks, IsValid, At, Canonical, Own, Known, LinkOk, Inv, Vpn0, Vpn1, Vpn2, PageNo, LeafBits, Room;
    ExecKeeps(m, jobs, st, disk, swapBlock);
    ExecShape(m, jobs, st, disk, swapBlock);
    ExecEntry(m, jobs, st, disk, swapBlock, page);
    ShortView(ExecP(m, jobs, st, disk, swapBlock), page);
  }

  lemma ShortView(p: P, page: nat)
    requires |p.plist| == 2
    ensures View(p, page).Absent?
  {
  }

  lemma ExecEntry(m: M, jobs: seq<Job>, st: StackPages, disk: Disk, swapBlock: nat, page: nat)
    requires ExecFits(m, jobs) && PageSized(st) && SWAP_START <= swapBlock && swapBlock % PAGE_SECTORS == 0
    requires Own(ExecP(m, jobs, st, disk, swapBlock).m, NextFrame(m), page)
    ensures (var p := ExecP(m, jobs, st, disk, swapBlock); var e := EntryOf(p, page);
      (IsValid(e) ==> InRam(e.ppn)) &&
      (page == KERNEL_STACK_PAGE ==> IsValid(e) && e.ppn in p.m.data && p.m.data[e.ppn] == st.kernel) &&
      (page == USER_STACK_PAGE ==> IsValid(e) && e.ppn in p.m.data && p.m.data[e.ppn] == st.user) &&
      (forall i :: 0 <= i < |jobs| && jobs[i].va == page ==> IsValid(e) && e.ppn in p.m.data && p.m.data[e.ppn] == jobs[i].image) &&
      (Elsewhere(jobs, page) ==> !IsValid(e)))
  {
    hide PInv, KernelClean, Apart, ExecFits, WithStacks, LoadJobs, IsValid, At, Canonical, Own, Known, LinkOk, Inv, Vpn0, Vpn1, Vpn2, PageNo, LeafBits, Room, NextFrame, StoreStacks, Ptr;
    FitsMeans(m, jobs);
    LoadedKeeps(m, jobs);
    WithStacksIs0(m, jobs);
    var (m3, k, u) := WithStacks(m);
    var p, r := ExecP(m, jobs, st, disk, swapBlock), NextFrame(m);
    var m4 := LoadJobs(m3, r, jobs);
    var lk, lu, l := LeafOf(r, KERNEL_STACK_PAGE), LeafOf(r, USER_STACK_PAGE), LeafOf(r, page);
    StackBits(m);
    NoneInvalid();
    CleanShared(m3);
    CleanShared(m4);
    StackLeaves(m3, r);
    StackLeaves(m4, r);
    PtrAt(m4, lk);
    PtrAt(m4, lu);
    PtrAt(m4, l);
    StoreStacksKeeps(m4, r, lk, lu, st);
    SameLinks(m3, m4);
    SameOwn(m3, p.m, r, page);
    OwnLinks(m3, r, page);
    KnownIn(p.m, k);
    KnownIn(p.m, u);
    if i :| 0 <= i < |jobs| && LeafOf(r, jobs[i].va) == l {
      assert Loaded(m4, r, jobs[i].va, jobs[i].image);
      KnownIn(p.m, EntryOf(p, page).ppn);
      forall j | 0 <= j < |jobs| && jobs[j].va == page
        ensures j == i
      {
        JobOnce(m, jobs, r, i, j);
      }
      SameLeafNo(r, jobs[i].va, page);
      JobNoStack(m, jobs, i);
      NotStackLeaf(r, page);
      assert PageSame(m4, p.m, l);
    } else {
      assert Kept(m3, m4, l);
      assert forall j :: 0 <= j < |jobs| ==> jobs[j].va != page;
      if l != lk && l != lu {
        assert At(m3, l) == NONE;
      } else {
        SameLeafNo(r, page, if l == lk then KERNEL_STACK_PAGE else USER_STACK_PAGE);
      }
    }
  }

  lemma NotStackLeaf(r: nat, page: nat)
    requires PageNo(page) != PageNo(KERNEL_STACK_PAGE) && PageNo(page) != PageNo(USER_STACK_PAGE)
    ensures LeafOf(r, page) != LeafOf(r, KERNEL_STACK_PAGE) && LeafOf(r, page) != LeafOf(r, USER_STACK_PAGE)
  {
    PagesApart(r, page, KERNEL_STACK_PAGE);
    PagesApart(r, page, USER_STACK_PAGE);
  }

  lemma WithStacksIs0(m: M, jobs: seq<Job>)
    requires ExecFits(m, jobs)
    ensures (var m3, r := WithStacks(m).0, NextFrame(m);
      Inv(m3) && KernelClean(m3) && m3.roots == m.roots + {r} &&
      (forall x :: LinkOk(m3, x) && x.r == r && x.Leaf? && x != LeafOf(r, KERNEL_STACK_PAGE) && x != LeafOf(r, USER_STACK_PAGE) ==>
        At(m3, x) == NONE))
  {
    hide Inv, KernelClean, At, LinkOk, WithStacks, NextFrame, Room, LeafOf;
    FitsMeans(m, jobs);
    WithStacksIs(m);
  }

  lemma SameOwn(m: M, m1: M, r: nat, page: nat)
    requires Own(m1, r, page) && m.roots == m1.roots && m.shared == m1.shared
    ensures Own(m, r, page)
  {
  }

  lemma StackBits(m: M)
    ensures IsValid(Pte(0, LeafBits(0))) && IsValid(Pte(0, LeafBits(1)))
    ensures forall f: nat :: IsValid(Pte(f, LeafBits(0))) && IsValid(Pte(f, LeafBits(1)))
  {
    BitsValid(0);
    BitsValid(1);
  }

  lemma SameLeafNo(r: nat, a: nat, b: nat)
    requires LeafOf(r, a) == LeafOf(r, b)
    ensures PageNo(a) == PageNo(b)
  {
    PageNoSplits(a);
    PageNoSplits(b);
  }

  lemma JobOnce(m: M, jobs: seq<Job>, r: nat, i: nat, j: nat)
    requires ExecFits(m, jobs) && i < |jobs| && j < |jobs| && LeafOf(r, jobs[i].va) == LeafOf(r, jobs[j].va)
    ensures i == j
  {
    hide Inv, KernelClean, Room;
    SameLeafNo(r, jobs[i].va, jobs[j].va);
  }

  lemma JobNoStack(m: M, jobs: seq<Job>, i: nat)
    requires ExecFits(m, jobs) && i < |jobs|
    ensures PageNo(jobs[i].va) != PageNo(KERNEL_STACK_PAGE) && PageNo(jobs[i].va) != PageNo(USER_STACK_PAGE)
  {
    hide Inv, KernelClean, Room, PageNo;
  }

  lemma ExecRamOnly(m: M, jobs: seq<Job>, st: StackPages, disk: Disk, swapBlock: nat)
    requires ExecFits(m, jobs) && PageSized(st) && SWAP_START <= swapBlock && swapBlock % PAGE_SECTORS == 0
    ensures RamOnly(ExecP(m, jobs, st, disk, swapBlock))
  {
    hide PInv, ExecFits, ExecP, IsValid, EntryOf, Sees, Proper, View;
    var p := ExecP(m, jobs, st, disk, swapBlock);
    forall page | Proper(p, page) && IsValid(EntryOf(p, page))
      ensures InRam(EntryOf(p, page).ppn)
    {
      ExecSees(m, jobs, st, disk, swapBlock, page);
    }
  }

  // ---------- The end of a process ----------

  lemma {:induction false} FreeAllIs(m: M, fs: seq<nat>)
    ensures FreeAll(m, fs) == m.(free := m.free + fs)
    decreases |fs|
  {
    if fs == [] {
      assert m.free + fs == m.free;
    } else {
      FreeAllIs(FreePage(m, fs[0]), fs[1..]);
      assert m.free + [fs[0]] + fs[1..] == m.free + fs;
    }
  }

  /** The pages on the list of a process are different pages of memory that nobody else reaches. */
  lemma ListGarbage(p: P)
    requires PInv(p)
    ensures var m1 := p.m.(roots := p.m.roots - {p.root}); Inv(m1) && Garbage(m1, ListFrames(p.plist))
  {
    hide PInv, Inv, Garbage, PageOk, Canonical, At, Vpn0, Vpn1, Vpn2, LinkOk, Ptr, Stacks;
    PInvMem(p);
    var n := |p.plist|;
    var ls := seq(n, i requires 0 <= i < n => LeafAt(p, p.plist[i].va));
    forall i | 0 <= i < n
      ensures LinkOk(p.m, ls[i]) && Ptr(p.m, ls[i]) == p.plist[i].f && InRam(p.plist[i].f)
    {
      ListFrame(p, i);
    }
    forall i, j | 0 <= i < j < n
      ensures ls[i] != ls[j]
    {
      ListApart(p, i, j);
    }
    ExitGarbage(p.m, p.root, ls, ListFrames(p.plist));
  }

  lemma ListFrame(p: P, i: nat)
    requires PInv(p) && i < |p.plist|
    ensures LinkOk(p.m, LeafAt(p, p.plist[i].va)) && Ptr(p.m, LeafAt(p, p.plist[i].va)) == p.plist[i].f && InRam(p.plist[i].f)
  {
    hide Inv, At, Slots, IsValid, Canonical, Vpn0, Vpn1, Vpn2;
    OwnLinks(p.m, p.root, p.plist[i].va);
    PtrAt(p.m, LeafAt(p, p.plist[i].va));
    if i >= 2 {
      ListedFrame(p, i);
    }
  }

  lemma ListApart(p: P, i: nat, j: nat)
    requires PInv(p) && 0 <= i < j < |p.plist|
    ensures LeafAt(p, p.plist[i].va) != LeafAt(p, p.plist[j].va)
  {
    hide Inv, Stacks, Slots, PageOk, Canonical, PageNo, Vpn0, Vpn1, Vpn2;
    AlignedPage(p.plist[i].va);
    AlignedPage(p.plist[j].va);
    LeavesApart(p, p.plist[i].va, p.plist[j].va);
  }

  lemma ExitKeeps(s: Sys, r: nat)
    requires SInv(s) && r in s.procs
    ensures SInv(Ended(s, r)) && Ended(s, r).m.free == s.m.free + ListFrames(s.procs[r].plist)
    ensures forall q :: q in s.procs && q != r ==> q in Ended(s, r).procs && Undisturbed(Of(s, q), Of(Ended(s, r), q))
  {
    hide PInv, RamOnly, Inv, KernelClean, HasSlot, Garbage, ListFrames, FreeAll;
    assert ProcOk(s, r);
    var p, s1 := Of(s, r), Ended(s, r);
    ListGarbage(p);
    var m1 := s.m.(roots := s.m.roots - {r});
    FreeAllKeeps(m1, ListFrames(p.plist));
    FreeAllIs(m1, ListFrames(p.plist));
    EndedClean(s.m, s1.m, r);
    forall q | q in s.procs && q != r
      ensures Undisturbed(Of(s, q), Of(s1, q)) && ProcOk(s1, q)
    {
      assert ProcOk(s, q);
      EndedOther(s.m, s1.m, r, q);
      UndisturbedKeeps(Of(s, q), Of(s1, q));
      UndisturbedRam(Of(s, q), Of(s1, q));
    }
  }

  lemma EndedClean(m: M, m1: M, r: nat)
    requires KernelClean(m) && r != KERNEL_ROOT && m1 == m.(roots := m.roots - {r}, free := m1.free)
    ensures KernelClean(m1)
  {
  }

  lemma EndedOther(m: M, m1: M, r: nat, q: nat)
    requires Inv(m) && q != r && m1 == m.(roots := m.roots - {r}, free := m1.free)
    ensures forall x :: LinkOk(m, x) && x.r == q ==> At(m1, x) == At(m, x) && PageSame(m, m1, x)
  {
    hide Inv;
    forall x | LinkOk(m, x) && x.r == q
      ensures At(m1, x) == At(m, x) && PageSame(m, m1, x)
    {
      if InRam(Ptr(m, x)) {
        PagesKnown(m, x);
      }
    }
  }

  // ---------- Runs ----------

  /** Each event keeps the system in order. */
  lemma ApplyKeeps(s: Sys, e: Event)
    requires SInv(s) && Enabled(s, e)
    ensures SInv(Apply(s, e))
    ensures forall q :: q in s.procs && (e.Exec? || q != e.r) ==> q in Apply(s, e).procs && Undisturbed(Of(s, q), Of(Apply(s, e), q))
  {
    hide SInv, ExecP, Ended, Undisturbed, ExecFits, Runs.Apply, Runs.Enabled, Program;
    match e
    case Exec(file, st) => ExecOk(s, Program(file), st);
    case Access(r, a) => AccessKeeps(s, r, a);
    case Exit(r) => ExitKeeps(s, r);
  }

  ghost predicate Allowed(s: Sys, es: seq<Event>)
    requires SInv(s)
    decreases |es|
  {
    es == [] || (Enabled(s, es[0]) && (ApplyKeeps(s, es[0]); Allowed(Apply(s, es[0]), es[1..])))
  }

  ghost function Run(s: Sys, es: seq<Event>): (r: Sys)
    requires SInv(s) && Allowed(s, es)
    ensures SInv(r)
    decreases |es|
  {
    if es == [] then s else (ApplyKeeps(s, es[0]); Run(Apply(s, es[0]), es[1..]))
  }

  /** Every state reached from boot, by any processes: lists of pages are in order, the tables are trees, no page
      of memory and no slot on disk belongs to two pages, and the frame that allocPage gives out next is in use
      nowhere, nor waiting on the list of free frames. */
  lemma NoFrameTwice(s: Sys, es: seq<Event>, r1: nat, a: nat, r2: nat, b: nat)
    requires Start(s) && SInv(s) && Allowed(s, es)
    ensures SInv(Run(s, es))
    ensures (var t := Run(s, es);
      Room(t.m) > 0 ==> (var f := NextFrame(t.m);
        InRam(f) && f !in AllocPage(t.m).free && f !in t.procs && f != KERNEL_ROOT && forall x :: LinkOk(t.m, x) ==> Ptr(t.m, x) != f))
    ensures (var t := Run(s, es);
      r1 in t.procs && r2 in t.procs && Proper(Of(t, r1), a) && Proper(Of(t, r2), b) && (r1 != r2 || a != b) &&
      IsValid(EntryOf(Of(t, r1), a)) && IsValid(EntryOf(Of(t, r2), b)) ==>
      EntryOf(Of(t, r1), a).ppn != EntryOf(Of(t, r2), b).ppn && EntryOf(Of(t, r1), a).ppn !in t.procs && EntryOf(Of(t, r1), a).ppn !in t.m.free)
  {
    hide PInv, Inv, RamOnly, KernelClean, HasSlot, NextFrame, AllocPage, Room, SlotsOwned, Allowed, Run, At, LinkOk, Ptr, IsValid, Canonical;
    var t := Run(s, es);
    if Room(t.m) > 0 {
      NextFrameFree(t.m);
    }
    if r1 in t.procs && r2 in t.procs && Proper(Of(t, r1), a) && Proper(Of(t, r2), b) && (r1 != r2 || a != b) &&
       IsValid(EntryOf(Of(t, r1), a)) && IsValid(EntryOf(Of(t, r2), b)) {
      assert ProcOk(t, r1) && ProcOk(t, r2);
      TwoPages(t, r1, a, r2, b);
    }
  }

  /** In every state reached from boot: the counter of each process is two more than its pages in memory, a page
      is mapped exactly when it is in memory, and the pages on disk, of all processes, own disjoint runs of eight
      sectors below the next free one. */
  lemma PagingReachable(s: Sys, es: seq<Event>, r1: nat, i: nat, r2: nat, j: nat)
    requires Start(s) && SInv(s) && Allowed(s, es)
    requires r1 in Run(s, es).procs
    ensures (var t := Run(s, es); var p := Of(t, r1);
      p.pnum == 2 + Resident(p.plist[2..]) &&
      (2 <= i < |p.plist| ==> var x := p.plist[i];
        (IsValid(EntryOf(p, x.va)) <==> !x.atds) &&
        (x.atds ==> SWAP_START <= x.block && x.block + PAGE_SECTORS <= t.swapBlock)) &&
      (2 <= i < |p.plist| && r2 in t.procs && 2 <= j < |t.procs[r2].plist| && (r1 != r2 || i != j) ==>
        var x, y := p.plist[i], t.procs[r2].plist[j];
        x.atds && y.atds ==> x.block + PAGE_SECTORS <= y.block || y.block + PAGE_SECTORS <= x.block))
  {
    hide PInv, Inv, RamOnly, KernelClean, Allowed, Run, At, IsValid;
    var t := Run(s, es);
    assert ProcOk(t, r1);
    Runs.CountMeans(Of(t, r1));
    if 2 <= i < |t.procs[r1].plist| {
      Runs.PageMeans(Of(t, r1), i);
      if r2 in t.procs && 2 <= j < |t.procs[r2].plist| && (r1 != r2 || i != j) {
        SlotsDiffer(t, r1, i, r2, j);
      }
    }
  }

  lemma SlotsDiffer(t: Sys, r1: nat, i: nat, r2: nat, j: nat)
    requires SInv(t) && r1 in t.procs && r2 in t.procs && 2 <= i < |t.procs[r1].plist| && 2 <= j < |t.procs[r2].plist| && (r1 != r2 || i != j)
    ensures var x, y := t.procs[r1].plist[i], t.procs[r2].plist[j];
      x.atds && y.atds ==> x.block + PAGE_SECTORS <= y.block || y.block + PAGE_SECTORS <= x.block
  {
    hide PInv, Inv, RamOnly, KernelClean, At, IsValid;
    assert ProcOk(t, r1) && ProcOk(t, r2);
    Runs.PageMeans(Of(t, r1), i);
    Runs.PageMeans(Of(t, r2), j);
    var x, y := t.procs[r1].plist[i], t.procs[r2].plist[j];
    if x.atds && y.atds {
      if r1 == r2 {
        Runs.SlotsApart(Of(t, r1), i, j);
      } else {
        assert HasSlot(t.procs[r1].plist, x.block) && HasSlot(t.procs[r2].plist, y.block);
      }
    }
  }

  lemma TwoPages(t: Sys, r1: nat, a: nat, r2: nat, b: nat)
    requires SInv(t) && r1 in t.procs && r2 in t.procs && Proper(Of(t, r1), a) && Proper(Of(t, r2), b) && (r1 != r2 || a != b)
    requires IsValid(EntryOf(Of(t, r1), a)) && IsValid(EntryOf(Of(t, r2), b))
    ensures EntryOf(Of(t, r1), a).ppn != EntryOf(Of(t, r2), b).ppn && EntryOf(Of(t, r1), a).ppn !in t.procs && EntryOf(Of(t, r1), a).ppn !in t.m.free
  {
    hide PInv, KernelClean, HasSlot, SlotsOwned, At, LinkOk, IsValid, Canonical, PageNo, Vpn0, Vpn1, Vpn2, Inv;
    assert ProcOk(t, r1) && ProcOk(t, r2);
    var l1, l2 := LeafOf(r1, a), LeafOf(r2, b);
    AlignedPage(a);
    AlignedPage(b);
    if r1 == r2 {
      LeavesApart(Of(t, r1), a, b);
    }
    OwnLinks(t.m, r1, a);
    OwnLinks(t.m, r2, b);
    PtrAt(t.m, l1);
    PtrAt(t.m, l2);
    DistinctAt(t.m, l1, l2);
    RamTarget(t.m, l1);
  }

  lemma RamTarget(m: M, l: Link)
    requires Inv(m) && LinkOk(m, l) && InRam(Ptr(m, l))
    ensures Ptr(m, l) !in m.free && Ptr(m, l) !in m.roots
  {
    assert TargetOk(m, l);
  }

  /** The memory of process r after a run, from its own events alone. */
  function FlatRun(c: Contents, es: seq<Event>, r: nat, page: nat): Contents
    decreases |es|
  {
    if es == [] then c
    else FlatRun(if es[0].Access? && es[0].r == r then Flat(c, es[0].a, page) else c, es[1..], r, page)
  }

  /** One event, as process r sees it: a step of flat memory if it is its own, and nothing otherwise. */
  lemma ApplyIsolated(s: Sys, e: Event, r: nat, page: nat)
    requires SInv(s) && Enabled(s, e) && r in s.procs && e != Exit(r) && Proper(Of(s, r), page)
    ensures SInv(Apply(s, e)) && r in Apply(s, e).procs && Proper(Of(Apply(s, e), r), page)
    ensures Sees(Of(Apply(s, e), r), page) == if e.Access? && e.r == r then Flat(Sees(Of(s, r), page), e.a, page) else Sees(Of(s, r), page)
  {
    hide PInv, RamOnly, Inv, KernelClean, SlotsOwned, ExecFits, Runs.Apply, Runs.Enabled, Sees, ExecP, Ended, Canonical, Program;
    ApplyKeeps(s, e);
    assert ProcOk(s, r);
    if e.Access? && e.r == r {
      ApplySees(Of(s, r), e.a, page);
      ApplyPrivate(Of(s, r), e.a);
      PrivateProper(Of(s, r), Runs.Apply(Of(s, r), e.a), page);
    } else {
      UndisturbedSees(Of(s, r), Of(Apply(s, e), r), page);
    }
  }

  lemma PrivateProper(p: P, p1: P, page: nat)
    requires Private(p, p1) && Proper(p, page)
    ensures Proper(p1, page)
  {
  }

  /** Memory is private and paging does not show: over any run of any number of processes, with pages of all of
      them going to the same disk and coming back, each process sees flat memory that only its own faults and
      stores change. */
  lemma {:induction false} MemoryIsPrivate(s: Sys, es: seq<Event>, r: nat, page: nat)
    requires SInv(s) && Allowed(s, es) && r in s.procs && Exit(r) !in es && Proper(Of(s, r), page)
    ensures r in Run(s, es).procs && Sees(Of(Run(s, es), r), page) == FlatRun(Sees(Of(s, r), page), es, r, page)
    decreases |es|
  {
    hide SInv, Enabled, Apply, Sees, Proper;
    if es != [] {
      ApplyKeeps(s, es[0]);
      ApplyIsolated(s, es[0], r, page);
      MemoryIsPrivate(Apply(s, es[0]), es[1..], r, page);
    }
  }

  /** The same from boot: a process that do_exec makes after any run sees its program file's pages, its stacks as begun,
      and zeros elsewhere once touched, changed by its own stores alone, until it ends. */
  lemma ProcessSees(s: Sys, es: seq<Event>, file: seq<byte>, st: StackPages, fs: seq<Event>, page: nat)
    requires Start(s) && SInv(s) && Allowed(s, es) && Enabled(Run(s, es), Exec(file, st))
    requires SInv(Apply(Run(s, es), Exec(file, st))) && Allowed(Apply(Run(s, es), Exec(file, st)), fs)
    requires Exit(NextFrame(Run(s, es).m)) !in fs && Proper(ExecP(Run(s, es).m, Program(file), st, Run(s, es).disk, Run(s, es).swapBlock), page)
    ensures (var t, r := Run(Apply(Run(s, es), Exec(file, st)), fs), NextFrame(Run(s, es).m); var jobs := Program(file);
      r in t.procs &&
      (page == KERNEL_STACK_PAGE ==> Sees(Of(t, r), page) == FlatRun(Held(st.kernel), fs, r, page)) &&
      (page == USER_STACK_PAGE ==> Sees(Of(t, r), page) == FlatRun(Held(st.user), fs, r, page)) &&
      (forall i :: 0 <= i < |jobs| && jobs[i].va == page ==> Sees(Of(t, r), page) == FlatRun(Held(jobs[i].image), fs, r, page)) &&
      (Elsewhere(jobs, page) ==> Sees(Of(t, r), page) == FlatRun(Absent, fs, r, page)))
  {
    hide PInv, RamOnly, Inv, KernelClean, SlotsOwned, ExecFits, ExecP, Program, Sees, Proper, FlatRun, Run, Allowed, PageNo;
    var s1 := Run(s, es);
    var p := ExecP(s1.m, Program(file), st, s1.disk, s1.swapBlock);
    ExecOk(s1, Program(file), st);
    ExecRoot(s1.m, Program(file), st, s1.disk, s1.swapBlock);
    ExecSees(s1.m, Program(file), st, s1.disk, s1.swapBlock, page);
    assert Of(Apply(s1, Exec(file, st)), p.root) == p;
    MemoryIsPrivate(Apply(s1, Exec(file, st)), fs, p.root, page);
  }

  lemma ExecRoot(m: M, jobs: seq<Job>, st: StackPages, disk: Disk, swapBlock: nat)
    requires ExecFits(m, jobs)
    ensures ExecP(m, jobs, st, disk, swapBlock).root == NextFrame(m)
  {
    hide WithStacks, LoadJobs, StoreStacks;
  }

  // ---------- The start is real ----------

  function BootTable(kernel: Pte, f: nat): seq<Pte> {
    if f == KERNEL_ROOT then BlankTable()[KERNEL_SLOT := kernel] else BlankTable()
  }

  function BootBytes(f: nat): seq<byte> {
    BlankPage()
  }

  /** Memory at boot, with this entry in the kernel's directory. */
  function BootMemory(kernel: Pte): M {
    M(map f: nat | FIRST_FRAME <= f <= KERNEL_ROOT :: BootTable(kernel, f), map f: nat | FIRST_FRAME <= f <= KERNEL_ROOT :: BootBytes(f),
      FIRST_FRAME - 1, [], {KERNEL_ROOT}, {KERNEL_SLOT})
  }

  /** From there a first process can be made. */
  lemma FirstProcess(kernel: Pte, st: StackPages, disk: Disk)
    requires PageSized(st)
    ensures Booted(BootMemory(kernel)) && ExecFits(BootMemory(kernel), [])
    ensures (var s := Sys(BootMemory(kernel), disk, SWAP_START, map[]);
      Start(s) && SInv(s) && PInv(ExecP(s.m, [], st, disk, SWAP_START)) && ExecP(s.m, [], st, disk, SWAP_START).root == FIRST_FRAME)
  {
    hide PInv, Inv, ExecP;
    var m := BootMemory(kernel);
    assert m.table[KERNEL_ROOT] == BootTable(kernel, KERNEL_ROOT);
    StartOk(Sys(m, disk, SWAP_START, map[]));
    ExecKeeps(m, [], st, disk, SWAP_START);
  }
}
