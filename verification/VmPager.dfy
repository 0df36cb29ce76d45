/** The page-fault handlers as they are written: the list of pages walked and changed in place. */
module VmPager {
  import opened VmMemory
  import opened VmMap
  import opened VmPaging
  import opened VmIo
  import opened VmBoot
  import opened VmElf
  import opened VmExec
  import opened Vm
  import Rights = VmRights
  import VmSystem

  class Process {
    const mem: Memory
    /** Physical address of the page directory. */
    const pgdir: nat
    var plist: seq<Page>
    var pnum: int
    var disk: Disk
    var swapBlock: nat

    /** What do_exec does to memory: a new directory, its two stacks, the program loaded, arguments and first
        registers stored in the stacks, and both stacks listed. */
    constructor (mem: Memory, file: seq<byte>, st: StackPages, disk: Disk, swapBlock: nat)
      requires (Refused(file) || GoodFile(file)) && ExecFits(mem.State(), Program(file)) && PageSized(st)
      requires SWAP_START <= swapBlock && swapBlock % PAGE_SECTORS == 0
      modifies mem`table, mem`data, mem`curr, mem`free, mem`roots
      ensures this.mem == mem && State() == ExecP(old(mem.State()), Program(file), st, disk, swapBlock) && Valid()
    {
      hide ExecFits, Inv, KernelClean, Room, NewRoot, MapPage, LoadJobs, Known, Own, Jobs, PInv, WithStacks, Apart, NextFrame, Clear, LeafBits, MappedPage;
      ghost var m := mem.State();
      FitsMeans(m, Program(file));
      ExecPath(m, Program(file));
      var dir := mem.NewDirectory();
      KvaRoundTrip(NextFrame(m));
      var kernelStack := mem.AllocPageHelper(KERNEL_STACK_PAGE, dir, 0);
      var userStack := mem.AllocPageHelper(USER_STACK_PAGE, dir, 1);
      var entry := LoadElf(mem, file, dir);
      NoJobs(WithStacks(m).0, NextFrame(m));
      mem.data := mem.data[FrameOf(kernelStack) := st.kernel][FrameOf(userStack) := st.user];
      this.mem, pgdir, pnum, this.disk, this.swapBlock := mem, Kva2Pa(dir), 2, disk, swapBlock;
      plist := [Page(KERNEL_STACK_PAGE, FrameOf(kernelStack), true, 0, Nowhere), Page(USER_STACK_PAGE, FrameOf(userStack), true, 0, Nowhere)];
      new;
      ExecKeeps(m, Program(file), st, disk, swapBlock);
      ExecPIs(m, Program(file), st, disk, swapBlock);
    }

    ghost function State(): P
      reads this, mem
    {
      P(mem.State(), pgdir / PAGE_SIZE, plist, pnum, disk, swapBlock)
    }

    ghost predicate Valid()
      reads this, mem
    {
      PInv(State()) && pgdir % PAGE_SIZE == 0 && pgdir / PAGE_SIZE < LIMIT_FRAME
    }

    /** do_swap */
    method Swap() returns (ret: int)
      requires Valid()
      modifies this`plist, this`pnum, this`disk, this`swapBlock, mem`table
      ensures (State(), ret) == DoSwap(old(State())) && Valid()
    {
      hide PInv, CheckAd, SwapOut, DoSwap, Known;
      ghost var p := State();
      DoSwapKeeps(p);
      DoSwapIs(p);
      KvaRoundTrip(pgdir / PAGE_SIZE);
      PInvMemory(p);
      var i := 0;
      while i < |plist|
        invariant i <= |plist| && State() == p && Victim(p, 0) == Victim(p, i)
      {
        ListedOwn(p, i);
        VictimStep(p, i);
        var at := mem.DoCheckAd(plist[i].va, Pa2Kva(pgdir));
        if at.Nowhere? {
          return 0;
        }
        if !plist[i].atds {
          TakeOut(i, at);
          return 1;
        }
        i := i + 1;
      }
      VictimStep(p, i);
      ret := 0;
    }

    /** Page i is written to disk and its entry made invalid. */
    method TakeOut(i: nat, at: Place)
      requires i < |plist| && at.Place? && Known(mem.State(), at.f) && at.i < ENTRIES && Known(mem.State(), plist[i].f)
      modifies this`plist, this`pnum, this`disk, this`swapBlock, mem`table
      ensures State() == SwapOut(old(State()), i, at)
    {
      hide WriteSectors;
      disk := WriteSectors(disk, swapBlock, mem.data[plist[i].f], PAGE_SECTORS);
      plist := plist[i := plist[i].(atds := true, pte := at, block := swapBlock)];
      swapBlock := swapBlock + PAGE_SECTORS;
      mem.StorePte(at.f, at.i, ClearValid(mem.table[at.f][at.i]));
      pnum := pnum - 1;
    }

    /** do_unswap */
    method Unswap(va: nat) returns (ret: int)
      requires Valid() && (FindSwapped(plist, va) < |plist| ==> FindSwapped(plist, va) >= 2)
      modifies this`plist, this`pnum, mem`table, mem`data
      ensures ret == if FindSwapped(old(plist), va) < |old(plist)| then 1 else 0
      ensures ret == 0 ==> State() == old(State())
      ensures ret == 1 ==> (var i := FindSwapped(old(plist), va); var x := old(plist)[i];
        x.pte.Place? && Known(old(State()).m, x.pte.f) && x.pte.i < ENTRIES && OnDisk(old(disk), x.block, PAGE_SECTORS) &&
        State() == SwapIn(old(State()), i))
      ensures Valid()
    {
      hide PInv, SwapIn, Known, OnDisk, FindSwapped, OnlyAt, Holds, Room;
      ghost var p := State();
      var i := 0;
      while i < |plist|
        invariant i <= |plist| && State() == p
        invariant forall j :: 0 <= j < i ==> !(plist[j].va == va && plist[j].atds)
      {
        if va == plist[i].va && plist[i].atds {
          FoundSwapped(plist, va, i);
          SwapInPlace(p, i);
          SwapInKeeps(p, i);
          BringIn(i);
          SwapInRoot(p, i);
          return 1;
        }
        i := i + 1;
      }
      FoundSwapped(plist, va, i);
      ret := 0;
    }

    /** Page i is read back, its entry made valid, and the page moved to the end of the list. */
    method BringIn(i: nat)
      requires i < |plist| && plist[i].pte.Place? && Known(mem.State(), plist[i].pte.f) && plist[i].pte.i < ENTRIES
      requires OnDisk(disk, plist[i].block, PAGE_SECTORS) && Known(mem.State(), plist[i].f)
      modifies this`plist, this`pnum, mem`table, mem`data
      ensures State() == SwapIn(old(State()), i)
    {
      hide ReadSectors, OnDisk;
      var x := plist[i];
      mem.data := mem.data[x.f := ReadSectors(disk, x.block, PAGE_SECTORS)];
      mem.StorePte(x.pte.f, x.pte.i, SetAttribute(mem.table[x.pte.f][x.pte.i], PRESENT));
      pnum := pnum + 1;
      plist := plist[..i] + plist[i + 1..] + [x.(atds := false, block := 0)];
    }

    /** handle_load_page_fault */
    method HandleLoadPageFault(stval: nat)
      requires Valid() && Canonical(stval) && Own(State().m, State().root, stval) && Served(State(), stval)
      modifies this`plist, this`pnum, this`disk, this`swapBlock, mem
      ensures State() == Fault(old(State()), stval, ACCESSED) && Valid()
      ensures var p, x := old(State()), EntryOf(old(State()), stval);
        CheckAd(p.m, p.root, stval).Place? ==>
          CheckAd(State().m, State().root, stval) == CheckAd(p.m, p.root, stval) && EntryOf(State(), stval) == Pte(x.ppn, x.flags | 0x40)
    {
      hide PInv, Fault, CheckAd, At, Canonical, Own, Served, IsValid;
      MarkedOnly(State(), stval, ACCESSED);
      HandleFault(stval, ACCESSED);
    }

    /** handle_store_page_fault */
    method HandleStorePageFault(stval: nat)
      requires Valid() && Canonical(stval) && Own(State().m, State().root, stval) && Served(State(), stval)
      modifies this`plist, this`pnum, this`disk, this`swapBlock, mem
      ensures State() == Fault(old(State()), stval, ACCESSED | DIRTY) && Valid()
      ensures var p, x := old(State()), EntryOf(old(State()), stval);
        CheckAd(p.m, p.root, stval).Place? ==>
          CheckAd(State().m, State().root, stval) == CheckAd(p.m, p.root, stval) && EntryOf(State(), stval) == Pte(x.ppn, x.flags | 0xc0)
    {
      hide PInv, Fault, CheckAd, At, Canonical, Own, Served, IsValid;
      assert ACCESSED | DIRTY == 0xc0;
      MarkedOnly(State(), stval, ACCESSED | DIRTY);
      HandleFault(stval, ACCESSED | DIRTY);
    }

    /** The two handlers differ only in the attributes that a present page gets. */
    method HandleFault(stval: nat, bits: bv10)
      requires Valid() && Canonical(stval) && Own(State().m, State().root, stval) && Served(State(), stval)
      requires bits == ACCESSED || bits == ACCESSED | DIRTY
      modifies this`plist, this`pnum, this`disk, this`swapBlock, mem
      ensures State() == Fault(old(State()), stval, bits) && Valid()
    {
      hide PInv, CheckAd, SetAccess, SwapIn, AddPage, DoSwap, Known, OnDisk, FindSwapped, OnlyAt, Holds, Room, Own, Canonical, View, Fresh, IsValid, At, Inv, MapPage;
      ghost var p := State();
      FaultBits();
      FaultKeeps(p, stval, bits);
      PInvMemory(p);
      KvaRoundTrip(pgdir / PAGE_SIZE);
      var at := mem.DoCheckAd(stval, Pa2Kva(pgdir));
      if at.Place? {
        PlaceKnown(p.m, p.root, stval);
        MarkPage(at, bits);
      } else {
        FaultFinds(p, stval);
        var done := Unswap(PageOf(stval));
        if done == 1 {
          if pnum >= MAX_RESIDENT {
            var r := Swap();
          }
        } else {
          DoSwapKeeps(p);
          FreshAfterSwap2(p, stval);
          if pnum >= MAX_RESIDENT {
            var r := Swap();
          }
          NewPage(stval);
        }
      }
    }

    /** The loop of do_exit and do_kill that gives back every page on the list. */
    method ReleasePages()
      requires Valid()
      modifies this`plist, mem`free, mem`roots
      ensures plist == [] && Inv(mem.State())
      ensures (var p := old(State());
        mem.State() == FreeAll(p.m.(roots := p.m.roots - {p.root}), VmSystem.ListFrames(p.plist)) &&
        mem.State().free == p.m.free + VmSystem.ListFrames(p.plist))
    {
      hide PInv, Inv, Garbage;
      ghost var p := State();
      VmSystem.ListGarbage(p);
      mem.roots := mem.roots - {p.root};
      ghost var m := mem.State();
      FreeAllKeeps(m, VmSystem.ListFrames(plist));
      VmSystem.FreeAllIs(m, VmSystem.ListFrames(plist));
      while |plist| > 0
        invariant FreeAll(mem.State(), VmSystem.ListFrames(plist)) == FreeAll(m, VmSystem.ListFrames(p.plist))
        decreases |plist|
      {
        assert VmSystem.ListFrames(plist)[0] == plist[0].f && VmSystem.ListFrames(plist)[1..] == VmSystem.ListFrames(plist[1..]);
        mem.DoFreePage(plist[0].f * PAGE_SIZE);
        plist := plist[1..];
      }
      assert VmSystem.ListFrames([]) == [];
    }

    method MarkPage(at: Place, bits: bv10)
      requires at.Place? && Known(mem.State(), at.f) && at.i < ENTRIES
      modifies mem`table
      ensures State() == SetAccess(old(State()), at, bits)
    {
      mem.StorePte(at.f, at.i, SetAttribute(mem.table[at.f][at.i], bits));
    }

    /** The end of a handler, for a page that is nowhere. */
    method NewPage(stval: nat)
      requires Valid() && Own(State().m, State().root, stval) && Room(State().m) >= 3
      modifies this`plist, this`pnum, mem`table, mem`data, mem`curr, mem`free
      ensures Known(old(State()).m, old(State()).root) && State() == AddPage(old(State()), stval)
    {
      hide PInv, Own, Room, Known, MapPage, Inv;
      PInvMemory(State());
      KvaRoundTrip(pgdir / PAGE_SIZE);
      var kva := mem.AllocPageHelper(stval, Pa2Kva(pgdir), 1);
      pnum := pnum + 1;
      plist := plist + [Page(PageOf(stval), FrameOf(kva), false, 0, Nowhere)];
    }
  }

  lemma MarkedOnly(p: P, stval: nat, bits: bv10)
    requires PInv(p) && Canonical(stval) && Own(p.m, p.root, stval) && Served(p, stval) && (bits == 0x40 || bits == 0xc0)
    ensures var p1, x := Fault(p, stval, bits), EntryOf(p, stval);
      CheckAd(p.m, p.root, stval).Place? ==>
        CheckAd(p1.m, p1.root, stval) == CheckAd(p.m, p.root, stval) && EntryOf(p1, stval) == Pte(x.ppn, x.flags | bits)
  {
    hide PInv, Fault, CheckAd, At, Canonical, Own, Served, IsValid;
    if CheckAd(p.m, p.root, stval).Place? {
      Rights.MappedFault(p, stval, bits);
    }
  }

  lemma PInvMemory(p: P)
    requires PInv(p)
    ensures Inv(p.m) && p.root in p.m.roots
  {
  }

  lemma ListedOwn(p: P, i: nat)
    requires PInv(p) && i < |p.plist|
    ensures Own(p.m, p.root, p.plist[i].va)
  {
  }

  lemma VictimStep(p: P, i: nat)
    requires PInv(p) && i <= |p.plist|
    ensures i == |p.plist| ==> Victim(p, i) == -1
    ensures i < |p.plist| ==>
      Victim(p, i) == if CheckAd(p.m, p.root, p.plist[i].va).Nowhere? then -1 else if !p.plist[i].atds then i else Victim(p, i + 1)
    ensures var v := Victim(p, 0); v >= 0 ==>
      Known(p.m, p.plist[v].f) && Known(p.m, CheckAd(p.m, p.root, p.plist[v].va).f) && CheckAd(p.m, p.root, p.plist[v].va).i < ENTRIES
  {
    hide PInv, Known, CheckAd;
    VictimKnown(p);
  }

  lemma DoSwapIs(p: P)
    requires PInv(p)
    ensures Victim(p, 0) == -1 ==> DoSwap(p) == (p, 0)
    ensures Victim(p, 0) >= 0 ==>
      CheckAd(p.m, p.root, p.plist[Victim(p, 0)].va).Place? && Known(p.m, CheckAd(p.m, p.root, p.plist[Victim(p, 0)].va).f) &&
      CheckAd(p.m, p.root, p.plist[Victim(p, 0)].va).i < ENTRIES && Known(p.m, p.plist[Victim(p, 0)].f) &&
      DoSwap(p) == (SwapOut(p, Victim(p, 0), CheckAd(p.m, p.root, p.plist[Victim(p, 0)].va)), 1)
  {
    hide PInv, Known, CheckAd, Victim, SwapOut;
    VictimKnown(p);
  }

  lemma FoundSwapped(s: seq<Page>, va: nat, i: nat)
    requires i <= |s| && (i < |s| ==> s[i].va == va && s[i].atds)
    requires forall j :: 0 <= j < i ==> !(s[j].va == va && s[j].atds)
    ensures FindSwapped(s, va) == i
  {
  }

  lemma SwapInRoot(p: P, i: nat)
    requires i < |p.plist| && p.plist[i].pte.Place? && Known(p.m, p.plist[i].pte.f) && p.plist[i].pte.i < ENTRIES
    requires OnDisk(p.disk, p.plist[i].block, PAGE_SECTORS)
    ensures SwapIn(p, i).root == p.root
  {
  }

  lemma FreshAfterSwap2(p: P, stval: nat)
    requires PInv(p) && Fresh(p, stval)
    ensures Own(p.m, p.root, stval) && Own(DoSwap(p).0.m, DoSwap(p).0.root, stval)
  {
    hide PInv, DoSwap, Room, At, IsValid;
    DoSwapKeeps(p);
  }

  /** What each step of do_exec may rely on. */
  lemma ExecPath(m: M, jobs: seq<Job>)
    requires ExecFits(m, jobs)
    ensures KERNEL_ROOT in m.table && NextFrame(m) < LIMIT_FRAME
    ensures (var m1, r := NewRoot(m), NextFrame(m);
      Inv(m1) && Own(m1, r, KERNEL_STACK_PAGE) && Room(m1) >= 3 && Known(m1, r) &&
      (var m2 := MapPage(m1, r, KERNEL_STACK_PAGE, 0).0;
       Inv(m2) && Own(m2, r, USER_STACK_PAGE) && Room(m2) >= 3 && Known(m2, r) &&
       (var m3 := MapPage(m2, r, USER_STACK_PAGE, 1).0;
        m3 == WithStacks(m).0 && Inv(m3) && Clear(m3, r, jobs) && Room(m3) >= 3 * |jobs| &&
        WithStacks(m) == (m3, FrameOf(MapPage(m1, r, KERNEL_STACK_PAGE, 0).1), FrameOf(MapPage(m2, r, USER_STACK_PAGE, 1).1)))))
  {
    hide Inv, KernelClean, Room, NewRoot, MapPage, LoadJobs, Known, Apart, NextFrame, Clear, LeafBits, MappedPage, At, LinkOk, Images;
    NewRootKeeps(m);
    CleanShared(NewRoot(m));
    FirstStack(m);
    WithStacksIs(m);
    ExecClear(m, jobs);
    StackSlots();
    NextFrameFree(m);
    var m1, r := NewRoot(m), NextFrame(m);
    MappedMeans(m1, MapPage(m1, r, KERNEL_STACK_PAGE, 0).0, r, KERNEL_STACK_PAGE, FrameOf(MapPage(m1, r, KERNEL_STACK_PAGE, 0).1), LeafBits(0));
  }

  lemma ExecPIs(m: M, jobs: seq<Job>, st: StackPages, disk: Disk, swapBlock: nat)
    requires ExecFits(m, jobs)
    ensures ExecP(m, jobs, st, disk, swapBlock) == P(StoreStacks(LoadJobs(WithStacks(m).0, NextFrame(m), jobs), WithStacks(m).1, WithStacks(m).2, st), NextFrame(m),
      [Page(KERNEL_STACK_PAGE, WithStacks(m).1, true, 0, Nowhere), Page(USER_STACK_PAGE, WithStacks(m).2, true, 0, Nowhere)], 2, disk, swapBlock)
  {
    hide WithStacks, LoadJobs;
  }
}
