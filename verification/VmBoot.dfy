/** Page directories: the kernel's at boot, and a copy of it for each process. */
module VmBoot {
  import opened VmMemory
  import opened VmMap
  import opened VmIo

  /** The one top-level slot that setup_vm fills and cancel_mapping leaves, shared by all directories. */
  const KERNEL_SLOT := 257
  const KERNEL_FIRST := 0xffff_ffc0_5020_0000
  const KERNEL_LAST := 0xffff_ffc0_6000_0000

  /** setup_vm's addresses of all physical memory lie in that slot. */
  lemma KernelSlot(kva: nat)
    requires KERNEL_FIRST <= kva < KERNEL_LAST
    ensures Vpn2(kva) == KERNEL_SLOT
  {
    var off := kva - 0xffff_ffc0_0000_0000;
    assert kva == 0x80_0000_0000 * 0x1FF_FFFF + 0x40_0000_0000 + off;
    assert kva % 0x80_0000_0000 == 0x40_0000_0000 + off;
  }

  /** The kernel's directory has entries only in the slots it shares. */
  predicate KernelClean(m: M) {
    && KERNEL_ROOT in m.roots && m.shared == {KERNEL_SLOT}
    && forall i: nat :: i < ENTRIES && i !in m.shared ==> Entry(m, KERNEL_ROOT, i) == NONE
  }

  /** Memory once the boot mapping is gone: the kernel's directory, and no frame handed out. */
  ghost predicate Booted(m: M) {
    && m.roots == {KERNEL_ROOT} && KernelClean(m) && Known(m, KERNEL_ROOT)
    && m.curr == FIRST_FRAME - 1 && m.free == []
    && forall f: nat :: InRam(f) ==> Known(m, f)
  }

  /** Under an empty top-level entry nothing is found. */
  lemma EmptyBelow(m: M, l: Link)
    requires LinkOk(m, l) && Entry(m, l.r, l.i) == NONE
    ensures At(m, l) == NONE && Ptr(m, l) == 0
  {
  }

  /** At boot every frame is free for the taking and the tables are trees. */
  lemma BootInv(m: M)
    requires Booted(m)
    ensures Inv(m)
  {
    hide At, Node, Ptr, Entry;
    forall l | LinkOk(m, l)
      ensures TargetOk(m, l) && Ptr(m, l) == 0
    {
      EmptyBelow(m, l);
      NoneInvalid();
    }
  }

  // ---------- A new directory ----------

  /** do_exec's allocPage and memcpy: a fresh frame with the kernel's entries. */
  function NewRoot(m: M): M
    requires Room(m) > 0 && KERNEL_ROOT in m.table
  {
    var m1, f := AllocPage(m), NextFrame(m);
    m1.(table := m1.table[f := m.table[KERNEL_ROOT]], roots := m1.roots + {f})
  }

  /** Memory changed for r alone: all entries of the other directories are as they were, and so is every page
      and every table they lead to. */
  ghost predicate Apart(m: M, m1: M, r: nat) {
    && m1.shared == m.shared && m.roots <= m1.roots
    && forall x :: LinkOk(m, x) && x.r != r ==> LinkOk(m1, x) && At(m1, x) == At(m, x) && PageSame(m, m1, x)
  }

  ghost predicate PageSame(m: M, m1: M, x: Link) {
    InRam(Ptr(m, x)) ==> Known(m, Ptr(m, x)) && Known(m1, Ptr(m, x)) && m1.data[Ptr(m, x)] == m.data[Ptr(m, x)]
  }

  lemma ApartTrans(a: M, b: M, c: M, r: nat)
    requires Apart(a, b, r) && Apart(b, c, r)
    ensures Apart(a, c, r)
  {
    hide At, Known, LinkOk;
    PtrsAt(a, b);
    PtrsAt(b, c);
  }

  lemma ApartSelf(m: M, r: nat)
    requires Inv(m)
    ensures Apart(m, m, r)
  {
    hide Inv, LinkOk, Ptr, At, Known;
    SamePagesSelf(m);
  }

  lemma NewRootRest(m: M)
    requires Room(m) > 0 && KERNEL_ROOT in m.table && InRam(NextFrame(m))
    ensures var m1, f := NewRoot(m), NextFrame(m);
      m1.roots == m.roots + {f} && m1.shared == m.shared && m1.curr == AllocPage(m).curr && m1.free == AllocPage(m).free &&
      m1.data == AllocPage(m).data && Room(m1) == Room(m) - 1 &&
      (forall x: nat :: Entry(m1, f, x) == Entry(m, KERNEL_ROOT, x)) &&
      (forall g: nat, x: nat :: g != f ==> Entry(m1, g, x) == Entry(m, g, x))
    ensures forall l :: LinkOk(m, l) ==> LinkOk(NewRoot(m), l)
    ensures forall l :: LinkOk(NewRoot(m), l) && l.r != NextFrame(m) ==> LinkOk(m, l)
  {
  }

  /** The new directory changes no other one. */
  lemma NewRootSame(m: M, l: Link)
    requires Inv(m) && KernelClean(m) && Room(m) > 0 && LinkOk(m, l)
    ensures l.r != NextFrame(m) && KERNEL_ROOT in m.table && At(NewRoot(m), l) == At(m, l)
  {
    hide Inv, NewRoot, AllocPage, LinkOk, Ptr;
    CleanRoot(m);
    NextFrameFree(m);
    NewRootRest(m);
    match l
    case Top(r, i) => LinkRoot(m, l);
    case Mid(r, i, j) =>
      LinkRoot(m, l);
      AboveOk(m, l);
      PtrIs(m, r, i, j);
    case Leaf(r, i, j, k) =>
      LinkRoot(m, l);
      AboveOk(m, l);
      AboveOk(m, Mid(r, i, j));
      PtrIs(m, r, i, j);
  }

  /** No table hangs off the new directory yet. */
  lemma NewRootEmpty(m: M, l: Link)
    requires Inv(m) && KernelClean(m) && Room(m) > 0 && KERNEL_ROOT in m.table
    requires LinkOk(NewRoot(m), l) && l.r == NextFrame(m)
    ensures At(NewRoot(m), l) == NONE && Ptr(NewRoot(m), l) == 0
  {
    hide Inv, NewRoot, AllocPage, Ptr;
    NextFrameFree(m);
    NewRootRest(m);
    EmptyBelow(NewRoot(m), l);
  }

  lemma CleanRoot(m: M)
    requires Inv(m) && KernelClean(m)
    ensures Known(m, KERNEL_ROOT) && KERNEL_ROOT in m.table && !InRam(KERNEL_ROOT)
  {
  }

  lemma NewRootFrames(m: M)
    requires Inv(m) && KernelClean(m) && Room(m) > 0
    ensures KERNEL_ROOT in m.table && Frames(NewRoot(m)) && forall g :: Known(m, g) ==> Known(NewRoot(m), g)
  {
    hide Targets, Distinct, NextFrame;
    NextFrameFree(m);
    AllocFrames(m);
    var m1, f := NewRoot(m), NextFrame(m);
    assert forall g :: Known(AllocPage(m), g) ==> Known(m1, g);
  }

  lemma NewRootTarget(m: M, l: Link)
    requires Inv(m) && KernelClean(m) && Room(m) > 0 && KERNEL_ROOT in m.table && LinkOk(NewRoot(m), l)
    ensures TargetOk(NewRoot(m), l)
  {
    hide Inv, LinkOk, At, AllocPage, NewRoot;
    NextFrameFree(m);
    NewRootRest(m);
    if l.r == NextFrame(m) {
      NewRootEmpty(m, l);
      NoneInvalid();
    } else {
      NewRootSame(m, l);
      AllocTarget(m, l);
      AllocSame(m, l);
      AllocRest(m);
    }
  }

  /** A new directory keeps the tables trees, belongs to no other process, and maps nothing yet outside the
      kernel's part; every other directory is as it was. */
  lemma NewRootKeeps(m: M)
    requires Inv(m) && KernelClean(m) && Room(m) > 0
    ensures KERNEL_ROOT in m.table
    ensures var m1, f := NewRoot(m), NextFrame(m);
      Inv(m1) && KernelClean(m1) && Room(m1) == Room(m) - 1 && InRam(f) && f !in m.roots && m1.roots == m.roots + {f} && Apart(m, m1, f)
    ensures forall i :: i in m.shared ==> Entry(NewRoot(m), NextFrame(m), i) == Entry(m, KERNEL_ROOT, i)
    ensures forall l :: LinkOk(NewRoot(m), l) && l.r == NextFrame(m) ==> At(NewRoot(m), l) == NONE
  {
    hide Frames, TargetOk, LinkOk, At, AllocPage, NewRoot, NextFrame, Known;
    CleanRoot(m);
    NextFrameFree(m);
    NewRootRest(m);
    NewRootFrames(m);
    AllocSamePages(m);
    var m1, f := NewRoot(m), NextFrame(m);
    forall l | LinkOk(m1, l)
      ensures TargetOk(m1, l)
      ensures if l.r == f then At(m1, l) == NONE && Ptr(m1, l) == 0 else LinkOk(m, l) && At(m1, l) == At(m, l)
    {
      NewRootTarget(m, l);
      if l.r == f {
        NewRootEmpty(m, l);
      } else {
        NewRootSame(m, l);
      }
    }
    PtrsAt(m, m1);
    forall l | LinkOk(m, l)
      ensures l.r != f && At(m1, l) == At(m, l) && PageSame(m, m1, l)
    {
      NewRootSame(m, l);
      SamePagesAt(m, AllocPage(m), l);
    }
  }
}
