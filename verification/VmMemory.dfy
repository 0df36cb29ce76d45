/** Physical memory under Sv39 paging: frames, the page allocator, and three-level page tables that stay trees.
    A frame is seen as 512 page-table entries or as 4096 bytes; a frame in use is only ever one of the two. */
module VmMemory {

  type byte = bv8

  const PAGE_SIZE := 4096
  const ENTRIES := 512
  const KERNEL_VM_START := 0xffff_ffc0_0000_0000

  /** The frames that allocPage hands out lie from the end of the boot stacks to the kmalloc region. */
  const FIRST_FRAME := 0x51003
  const LIMIT_FRAME := 0x53000

  predicate InRam(f: nat) {
    FIRST_FRAME <= f < LIMIT_FRAME
  }

  function U64(x: int): nat {
    x % 0x1_0000_0000_0000_0000
  }

  function Kva2Pa(kva: nat): nat {
    U64(kva - KERNEL_VM_START)
  }

  function Pa2Kva(pa: nat): nat {
    U64(pa + KERNEL_VM_START)
  }

  /** The kernel's address of frame f, and back. */
  function KvaOf(f: nat): nat {
    Pa2Kva(f * PAGE_SIZE)
  }

  function FrameOf(kva: nat): nat {
    Kva2Pa(kva) / PAGE_SIZE
  }

  lemma KvaRoundTrip(f: nat)
    requires f < LIMIT_FRAME
    ensures FrameOf(KvaOf(f)) == f && KvaOf(f) != 0 && Kva2Pa(KvaOf(f)) == f * PAGE_SIZE
  {
  }

  // ---------- Page-table entries ----------

  /** A page-table entry: physical page number and the ten low bits. */
  datatype Pte = Pte(ppn: nat, flags: bv10)

  const PRESENT: bv10 := 1
  const READ: bv10 := 2
  const WRITE: bv10 := 4
  const EXEC: bv10 := 8
  const USER: bv10 := 16
  const ACCESSED: bv10 := 64
  const DIRTY: bv10 := 128

  const NONE := Pte(0, 0)

  predicate IsValid(e: Pte) {
    e.flags & PRESENT != 0
  }

  /** set_pfn, on the 44-bit field: the attributes are cleared. */
  function SetPfn(pfn: nat): Pte {
    Pte(pfn % 0x1000_0000_0000, 0)
  }

  function SetAttribute(e: Pte, bits: bv10): Pte {
    e.(flags := e.flags | bits)
  }

  function ClearValid(e: Pte): Pte {
    e.(flags := e.flags & !PRESENT)
  }

  lemma OrSets(f: bv10, bits: bv10)
    requires bits & 1 != 0 || f & 1 != 0
    ensures (f | bits) & 1 != 0
  {
  }

  lemma OrKeeps(f: bv10, bits: bv10)
    requires bits & 1 == 0
    ensures (f | bits) & 1 == f & 1
  {
  }

  lemma ClearClears(f: bv10)
    ensures (f & !1) & 1 == 0
  {
  }

  lemma ClearThenSet(f: bv10)
    requires f & 1 != 0
    ensures (f & !1) | 1 == f
  {
  }

  lemma OrHas(f: bv10, bits: bv10)
    ensures (f | bits) & bits == bits
  {
  }

  lemma OrRest(f: bv10, bits: bv10)
    ensures (f | bits) & !bits == f & !bits
  {
  }

  lemma AndRest(f: bv10)
    ensures (f & !1) & !1 == f & !1
  {
  }

  /** Setting attributes sets those, and every other one is as before. */
  lemma AttributeBits(e: Pte, bits: bv10)
    ensures SetAttribute(e, bits).ppn == e.ppn
    ensures SetAttribute(e, bits).flags & bits == bits
    ensures SetAttribute(e, bits).flags & !bits == e.flags & !bits
  {
    hide SetAttribute;
    AttributeHas(e, bits);
    AttributeRest(e, bits);
  }

  lemma AttributeHas(e: Pte, bits: bv10)
    ensures SetAttribute(e, bits).ppn == e.ppn && SetAttribute(e, bits).flags & bits == bits
  {
    OrHas(e.flags, bits);
  }

  lemma AttributeRest(e: Pte, bits: bv10)
    ensures SetAttribute(e, bits).flags & !bits == e.flags & !bits
  {
    OrRest(e.flags, bits);
  }

  /** Clearing the valid bit clears that and no other, and setting it again restores a valid entry. */
  lemma ClearedBits(e: Pte)
    ensures ClearValid(e).ppn == e.ppn && !IsValid(ClearValid(e))
    ensures ClearValid(e).flags & !PRESENT == e.flags & !PRESENT
    ensures IsValid(e) ==> SetAttribute(ClearValid(e), PRESENT) == e
  {
    AndRest(e.flags);
    ClearClears(e.flags);
    if e.flags & 1 != 0 {
      ClearThenSet(e.flags);
    }
  }

  /** The same for the valid bit alone. */
  lemma ValidAttribute(e: Pte, bits: bv10)
    ensures IsValid(SetAttribute(e, bits)) <==> IsValid(e) || bits & PRESENT != 0
    ensures !IsValid(ClearValid(e))
    ensures IsValid(e) ==> SetAttribute(ClearValid(e), PRESENT) == e
  {
    if bits & 1 != 0 || e.flags & 1 != 0 {
      OrSets(e.flags, bits);
    } else {
      OrKeeps(e.flags, bits);
    }
    ClearClears(e.flags);
    if e.flags & 1 != 0 {
      ClearThenSet(e.flags);
    }
  }

  // ---------- Virtual addresses ----------

  /** The page number of va, in 27 bits. */
  function PageNo(va: nat): (n: nat)
    ensures n < 0x800_0000
  {
    va % 0x80_0000_0000 / PAGE_SIZE
  }

  function Vpn0(va: nat): (i: nat)
    ensures i < ENTRIES
  {
    va % 0x80_0000_0000 / 0x1000 % 512
  }

  function Vpn1(va: nat): (i: nat)
    ensures i < ENTRIES
  {
    va % 0x80_0000_0000 / 0x20_0000 % 512
  }

  function Vpn2(va: nat): (i: nat)
    ensures i < ENTRIES
  {
    va % 0x80_0000_0000 / 0x4000_0000 % 512
  }

  lemma PageNoSplits(va: nat)
    ensures PageNo(va) == (Vpn2(va) * 512 + Vpn1(va)) * 512 + Vpn0(va)
  {
  }

  // ---------- Memory ----------

  /** roots are the page directories; shared the top-level slots that every directory copies from the kernel's
      and that lead outside this model. */
  datatype M = M(table: map<nat, seq<Pte>>, data: map<nat, seq<byte>>, curr: nat, free: seq<nat>,
                 roots: set<nat>, shared: set<nat>)

  function Entry(m: M, f: nat, i: nat): Pte {
    if f in m.table && i < |m.table[f]| then m.table[f][i] else NONE
  }

  predicate Known(m: M, f: nat) {
    f in m.table && |m.table[f]| == ENTRIES && f in m.data && |m.data[f]| == PAGE_SIZE
  }

  /** A place for a page-table entry, named by the indices that lead to it. */
  datatype Link = Top(r: nat, i: nat) | Mid(r: nat, i: nat, j: nat) | Leaf(r: nat, i: nat, j: nat, k: nat)

  predicate LinkOk(m: M, l: Link) {
    && l.r in m.roots && l.i < ENTRIES && l.i !in m.shared
    && (l.Top? || l.j < ENTRIES) && (l.Leaf? ==> l.k < ENTRIES)
  }

  function TopPpn(m: M, r: nat, i: nat): nat {
    Entry(m, r, i).ppn
  }

  function MidPpn(m: M, r: nat, i: nat, j: nat): nat {
    if TopPpn(m, r, i) == 0 then 0 else Entry(m, TopPpn(m, r, i), j).ppn
  }

  /** The frame whose entry l is; 0 when no table leads there. */
  function Node(m: M, l: Link): nat {
    match l
    case Top(r, i) => r
    case Mid(r, i, j) => TopPpn(m, r, i)
    case Leaf(r, i, j, k) => MidPpn(m, r, i, j)
  }

  function Slot(l: Link): nat {
    match l
    case Top(_, i) => i
    case Mid(_, _, j) => j
    case Leaf(_, _, _, k) => k
  }

  /** The entry at l, empty when no table leads there. */
  function At(m: M, l: Link): Pte {
    if Node(m, l) == 0 then NONE else Entry(m, Node(m, l), Slot(l))
  }

  function Ptr(m: M, l: Link): nat {
    At(m, l).ppn
  }

  ghost predicate Frames(m: M) {
    && FIRST_FRAME - 1 <= m.curr < LIMIT_FRAME
    && (forall f: nat :: InRam(f) ==> Known(m, f))
    && (forall f :: f in m.roots ==> Known(m, f) && f != 0 && (InRam(f) ==> f <= m.curr))
    && (forall i, j :: 0 <= i < j < |m.free| ==> m.free[i] != m.free[j])
    && (forall i :: 0 <= i < |m.free| ==> FIRST_FRAME <= m.free[i] <= m.curr && m.free[i] !in m.roots)
  }

  /** What a link may lead to: tables always to memory from the allocator, pages to that or to devices. */
  ghost predicate TargetOk(m: M, l: Link) {
    var p := Ptr(m, l);
    && (p != 0 && (InRam(p) || !l.Leaf?) ==> FIRST_FRAME <= p <= m.curr && p !in m.free && p !in m.roots)
    && (IsValid(At(m, l)) ==> p != 0)
    && (!l.Leaf? && p != 0 ==> IsValid(At(m, l)))
  }

  ghost predicate Targets(m: M) {
    forall l :: LinkOk(m, l) ==> TargetOk(m, l)
  }

  /** No frame is reached in two ways: the tables are trees, and no page is mapped twice. */
  ghost predicate Distinct(m: M) {
    forall l1, l2 :: LinkOk(m, l1) && LinkOk(m, l2) && l1 != l2 && InRam(Ptr(m, l1)) ==> Ptr(m, l1) != Ptr(m, l2)
  }

  ghost predicate Inv(m: M) {
    Frames(m) && Targets(m) && Distinct(m)
  }

  // ---------- Every entry has one name ----------

  lemma TopRange(m: M, r: nat, i: nat)
    requires Inv(m) && LinkOk(m, Top(r, i)) && TopPpn(m, r, i) != 0
    ensures FIRST_FRAME <= TopPpn(m, r, i) <= m.curr && InRam(TopPpn(m, r, i)) && TopPpn(m, r, i) !in m.roots
    ensures Ptr(m, Top(r, i)) == TopPpn(m, r, i)
  {
    assert TargetOk(m, Top(r, i));
  }

  /** The link above l. */
  function Above(l: Link): Link
    requires !l.Top?
  {
    if l.Mid? then Top(l.r, l.i) else Mid(l.r, l.i, l.j)
  }

  lemma AboveOk(m: M, l: Link)
    requires LinkOk(m, l) && !l.Top?
    ensures LinkOk(m, Above(l))
  {
  }

  lemma NodeIsPtr(m: M, l: Link)
    requires Inv(m) && LinkOk(m, l) && Node(m, l) != 0
    ensures Known(m, Node(m, l))
    ensures l.Top? ==> Node(m, l) == l.r && l.r in m.roots
    ensures !l.Top? ==> Ptr(m, Above(l)) == Node(m, l) && InRam(Node(m, l)) && Node(m, l) <= m.curr && Node(m, l) !in m.roots && Node(m, l) !in m.free
  {
    if !l.Top? {
      AboveOk(m, l);
      assert TargetOk(m, Above(l));
    }
  }

  /** Two names of one entry are the same. */
  lemma OneName(m: M, l1: Link, l2: Link)
    requires Inv(m) && LinkOk(m, l1) && LinkOk(m, l2) && Node(m, l1) == Node(m, l2) != 0 && Slot(l1) == Slot(l2)
    ensures l1 == l2
  {
    hide Inv, LinkOk, Node, Ptr;
    NodeIsPtr(m, l1);
    NodeIsPtr(m, l2);
    if !l1.Top? && !l2.Top? {
      AboveOk(m, l1);
      AboveOk(m, l2);
      if Above(l1) != Above(l2) {
        DistinctAt(m, Above(l1), Above(l2));
      }
    }
  }

  lemma DistinctAt(m: M, l1: Link, l2: Link)
    requires Inv(m) && LinkOk(m, l1) && LinkOk(m, l2) && l1 != l2 && InRam(Ptr(m, l1))
    ensures Ptr(m, l1) != Ptr(m, l2)
  {
  }

  // ---------- The allocator ----------

  function BlankTable(): (t: seq<Pte>)
    ensures |t| == ENTRIES && forall i :: 0 <= i < ENTRIES ==> t[i] == NONE
  {
    seq(ENTRIES, _ => NONE)
  }

  function BlankPage(): (p: seq<byte>)
    ensures |p| == PAGE_SIZE && forall i :: 0 <= i < PAGE_SIZE ==> p[i] == 0
  {
    seq(PAGE_SIZE, _ => 0)
  }

  /** How many more frames allocPage can give out. */
  function Room(m: M): int {
    |m.free| + LIMIT_FRAME - 1 - m.curr
  }

  /** The frame that allocPage takes: the first freed one, or the next never used. */
  function NextFrame(m: M): nat {
    if m.free != [] then m.free[0] else m.curr + 1
  }

  /** allocPage */
  function AllocPage(m: M): (r: M)
    requires Room(m) > 0
    ensures Room(r) == Room(m) - 1
  {
    var f := NextFrame(m);
    m.(table := m.table[f := BlankTable()], data := m.data[f := BlankPage()],
       curr := if m.free != [] then m.curr else f, free := if m.free != [] then m.free[1..] else [])
  }

  /** freePage */
  function FreePage(m: M, f: nat): M {
    m.(free := m.free + [f])
  }

  /** f came from the allocator and nothing leads to it yet. */
  ghost predicate Loose(m: M, f: nat) {
    FIRST_FRAME <= f <= m.curr && f !in m.free && f !in m.roots && forall l :: LinkOk(m, l) ==> Ptr(m, l) != f
  }

  predicate Blank(m: M, f: nat) {
    f in m.table && f in m.data && m.table[f] == BlankTable() && m.data[f] == BlankPage()
  }

  /** The frame handed out is in use nowhere. */
  lemma NextFrameFree(m: M)
    requires Inv(m) && Room(m) > 0
    ensures var f := NextFrame(m);
      InRam(f) && f <= AllocPage(m).curr && f !in AllocPage(m).free && f !in m.roots && forall l :: LinkOk(m, l) ==> Ptr(m, l) != f
  {
    var f := NextFrame(m);
    if m.free != [] {
      assert m.free[0] == f;
      assert f !in m.free[1..];
    }
    forall l | LinkOk(m, l)
      ensures Ptr(m, l) != f
    {
      assert TargetOk(m, l);
      assert m.free != [] ==> f in m.free;
    }
  }

  lemma AllocSame(m: M, l: Link)
    requires Inv(m) && Room(m) > 0 && LinkOk(m, l)
    ensures LinkOk(AllocPage(m), l) && At(AllocPage(m), l) == At(m, l) && Node(AllocPage(m), l) == Node(m, l)
  {
    hide Inv, AllocPage, LinkOk, Ptr;
    var f, m1 := NextFrame(m), AllocPage(m);
    NextFrameFree(m);
    AllocRest(m);
    match l
    case Top(r, i) => LinkRoot(m, l);
    case Mid(r, i, j) =>
      LinkRoot(m, l);
      AboveOk(m, l);
      PtrIs(m, r, i, j);
    case Leaf(r, i, j, k) =>
      LinkRoot(m, l);
      AboveOk(m, l);
      AboveOk(m, Mid(r, i, j));
      PtrIs(m, r, i, j);
  }

  lemma LinkRoot(m: M, l: Link)
    requires LinkOk(m, l)
    ensures l.r in m.roots && (Inv(m) ==> l.r != 0)
  {
  }

  lemma PtrIs(m: M, r: nat, i: nat, j: nat)
    ensures r != 0 ==> Ptr(m, Top(r, i)) == TopPpn(m, r, i)
    ensures Ptr(m, Mid(r, i, j)) == MidPpn(m, r, i, j)
  {
  }

  lemma AllocRest(m: M)
    requires Room(m) > 0
    ensures var m1, f := AllocPage(m), NextFrame(m);
      m1.roots == m.roots && m1.shared == m.shared && Blank(m1, f) && m1.curr >= m.curr &&
      (forall g: nat, x: nat :: g != f ==> Entry(m1, g, x) == Entry(m, g, x)) &&
      (forall g :: g != f && g in m.data ==> g in m1.data && m1.data[g] == m.data[g])
    ensures forall l :: LinkOk(AllocPage(m), l) <==> LinkOk(m, l)
  {
  }

  lemma AllocTarget(m: M, l: Link)
    requires Inv(m) && Room(m) > 0 && LinkOk(m, l)
    ensures TargetOk(AllocPage(m), l)
  {
    AllocSame(m, l);
    NextFrameFree(m);
    assert TargetOk(m, l);
    assert forall x :: x in AllocPage(m).free ==> x in m.free;
  }

  lemma AllocFrames(m: M)
    requires Frames(m) && Room(m) > 0
    ensures Frames(AllocPage(m))
  {
    var m1 := AllocPage(m);
    assert forall g :: Known(m, g) ==> Known(m1, g);
  }

  /** allocPage hands out a zeroed frame that is in use nowhere, and changes no table and no page in use. */
  lemma AllocKeeps(m: M)
    requires Inv(m) && Room(m) > 0
    ensures var m1, f := AllocPage(m), NextFrame(m); Inv(m1) && Loose(m1, f) && Blank(m1, f)
    ensures forall l :: LinkOk(m, l) ==> At(AllocPage(m), l) == At(m, l)
    ensures forall g :: g != NextFrame(m) && g in m.data ==> g in AllocPage(m).data && AllocPage(m).data[g] == m.data[g]
  {
    hide TargetOk, LinkOk, Node, At, AllocPage;
    AllocRest(m);
    AllocFrames(m);
    NextFrameFree(m);
    forall l | LinkOk(m, l)
      ensures At(AllocPage(m), l) == At(m, l) && TargetOk(AllocPage(m), l)
    {
      AllocSame(m, l);
      AllocTarget(m, l);
    }
    assert forall l :: Ptr(AllocPage(m), l) == At(AllocPage(m), l).ppn && Ptr(m, l) == At(m, l).ppn;
  }

  // ---------- Setting one entry ----------

  function SetEntry(m: M, f: nat, i: nat, e: Pte): M
    requires f in m.table && i < |m.table[f]|
  {
    m.(table := m.table[f := m.table[f][i := e]])
  }

  /** The entry at l is set to e. */
  function Fill(m: M, l: Link, e: Pte): M
    requires Known(m, Node(m, l)) && Slot(l) < ENTRIES
  {
    SetEntry(m, Node(m, l), Slot(l), e)
  }

  /** What may be put there: the way to a fresh table, a fresh page, a device page, or other attributes. */
  ghost predicate MayFill(m: M, l: Link, e: Pte) {
    && LinkOk(m, l) && Node(m, l) != 0 && e.ppn != 0
    && (l.Leaf? || (IsValid(e) && Ptr(m, l) == 0 && Loose(m, e.ppn) && Blank(m, e.ppn)))
    && (l.Leaf? ==> Loose(m, e.ppn) || !InRam(e.ppn) || e.ppn == Ptr(m, l))
  }

  lemma FillRest(m: M, l: Link, e: Pte)
    requires Known(m, Node(m, l)) && Slot(l) < ENTRIES
    ensures var m1 := Fill(m, l, e);
      m1.roots == m.roots && m1.shared == m.shared && m1.curr == m.curr && m1.free == m.free && m1.data == m.data &&
      Entry(m1, Node(m, l), Slot(l)) == e &&
      (forall g: nat, x: nat :: g != Node(m, l) || x != Slot(l) ==> Entry(m1, g, x) == Entry(m, g, x))
    ensures forall x :: LinkOk(Fill(m, l, e), x) <==> LinkOk(m, x)
    ensures Frames(m) ==> Frames(Fill(m, l, e))
  {
    var m1 := Fill(m, l, e);
    assert forall g :: Known(m, g) ==> Known(m1, g);
  }

  /** The entries above l do not change, and l's becomes e. */
  lemma FillAt(m: M, l: Link, e: Pte)
    requires Inv(m) && MayFill(m, l, e) && Known(m, Node(m, l)) && Slot(l) < ENTRIES
    ensures Node(Fill(m, l, e), l) == Node(m, l) && At(Fill(m, l, e), l) == e
    ensures !l.Top? ==> At(Fill(m, l, e), Above(l)) == At(m, Above(l))
  {
    hide Inv, MayFill, Fill, LinkOk;
    FillRest(m, l, e);
    MayFillLink(m, l, e);
    LinkRoot(m, l);
    NodeIsPtr(m, l);
    match l
    case Top(r, i) =>
    case Mid(r, i, j) =>
    case Leaf(r, i, j, k) =>
      AboveOk(m, l);
      TopRange(m, r, i);
      if TopPpn(m, r, i) == Node(m, l) {
        OneTarget(m, Top(r, i), Mid(r, i, j));
      }
  }

  lemma MayFillLink(m: M, l: Link, e: Pte)
    requires MayFill(m, l, e)
    ensures LinkOk(m, l) && Node(m, l) != 0 && e.ppn != 0
  {
  }

  lemma OneTarget(m: M, l1: Link, l2: Link)
    requires Inv(m) && LinkOk(m, l1) && LinkOk(m, l2) && Ptr(m, l1) == Ptr(m, l2) && InRam(Ptr(m, l1))
    ensures l1 == l2
  {
  }

  lemma NodeAbove(m: M, l: Link)
    requires !l.Top? && l.r != 0
    ensures Node(m, l) == Ptr(m, Above(l))
  {
  }

  /** A table just linked in is empty. */
  lemma FillBelow(m: M, l: Link, e: Pte, x: Link)
    requires Inv(m) && MayFill(m, l, e) && Known(m, Node(m, l)) && Slot(l) < ENTRIES
    requires LinkOk(m, x) && !x.Top? && Above(x) == l
    ensures At(Fill(m, l, e), x) == At(m, x) == NONE
  {
    hide Inv, Fill, LinkOk, Ptr, Known;
    var m1 := Fill(m, l, e);
    FillRest(m, l, e);
    FillAt(m, l, e);
    LinkRoot(m, x);
    NodeAbove(m, x);
    NodeAbove(m1, x);
    NodeIsPtr(m, l);
    assert Node(m, l) != e.ppn by { LooseNode(m, l, e.ppn); }
    PtrAt(m1, l);
    assert Entry(m, e.ppn, Slot(x)) == NONE;
  }

  lemma PtrAt(m: M, l: Link)
    ensures Ptr(m, l) == At(m, l).ppn
  {
  }

  lemma LooseNode(m: M, l: Link, f: nat)
    requires Inv(m) && LinkOk(m, l) && Node(m, l) != 0 && Loose(m, f)
    ensures Node(m, l) != f
  {
    NodeIsPtr(m, l);
    if !l.Top? {
      AboveOk(m, l);
    }
  }

  /** Every other entry is as before. */
  lemma {:induction false} FillOther(m: M, l: Link, e: Pte, x: Link)
    requires Inv(m) && MayFill(m, l, e) && Known(m, Node(m, l)) && Slot(l) < ENTRIES
    requires LinkOk(m, x) && x != l
    ensures At(Fill(m, l, e), x) == At(m, x)
    decreases if x.Top? then 0 else if x.Mid? then 1 else 2
  {
    hide Inv, MayFill, Fill, LinkOk, Ptr, Known;
    var m1 := Fill(m, l, e);
    FillRest(m, l, e);
    MayFillLink(m, l, e);
    LinkRoot(m, x);
    if x.Top? {
      if Node(m, l) == Node(m, x) && Slot(l) == Slot(x) {
        OneName(m, l, x);
      }
    } else {
      AboveOk(m, x);
      NodeAbove(m, x);
      NodeAbove(m1, x);
      if Above(x) == l {
        FillBelow(m, l, e, x);
      } else {
        FillOther(m, l, e, Above(x));
        PtrAt(m, Above(x));
        PtrAt(m1, Above(x));
        if Node(m, x) != 0 && Node(m, l) == Node(m, x) && Slot(l) == Slot(x) {
          OneName(m, l, x);
        }
      }
    }
  }

  /** Setting an entry keeps the tables trees, and changes nothing but that entry. */
  lemma FillKeeps(m: M, l: Link, e: Pte)
    requires Inv(m) && MayFill(m, l, e)
    ensures Known(m, Node(m, l)) && Slot(l) < ENTRIES && Inv(Fill(m, l, e)) && At(Fill(m, l, e), l) == e
    ensures forall x :: LinkOk(m, x) && x != l ==> At(Fill(m, l, e), x) == At(m, x)
  {
    hide Fill, LinkOk, Node, At, Known;
    MayFillLink(m, l, e);
    NodeIsPtr(m, l);
    SlotRange(m, l);
    FillRest(m, l, e);
    FillAt(m, l, e);
    var m1 := Fill(m, l, e);
    forall x | LinkOk(m, x) && x != l
      ensures At(m1, x) == At(m, x)
    {
      FillOther(m, l, e, x);
    }
    assert forall x :: Ptr(m1, x) == At(m1, x).ppn && Ptr(m, x) == At(m, x).ppn;
    forall x | LinkOk(m, x)
      ensures TargetOk(m1, x)
    {
      assert TargetOk(m, x);
    }
  }

  lemma SlotRange(m: M, l: Link)
    requires LinkOk(m, l)
    ensures Slot(l) < ENTRIES
  {
  }
}
