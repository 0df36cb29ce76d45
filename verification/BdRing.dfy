/** The ring of DMA buffer descriptors: one circular region of memory cut into four moving groups
    (post-work, work, pre-work and free) by address arithmetic on 64-bit pointers. */
module BdRing {
  const BD_SIZE := 8
  const MIN_ALIGNMENT: bv32 := 64

  /** A descriptor's two words, as hardware and software share them. */
  datatype Bd = Bd(addr: bv32, stat: bv32)

  predicate IsRxNew(b: Bd) {
    b.addr & 1 != 0
  }

  predicate IsEof(b: Bd) {
    b.stat & 0x8000 != 0
  }

  function U32(x: int): nat {
    x % 0x1_0000_0000
  }

  function U64(x: int): nat {
    x % 0x1_0000_0000_0000_0000
  }

  /** The control fields of the ring. */
  datatype Ring = Ring(base: nat, high: nat, length: nat, sep: nat,
                       freeHead: nat, preHead: nat, hwHead: nat, hwTail: nat, postHead: nat,
                       hwCnt: nat, preCnt: nat, freeCnt: nat, postCnt: nat, allCnt: nat)

  // ---------- Address arithmetic ----------

  /** XEMACPS_RING_SEEKAHEAD */
  function SeekAhead(r: Ring, p: nat, n: nat): nat {
    var a := U64(p + U32(r.sep * n));
    if a > r.high || p > a then U64(a - r.length) else a
  }

  /** XEMACPS_RING_SEEKBACK */
  function SeekBack(r: Ring, p: nat, n: nat): nat {
    var a := U64(p - U32(r.sep * n));
    if a < r.base || p < a then U64(a + r.length) else a
  }

  /** XEmacPs_BdRingNext */
  function Next(r: Ring, p: nat): nat {
    if p >= r.high then r.base else U64(p + r.sep)
  }

  /** XEmacPs_BdRingPrev */
  function Prev(r: Ring, p: nat): nat {
    if p <= r.base then r.high else U64(p - r.sep)
  }

  /** n steps of BdRingNext. */
  function NextTimes(r: Ring, p: nat, n: nat): nat
    decreases n
  {
    if n == 0 then p else NextTimes(r, Next(r, p), n - 1)
  }

  /** The region lies below 2^64, perhaps ending exactly there, and its byte length fits 32 bits. */
  ghost predicate Geometry(r: Ring) {
    && r.allCnt > 0 && r.sep == BD_SIZE
    && r.base + BD_SIZE * r.allCnt <= 0x1_0000_0000_0000_0000
    && BD_SIZE * r.allCnt < 0x1_0000_0000
    && r.high == r.base + BD_SIZE * (r.allCnt - 1)
    && r.length == BD_SIZE * r.allCnt
  }

  /** The address of descriptor i. */
  function BdAddr(r: Ring, i: nat): nat {
    r.base + BD_SIZE * i
  }

  /** i + k, around a circle of n. */
  function Around(n: nat, i: nat, k: nat): (j: nat)
    requires i < n && k <= n
    ensures j < n
  {
    if i + k < n then i + k else i + k - n
  }

  lemma AroundIsMod(n: nat, i: nat, k: nat)
    requires i < n && k <= n
    ensures Around(n, i, k) == (i + k) % n
  {
    var q, m := (i + k) / n, (i + k) % n;
    assert i + k == n * q + m;
    assert q == 0 || q == 1 || n * q >= n * 2;
  }

  /** Moving ahead wraps around correctly, even when the sum passes the top of memory. */
  lemma SeekAheadMoves(r: Ring, i: nat, n: nat)
    requires Geometry(r) && i < r.allCnt && n <= r.allCnt
    ensures SeekAhead(r, BdAddr(r, i), n) == BdAddr(r, Around(r.allCnt, i, n))
  {
    hide U64;
    assert U32(r.sep * n) == BD_SIZE * n;
    var p, sum := BdAddr(r, i), BdAddr(r, i) + BD_SIZE * n;
    if sum < 0x1_0000_0000_0000_0000 {
      U64Turns(sum, 0);
    } else {
      U64Turns(sum, 1);
    }
    if i + n >= r.allCnt {
      U64Turns(U64(sum) - r.length, if sum < 0x1_0000_0000_0000_0000 then 0 else -1);
    }
  }

  lemma U64Turns(x: int, turns: int)
    requires 0 <= x - 0x1_0000_0000_0000_0000 * turns < 0x1_0000_0000_0000_0000
    ensures U64(x) == x - 0x1_0000_0000_0000_0000 * turns
  {
  }

  /** Moving back undoes moving ahead, even below address 0. */
  lemma SeekBackMoves(r: Ring, i: nat, n: nat)
    requires Geometry(r) && i < r.allCnt && n <= r.allCnt
    ensures SeekBack(r, BdAddr(r, Around(r.allCnt, i, n)), n) == BdAddr(r, i)
  {
    assert U32(r.sep * n) == BD_SIZE * n;
    var p := BdAddr(r, Around(r.allCnt, i, n));
    var dif := p - BD_SIZE * n;
    if i + n < r.allCnt {
      assert U64(dif) == dif;
    } else if dif >= 0 {
      assert U64(dif) == dif && dif < r.base;
      assert U64(dif + r.length) == dif + r.length;
    } else {
      var a := dif + 0x1_0000_0000_0000_0000;
      assert U64(dif) == a && p < a;
      assert U64(a + r.length) == dif + r.length;
    }
  }

  lemma NextMoves(r: Ring, i: nat)
    requires Geometry(r) && i < r.allCnt
    ensures Next(r, BdAddr(r, i)) == BdAddr(r, Around(r.allCnt, i, 1))
    ensures Prev(r, BdAddr(r, Around(r.allCnt, i, 1))) == BdAddr(r, i)
  {
  }

  /** n steps of BdRingNext are one seek by n. */
  lemma {:induction false} NextTimesMoves(r: Ring, i: nat, n: nat)
    requires Geometry(r) && i < r.allCnt && n <= r.allCnt
    ensures NextTimes(r, BdAddr(r, i), n) == SeekAhead(r, BdAddr(r, i), n) == BdAddr(r, Around(r.allCnt, i, n))
    decreases n
  {
    SeekAheadMoves(r, i, n);
    if n > 0 {
      NextMoves(r, i);
      NextTimesMoves(r, Around(r.allCnt, i, 1), n - 1);
    }
  }

  // ---------- The four groups ----------

  /** The indices of cnt descriptors from start on, around the ring. */
  function Group(n: nat, start: nat, cnt: nat): (g: seq<nat>)
    requires start < n && cnt <= n
    ensures |g| == cnt
  {
    seq(cnt, k requires 0 <= k < cnt => Around(n, start, k))
  }

  /** The index of the descriptor at address p. */
  function Idx(r: Ring, p: nat): int {
    (p - r.base) / BD_SIZE
  }

  lemma IdxOf(r: Ring, i: nat)
    requires i < r.allCnt
    ensures Idx(r, BdAddr(r, i)) == i && InRing(r, BdAddr(r, i))
  {
  }

  ghost predicate InRing(r: Ring, p: nat) {
    0 <= Idx(r, p) < r.allCnt && p == BdAddr(r, Idx(r, p))
  }

  /** Each group starts where the one before it ends, all around the ring, and the work group's tail
      pointer is one past its last descriptor. */
  ghost predicate Partition(r: Ring) {
    && Geometry(r)
    && r.postCnt + r.hwCnt + r.preCnt + r.freeCnt == r.allCnt
    && InRing(r, r.postHead) && InRing(r, r.hwHead) && InRing(r, r.preHead) && InRing(r, r.freeHead)
    && Idx(r, r.hwHead) == Around(r.allCnt, Idx(r, r.postHead), r.postCnt)
    && Idx(r, r.preHead) == Around(r.allCnt, Idx(r, r.hwHead), r.hwCnt)
    && Idx(r, r.freeHead) == Around(r.allCnt, Idx(r, r.preHead), r.preCnt)
    && Idx(r, r.postHead) == Around(r.allCnt, Idx(r, r.freeHead), r.freeCnt)
    && r.hwTail == r.preHead
  }

  ghost function PostGroup(r: Ring): seq<nat> requires Partition(r) { Group(r.allCnt, Idx(r, r.postHead), r.postCnt) }
  ghost function HwGroup(r: Ring): seq<nat> requires Partition(r) { Group(r.allCnt, Idx(r, r.hwHead), r.hwCnt) }
  ghost function PreGroup(r: Ring): seq<nat> requires Partition(r) { Group(r.allCnt, Idx(r, r.preHead), r.preCnt) }
  ghost function FreeGroup(r: Ring): seq<nat> requires Partition(r) { Group(r.allCnt, Idx(r, r.freeHead), r.freeCnt) }

  /** All groups one after another. */
  ghost function AllGroups(r: Ring): seq<nat>
    requires Partition(r)
  {
    PostGroup(r) + HwGroup(r) + PreGroup(r) + FreeGroup(r)
  }

  lemma GroupJoin(n: nat, start: nat, a: nat, b: nat)
    requires start < n && a + b <= n
    ensures Group(n, start, a + b) == Group(n, start, a) + Group(n, Around(n, start, a), b)
  {
  }

  /** The groups are the whole ring, once around, starting at the post-work group. */
  lemma GroupsCoverRing(r: Ring)
    requires Partition(r)
    ensures AllGroups(r) == Group(r.allCnt, Idx(r, r.postHead), r.allCnt)
    ensures forall i :: 0 <= i < r.allCnt ==> i in AllGroups(r)
    ensures forall j, k :: 0 <= j < k < |AllGroups(r)| ==> AllGroups(r)[j] != AllGroups(r)[k]
  {
    var n, s := r.allCnt, Idx(r, r.postHead);
    GroupJoin(n, s, r.postCnt, r.hwCnt);
    GroupJoin(n, s, r.postCnt + r.hwCnt, r.preCnt);
    GroupJoin(n, s, r.postCnt + r.hwCnt + r.preCnt, r.freeCnt);
    var g := Group(n, s, n);
    assert AllGroups(r) == g;
    forall i | 0 <= i < n
      ensures i in g
    {
      var k := if i >= s then i - s else i - s + n;
      assert g[k] == i;
    }
  }

  // ---------- The operations on the control fields ----------

  datatype Status = Success | Failure | ListError | InvalidParam

  function Alloc(r: Ring, n: nat): (Ring, Status) {
    if r.freeCnt < n then (r, Failure)
    else (r.(freeHead := SeekAhead(r, r.freeHead, n), freeCnt := r.freeCnt - n, preCnt := U32(r.preCnt + n)), Success)
  }

  function UnAlloc(r: Ring, n: nat): (Ring, Status) {
    if r.preCnt < n then (r, Failure)
    else (r.(freeHead := SeekBack(r, r.freeHead, n), freeCnt := U32(r.freeCnt + n), preCnt := r.preCnt - n), Success)
  }

  function ToHw(r: Ring, n: nat, bdSet: nat): (Ring, Status) {
    if n == 0 then (r, Success)
    else if r.preCnt < n || r.preHead != bdSet then (r, ListError)
    else (r.(hwTail := NextTimes(r, bdSet, n), preHead := SeekAhead(r, r.preHead, n),
             preCnt := r.preCnt - n, hwCnt := U32(r.hwCnt + n)), Success)
  }

  function FreeBds(r: Ring, n: nat, bdSet: nat): (Ring, Status) {
    if n == 0 then (r, Success)
    else if r.postCnt < n || r.postHead != bdSet then (r, ListError)
    else (r.(freeCnt := U32(r.freeCnt + n), postCnt := r.postCnt - n, postHead := SeekAhead(r, r.postHead, n)), Success)
  }

  /** The k descriptors from index s on are all marked new, and the last of them ends a packet. */
  predicate WholePackets(bds: seq<Bd>, s: nat, k: nat)
    requires s < |bds|
  {
    && (forall j :: 0 <= j < k ==> IsRxNew(BdAt(bds, s, j)))
    && (k > 0 ==> IsEof(BdAt(bds, s, k - 1)))
  }

  /** The descriptor j places after index s. */
  function BdAt(bds: seq<Bd>, s: nat, j: nat): Bd
    requires s < |bds|
  {
    bds[(s + j) % |bds|]
  }

  /** The largest k up to limit that splits no packet. */
  function LongestWhole(bds: seq<Bd>, s: nat, limit: nat): (k: nat)
    requires s < |bds|
    ensures k <= limit && WholePackets(bds, s, k)
    ensures forall j :: k < j <= limit ==> !WholePackets(bds, s, j)
  {
    if limit == 0 || WholePackets(bds, s, limit) then limit else LongestWhole(bds, s, limit - 1)
  }

  function TakeRx(r: Ring, k: nat): Ring {
    if k == 0 then r
    else r.(hwCnt := U32(r.hwCnt - k), postCnt := U32(r.postCnt + k), hwHead := SeekAhead(r, r.hwHead, k))
  }

  /** What XEmacPs_BdRingFromHwRx leaves, for descriptors bds. */
  function FromHwRx(r: Ring, bds: seq<Bd>, limit: nat): Ring
    requires |bds| == r.allCnt && 0 <= Idx(r, r.hwHead) < r.allCnt
  {
    if r.hwCnt == 0 then r else TakeRx(r, LongestWhole(bds, Idx(r, r.hwHead), limit))
  }

  // ---------- What every operation keeps and moves ----------

  /** r1 has these groups, in the same region. */
  ghost predicate Moved(r: Ring, r1: Ring, post: seq<nat>, hw: seq<nat>, pre: seq<nat>, free: seq<nat>) {
    && Partition(r1) && r1.base == r.base && r1.allCnt == r.allCnt
    && PostGroup(r1) == post && HwGroup(r1) == hw && PreGroup(r1) == pre && FreeGroup(r1) == free
  }

  /** Partition, with the four start indices named. */
  ghost predicate Laid(r: Ring, p: nat, h: nat, e: nat, f: nat) {
    && Geometry(r) && p < r.allCnt && h < r.allCnt && e < r.allCnt && f < r.allCnt
    && r.postCnt + r.hwCnt + r.preCnt + r.freeCnt == r.allCnt
    && r.postHead == BdAddr(r, p) && r.hwHead == BdAddr(r, h) && r.preHead == BdAddr(r, e) && r.freeHead == BdAddr(r, f)
    && h == Around(r.allCnt, p, r.postCnt) && e == Around(r.allCnt, h, r.hwCnt)
    && f == Around(r.allCnt, e, r.preCnt) && p == Around(r.allCnt, f, r.freeCnt)
    && r.hwTail == r.preHead
  }

  lemma LaidOut(r: Ring) returns (p: nat, h: nat, e: nat, f: nat)
    requires Partition(r)
    ensures Laid(r, p, h, e, f)
    ensures PostGroup(r) == Group(r.allCnt, p, r.postCnt) && HwGroup(r) == Group(r.allCnt, h, r.hwCnt)
    ensures PreGroup(r) == Group(r.allCnt, e, r.preCnt) && FreeGroup(r) == Group(r.allCnt, f, r.freeCnt)
  {
    hide Around, Geometry, Group;
    p, h, e, f := Idx(r, r.postHead), Idx(r, r.hwHead), Idx(r, r.preHead), Idx(r, r.freeHead);
  }

  lemma LaidIsPartition(r: Ring, p: nat, h: nat, e: nat, f: nat)
    requires Laid(r, p, h, e, f)
    ensures Partition(r)
    ensures PostGroup(r) == Group(r.allCnt, p, r.postCnt) && HwGroup(r) == Group(r.allCnt, h, r.hwCnt)
    ensures PreGroup(r) == Group(r.allCnt, e, r.preCnt) && FreeGroup(r) == Group(r.allCnt, f, r.freeCnt)
  {
    hide Around, Geometry, Group;
    IdxOf(r, p);
    IdxOf(r, h);
    IdxOf(r, e);
    IdxOf(r, f);
  }

  /** A group split after its first a members. */
  lemma GroupSplit(n: nat, start: nat, cnt: nat, a: nat)
    requires start < n && a <= cnt <= n
    ensures Group(n, start, cnt)[..a] == Group(n, start, a)
    ensures Group(n, start, cnt)[a..] == Group(n, Around(n, start, a), cnt - a)
    ensures Around(n, Around(n, start, a), cnt - a) == Around(n, start, cnt)
  {
  }

  lemma GroupGrows(n: nat, start: nat, a: nat, b: nat)
    requires start < n && a + b <= n
    ensures Group(n, start, a + b) == Group(n, start, a) + Group(n, Around(n, start, a), b)
    ensures Around(n, Around(n, start, a), b) == Around(n, start, a + b)
  {
    GroupJoin(n, start, a, b);
  }

  lemma GroupFirst(n: nat, start: nat, cnt: nat)
    requires start < n && 0 < cnt <= n
    ensures Group(n, start, cnt)[0] == start
  {
  }

  lemma SmallRing(r: Ring)
    requires Geometry(r)
    ensures r.allCnt < 0x1_0000_0000
  {
  }

  lemma SameGeometry(r: Ring, r1: Ring)
    requires Geometry(r) && r1.base == r.base && r1.high == r.high && r1.length == r.length && r1.sep == r.sep && r1.allCnt == r.allCnt
    ensures Geometry(r1)
  {
  }

  lemma AllocMoves(r: Ring, n: nat)
    requires Partition(r)
    ensures Partition(Alloc(r, n).0)
    ensures Alloc(r, n).1 == Success <==> n <= |FreeGroup(r)|
    ensures Alloc(r, n).1 != Success ==> Alloc(r, n) == (r, Failure)
    ensures Alloc(r, n).1 == Success ==> Moved(r, Alloc(r, n).0,
      PostGroup(r), HwGroup(r), PreGroup(r) + FreeGroup(r)[..n], FreeGroup(r)[n..])
  {
    hide SeekAhead, SeekBack, NextTimes, Group, Partition, Around, Geometry;
    var p, h, e, f := LaidOut(r);
    if n <= r.freeCnt {
      var f1, r1 := Around(r.allCnt, f, n), Alloc(r, n).0;
      SeekAheadMoves(r, f, n);
      GroupSplit(r.allCnt, f, r.freeCnt, n);
      GroupGrows(r.allCnt, e, r.preCnt, n);
      SameGeometry(r, r1);
      SmallRing(r);
      LaidIsPartition(r1, p, h, e, f1);
    }
  }

  /** UnAlloc gives back the last n descriptors that were allocated. */
  lemma UnAllocMoves(r: Ring, n: nat)
    requires Partition(r)
    ensures Partition(UnAlloc(r, n).0)
    ensures UnAlloc(r, n).1 == Success <==> n <= |PreGroup(r)|
    ensures UnAlloc(r, n).1 != Success ==> UnAlloc(r, n) == (r, Failure)
    ensures UnAlloc(r, n).1 == Success ==> Moved(r, UnAlloc(r, n).0,
      PostGroup(r), HwGroup(r), PreGroup(r)[..|PreGroup(r)| - n], PreGroup(r)[|PreGroup(r)| - n..] + FreeGroup(r))
  {
    hide SeekAhead, SeekBack, NextTimes, Group, Partition, Around, Geometry;
    var p, h, e, f := LaidOut(r);
    if n <= r.preCnt {
      var f1, r1 := Around(r.allCnt, e, r.preCnt - n), UnAlloc(r, n).0;
      GroupSplit(r.allCnt, e, r.preCnt, r.preCnt - n);
      SeekBackMoves(r, f1, n);
      GroupGrows(r.allCnt, f1, n, r.freeCnt);
      SameGeometry(r, r1);
      SmallRing(r);
      LaidIsPartition(r1, p, h, e, f1);
    }
  }

  /** ToHw hands over the oldest n allocated descriptors, and only when asked for them by their address. */
  lemma ToHwMoves(r: Ring, n: nat, bdSet: nat)
    requires Partition(r)
    ensures Partition(ToHw(r, n, bdSet).0)
    ensures ToHw(r, n, bdSet).1 == Success <==> n == 0 || (n <= |PreGroup(r)| && bdSet == BdAddr(r, PreGroup(r)[0]))
    ensures ToHw(r, n, bdSet).1 != Success ==> ToHw(r, n, bdSet) == (r, ListError)
    ensures ToHw(r, n, bdSet).1 == Success ==> Moved(r, ToHw(r, n, bdSet).0,
      PostGroup(r), HwGroup(r) + PreGroup(r)[..n], PreGroup(r)[n..], FreeGroup(r))
  {
    hide SeekAhead, SeekBack, NextTimes, Group, Partition, Around, Geometry;
    var p, h, e, f := LaidOut(r);
    if 0 < n <= r.preCnt {
      var e1, r1 := Around(r.allCnt, e, n), ToHw(r, n, r.preHead).0;
      GroupFirst(r.allCnt, e, r.preCnt);
      NextTimesMoves(r, e, n);
      GroupSplit(r.allCnt, e, r.preCnt, n);
      GroupGrows(r.allCnt, h, r.hwCnt, n);
      SameGeometry(r, r1);
      SmallRing(r);
      LaidIsPartition(r1, p, h, e1, f);
    }
  }

  lemma FreeMoves(r: Ring, n: nat, bdSet: nat)
    requires Partition(r)
    ensures Partition(FreeBds(r, n, bdSet).0)
    ensures FreeBds(r, n, bdSet).1 == Success <==> n == 0 || (n <= |PostGroup(r)| && bdSet == BdAddr(r, PostGroup(r)[0]))
    ensures FreeBds(r, n, bdSet).1 != Success ==> FreeBds(r, n, bdSet) == (r, ListError)
    ensures FreeBds(r, n, bdSet).1 == Success ==> Moved(r, FreeBds(r, n, bdSet).0,
      PostGroup(r)[n..], HwGroup(r), PreGroup(r), FreeGroup(r) + PostGroup(r)[..n])
  {
    hide SeekAhead, SeekBack, NextTimes, Group, Partition, Around, Geometry;
    var p, h, e, f := LaidOut(r);
    if 0 < n <= r.postCnt {
      var p1, r1 := Around(r.allCnt, p, n), FreeBds(r, n, r.postHead).0;
      GroupFirst(r.allCnt, p, r.postCnt);
      SeekAheadMoves(r, p, n);
      GroupSplit(r.allCnt, p, r.postCnt, n);
      GroupGrows(r.allCnt, f, r.freeCnt, n);
      SameGeometry(r, r1);
      SmallRing(r);
      LaidIsPartition(r1, p1, h, e, f);
    }
  }

  lemma TakeRxMoves(r: Ring, k: nat)
    requires Partition(r) && k <= r.hwCnt
    ensures Partition(TakeRx(r, k))
    ensures Moved(r, TakeRx(r, k), PostGroup(r) + HwGroup(r)[..k], HwGroup(r)[k..], PreGroup(r), FreeGroup(r))
  {
    hide SeekAhead, SeekBack, NextTimes, Group, Partition, Around, Geometry;
    var p, h, e, f := LaidOut(r);
    if k > 0 {
      var h1, r1 := Around(r.allCnt, h, k), TakeRx(r, k);
      SeekAheadMoves(r, h, k);
      GroupSplit(r.allCnt, h, r.hwCnt, k);
      GroupGrows(r.allCnt, p, r.postCnt, k);
      SameGeometry(r, r1);
      SmallRing(r);
      LaidIsPartition(r1, p, h1, e, f);
    }
  }

  // ---------- Receiving ----------

  /** A scan limited to the work group keeps the partition and takes whole packets only. */
  lemma FromHwRxMoves(r: Ring, bds: seq<Bd>, limit: nat)
    requires Partition(r) && |bds| == r.allCnt && limit <= r.hwCnt
    ensures Partition(FromHwRx(r, bds, limit))
    ensures var k := if r.hwCnt == 0 then 0 else LongestWhole(bds, Idx(r, r.hwHead), limit);
      Moved(r, FromHwRx(r, bds, limit), PostGroup(r) + HwGroup(r)[..k], HwGroup(r)[k..], PreGroup(r), FreeGroup(r))
  {
    hide Geometry, LongestWhole, Moved, TakeRx;
    TakeRxMoves(r, 0);
    TakeNone(r);
    if r.hwCnt > 0 {
      TakeRxMoves(r, LongestWhole(bds, Idx(r, r.hwHead), limit));
    }
  }

  lemma TakeNone(r: Ring)
    ensures TakeRx(r, 0) == r
  {
  }

  lemma LongestReached(bds: seq<Bd>, s: nat, limit: nat, k: nat)
    requires s < |bds| && k <= limit && WholePackets(bds, s, k)
    requires forall j :: k < j <= limit ==> !WholePackets(bds, s, j)
    ensures LongestWhole(bds, s, limit) == k
  {
  }

  const DONE := Bd(1, 0x8000)
  const BUSY := Bd(0, 0)

  /** Every descriptor of the ring but the one m places after s is a finished packet. */
  function AllDoneBut(n: nat, s: nat, m: nat): (bds: seq<Bd>)
    requires s < n && m < n
    ensures |bds| == n
  {
    seq(n, i requires 0 <= i < n => if i == Around(n, s, m) then BUSY else DONE)
  }

  lemma ScanStopsAtBusy(n: nat, s: nat, m: nat, limit: nat)
    requires s < n && 0 < m < n && limit >= m
    ensures LongestWhole(AllDoneBut(n, s, m), s, limit) == m
  {
    var bds := AllDoneBut(n, s, m);
    AroundIsMod(n, s, m);
    forall j | 0 <= j < m
      ensures BdAt(bds, s, j) == DONE
    {
      AroundIsMod(n, s, j);
    }
    forall j | m < j <= limit
      ensures !WholePackets(bds, s, j)
    {
      assert !IsRxNew(BdAt(bds, s, m));
    }
    LongestReached(bds, s, limit, m);
  }

  lemma ScanGoesAround(n: nat, s: nat, limit: nat)
    requires s < n
    ensures LongestWhole(seq(n, _ => DONE), s, limit) == limit
  {
    assert WholePackets(seq(n, _ => DONE), s, limit);
  }

  /** Every descriptor is new, and the one at index m alone ends a packet. */
  function OnlyEofAt(n: nat, m: nat): (bds: seq<Bd>)
    ensures |bds| == n
  {
    seq(n, i => if i == m then DONE else Bd(1, 0))
  }

  /** A packet that ends at the k-th descriptor, counted around and around, is found; the next one does not end. */
  lemma ScanStopsBefore(n: nat, s: nat, k: nat)
    requires s < n && n > 1 && k > 0
    ensures LongestWhole(OnlyEofAt(n, (s + (k - 1)) % n), s, k + 1) == k
  {
    var bds := OnlyEofAt(n, (s + (k - 1)) % n);
    AroundIsMod(n, (s + (k - 1)) % n, 1);
    NextMod(n, s + (k - 1));
    assert !IsEof(BdAt(bds, s, k));
    LongestReached(bds, s, k + 1, k);
  }

  lemma NextMod(n: nat, x: nat)
    requires n > 0
    ensures Around(n, x % n, 1) == (x + 1) % n
  {
    AroundIsMod(n, x % n, 1);
    var q, m := x / n, x % n;
    assert x == n * q + m;
    if m + 1 < n {
      ModOf(n, q, m + 1, x + 1);
    } else {
      assert x + 1 == n * (q + 1) + 0;
      ModOf(n, q + 1, 0, x + 1);
    }
  }

  lemma ModOf(n: nat, q: nat, m: nat, x: nat)
    requires m < n && x == n * q + m
    ensures x % n == m
  {
    var d := x / n - q;
    assert x == n * (x / n) + x % n;
    assert n * d == m - x % n by { assert n * (x / n) - n * q == n * d; }
    assert d >= 1 ==> n * d >= n;
    assert d <= -1 ==> n * d <= n * (-1);
  }

  /** The scan has no bound of its own: whatever the descriptors hold it keeps the partition exactly when
      the caller's limit stays inside the work group, or there is no work group. */
  lemma FromHwRxKeepsIff(r: Ring, limit: nat)
    requires Partition(r) && limit < 0x1_0000_0000
    ensures (forall bds: seq<Bd> :: |bds| == r.allCnt ==> Partition(FromHwRx(r, bds, limit))) <==>
      r.hwCnt == 0 || limit <= r.hwCnt
  {
    if r.hwCnt == 0 || limit <= r.hwCnt {
      forall bds: seq<Bd> | |bds| == r.allCnt
        ensures Partition(FromHwRx(r, bds, limit))
      {
        if r.hwCnt > 0 {
          FromHwRxMoves(r, bds, limit);
        }
      }
    } else {
      var bds := Overrun(r, limit);
    }
  }

  lemma Overrun(r: Ring, limit: nat) returns (bds: seq<Bd>)
    requires Partition(r) && 0 < r.hwCnt < limit < 0x1_0000_0000
    ensures |bds| == r.allCnt && !Partition(FromHwRx(r, bds, limit))
  {
    hide Partition, LongestWhole, TakeRx, AllDoneBut, OnlyEofAt;
    PartitionRange(r);
    var s := Idx(r, r.hwHead);
    if r.hwCnt + 1 < r.allCnt {
      bds := AllDoneBut(r.allCnt, s, r.hwCnt + 1);
      ScanStopsAtBusy(r.allCnt, s, r.hwCnt + 1, limit);
      OverTaken(r, r.hwCnt + 1);
    } else if r.postCnt + limit >= 0x1_0000_0000 {
      bds := OnlyEofAt(r.allCnt, (s + (limit - 2)) % r.allCnt);
      ScanStopsBefore(r.allCnt, s, limit - 1);
      OverTaken(r, limit - 1);
    } else {
      bds := seq(r.allCnt, _ => DONE);
      ScanGoesAround(r.allCnt, s, limit);
      OverTaken(r, limit);
    }
  }

  /** Taking more descriptors than the work group has makes its count wrap around. */
  lemma OverTaken(r: Ring, k: nat)
    requires Partition(r) && r.hwCnt < k && r.postCnt + k < 0x1_0000_0000
    ensures !Partition(TakeRx(r, k))
  {
    assert U32(r.hwCnt - k) == r.hwCnt - k + 0x1_0000_0000;
    assert U32(r.postCnt + k) == r.postCnt + k;
  }

  // ---------- The ring object ----------

  /** At least the minimum, a power of two, and kept by both addresses. */
  predicate Aligned(alignment: bv32, physAddr: nat, virtAddr: nat) {
    && alignment >= MIN_ALIGNMENT
    && (alignment - 1) & alignment == 0
    && physAddr % (alignment as nat) == 0 && virtAddr % (alignment as nat) == 0
  }

  lemma LeastAlignment(alignment: bv32, physAddr: nat, virtAddr: nat)
    ensures Aligned(alignment, physAddr, virtAddr) ==> alignment >= 64
  {
  }

  class BdRing {
    var base: nat
    var high: nat
    var length: nat
    var sep: nat
    var freeHead: nat
    var preHead: nat
    var hwHead: nat
    var hwTail: nat
    var postHead: nat
    var hwCnt: nat
    var preCnt: nat
    var freeCnt: nat
    var postCnt: nat
    var allCnt: nat
    /** The descriptors in the region, lowest address first; hardware writes them too. */
    var bds: array<Bd>

    function R(): Ring
      reads this
    {
      Ring(base, high, length, sep, freeHead, preHead, hwHead, hwTail, postHead, hwCnt, preCnt, freeCnt, postCnt, allCnt)
    }

    ghost predicate Valid()
      reads this
    {
      Partition(R()) && bds.Length == allCnt
    }

    constructor ()
      ensures allCnt == 0
    {
      base, high, length, sep := 0, 0, 0, 0;
      freeHead, preHead, hwHead, hwTail, postHead := 0, 0, 0, 0, 0;
      hwCnt, preCnt, freeCnt, postCnt, allCnt := 0, 0, 0, 0, 0;
      bds := new Bd[0];
    }

    /** The loop that walks to the address of the last descriptor. */
    static method LastBd(virtAddr: nat, bdCount: nat) returns (bdVirtAddr: nat)
      requires bdCount > 0 && virtAddr < 0x1_0000_0000_0000_0000
      ensures bdVirtAddr == U64(virtAddr + BD_SIZE * (bdCount - 1))
    {
      bdVirtAddr := virtAddr;
      for i := 1 to bdCount
        invariant bdVirtAddr == U64(virtAddr + BD_SIZE * (i - 1))
      {
        bdVirtAddr := U64(bdVirtAddr + BD_SIZE);
      }
    }

    /** XEmacPs_BdRingCreate */
    method Create(physAddr: nat, virtAddr: nat, alignment: bv32, bdCount: nat) returns (st: Status)
      requires physAddr < 0x1_0000_0000_0000_0000 && virtAddr < 0x1_0000_0000_0000_0000
      requires bdCount < 0x1_0000_0000
      modifies this
      ensures st == Success <==>
        Aligned(alignment, physAddr, virtAddr) && bdCount != 0 &&
        virtAddr <= U64(virtAddr + U32(BD_SIZE * bdCount) - 1)
      ensures st == Success ==> alignment >= 64
      ensures st == InvalidParam <==> bdCount == 0 || !Aligned(alignment, physAddr, virtAddr)
      ensures st != Success ==> allCnt == hwCnt == preCnt == freeCnt == postCnt == 0
      ensures st == Success && BD_SIZE * bdCount < 0x1_0000_0000 ==>
        Valid() && allCnt == bdCount && base == virtAddr && fresh(bds) &&
        FreeGroup(R()) == Group(bdCount, 0, bdCount) && (forall k :: 0 <= k < bdCount ==> bds[k] == Bd(0, 0))
    {
      hide Partition, Group, FreeGroup, Aligned, U64, U32, Whole;
      LeastAlignment(alignment, physAddr, virtAddr);
      allCnt, freeCnt, hwCnt, preCnt, postCnt := 0, 0, 0, 0, 0;
      if !Aligned(alignment, physAddr, virtAddr) {
        return InvalidParam;
      }
      if bdCount == 0 {
        return InvalidParam;
      }
      sep := BD_SIZE;
      if virtAddr > U64(virtAddr + U32(sep * bdCount) - 1) {
        return ListError;
      }
      Setup(virtAddr, bdCount);
      if BD_SIZE * bdCount < 0x1_0000_0000 {
        WholeIsFree(virtAddr, bdCount);
      }
      st := Success;
    }

    static method Cleared(n: nat) returns (a: array<Bd>)
      ensures fresh(a) && a.Length == n && forall k :: 0 <= k < n ==> a[k] == Bd(0, 0)
    {
      a := new Bd[n](_ => Bd(0, 0));
    }

    /** The region is cleared and the whole of it becomes the free group. */
    method Setup(virtAddr: nat, bdCount: nat)
      requires virtAddr < 0x1_0000_0000_0000_0000 && 0 < bdCount < 0x1_0000_0000
      requires sep == BD_SIZE && hwCnt == preCnt == postCnt == 0
      modifies this
      ensures R() == Whole(virtAddr, bdCount)
      ensures fresh(bds) && bds.Length == bdCount && forall k :: 0 <= k < bdCount ==> bds[k] == Bd(0, 0)
    {
      hide U64, U32;
      var last := LastBd(virtAddr, bdCount);
      bds := Cleared(bdCount);
      base, high, length := virtAddr, last, U32(U64(last - virtAddr) + sep);
      allCnt, freeCnt := bdCount, bdCount;
      freeHead, preHead, hwHead, hwTail, postHead := virtAddr, virtAddr, virtAddr, virtAddr, virtAddr;
    }

    /** XEmacPs_BdRingAlloc */
    method BdAlloc(n: nat) returns (st: Status, bdSet: nat)
      requires Valid()
      modifies this`freeHead, this`freeCnt, this`preCnt
      ensures (R(), st) == Alloc(old(R()), n) && Valid()
      ensures st == Success ==> bdSet == old(freeHead)
    {
      hide Partition, Moved, SeekAhead, SeekBack, PostGroup, HwGroup, PreGroup, FreeGroup, BdAddr;
      AllocMoves(R(), n);
      bdSet := 0;
      if freeCnt < n {
        st := Failure;
      } else {
        bdSet := freeHead;
        freeHead := SeekAhead(R(), freeHead, n);
        freeCnt := freeCnt - n;
        preCnt := U32(preCnt + n);
        st := Success;
      }
    }

    /** XEmacPs_BdRingUnAlloc */
    method BdUnAlloc(n: nat) returns (st: Status)
      requires Valid()
      modifies this`freeHead, this`freeCnt, this`preCnt
      ensures (R(), st) == UnAlloc(old(R()), n) && Valid()
    {
      hide Partition, Moved, SeekAhead, SeekBack, PostGroup, HwGroup, PreGroup, FreeGroup, BdAddr;
      UnAllocMoves(R(), n);
      if preCnt < n {
        st := Failure;
      } else {
        freeHead := SeekBack(R(), freeHead, n);
        freeCnt := U32(freeCnt + n);
        preCnt := preCnt - n;
        st := Success;
      }
    }

    /** XEmacPs_BdRingToHw */
    method BdToHw(n: nat, bdSet: nat) returns (st: Status)
      requires Valid()
      modifies this`preHead, this`preCnt, this`hwTail, this`hwCnt
      ensures (R(), st) == ToHw(old(R()), n, bdSet) && Valid()
    {
      hide Partition, Moved, SeekAhead, SeekBack, PostGroup, HwGroup, PreGroup, FreeGroup, BdAddr;
      ToHwMoves(R(), n, bdSet);
      if n == 0 {
        st := Success;
      } else if preCnt < n || preHead != bdSet {
        st := ListError;
      } else {
        var cur := bdSet;
        for i := 0 to n
          invariant R() == old(R())
          invariant NextTimes(R(), bdSet, n) == NextTimes(R(), cur, n - i)
        {
          cur := Next(R(), cur);
        }
        preHead := SeekAhead(R(), preHead, n);
        preCnt := preCnt - n;
        SameNext(old(R()), R(), bdSet, n);
        hwTail := cur;
        hwCnt := U32(hwCnt + n);
        st := Success;
      }
    }

    /** XEmacPs_BdRingFromHwRx, for any limit; the ring stays in order when no more is taken than the work group has. */
    method BdFromHwRx(limit: nat) returns (k: nat, bdSet: nat)
      requires Valid()
      modifies this`hwHead, this`hwCnt, this`postCnt
      ensures R() == FromHwRx(old(R()), bds[..], limit)
      ensures k == if old(hwCnt) == 0 then 0 else LongestWhole(bds[..], Idx(old(R()), old(hwHead)), limit)
      ensures bdSet == if k == 0 then 0 else old(hwHead)
      ensures k <= old(hwCnt) ==> Valid()
    {
      hide Partition, Moved, TakeRx, PostGroup, HwGroup, PreGroup, FreeGroup, BdAddr, LongestWhole, FromHwRx;
      PartitionRange(R());
      RxTakes(R(), bds[..], limit);
      ghost var r, s := R(), Idx(R(), hwHead);
      k, bdSet := 0, 0;
      if hwCnt != 0 {
        k := Scan(limit);
        TakeNone(r);
        if k <= hwCnt {
          TakeRxMoves(r, k);
        }
        if k > 0 {
          bdSet := hwHead;
          Take(k);
        }
      }
    }

    /** The first k descriptors of the work group become the last of the post-work group. */
    method Take(k: nat)
      requires k > 0
      modifies this`hwHead, this`hwCnt, this`postCnt
      ensures R() == TakeRx(old(R()), k)
    {
      hide SeekAhead, U32;
      ghost var r := R();
      hwCnt := U32(hwCnt - k);
      postCnt := U32(postCnt + k);
      SeekSame(r, R(), hwHead, k);
      hwHead := SeekAhead(R(), hwHead, k);
    }

    /** The scan of the work group: new descriptors are counted, and those of an unfinished packet taken off. */
    method Scan(limit: nat) returns (k: nat)
      requires Valid()
      ensures k == LongestWhole(bds[..], Idx(R(), hwHead), limit)
    {
      hide Partition, LongestWhole, Next, Geometry, IsEof, IsRxNew, BdAt, BdCurrent;
      PartitionRange(R());
      ghost var s, ds := Idx(R(), hwHead), bds[..];
      FirstCurrent(R(), s);
      var cur: nat, bdCount, bdPartialCount := hwHead, 0, 0;
      while bdCount < limit
        invariant bdPartialCount <= bdCount <= limit && BdCurrent(R(), s, bdCount, cur)
        invariant forall j :: 0 <= j < bdCount ==> IsRxNew(BdAt(ds, s, j))
        invariant forall j :: bdCount - bdPartialCount <= j < bdCount ==> !IsEof(BdAt(ds, s, j))
        invariant bdCount - bdPartialCount > 0 ==> IsEof(BdAt(ds, s, bdCount - bdPartialCount - 1))
      {
        NextCurrent(R(), ds, s, bdCount, cur);
        var bd := bds[(cur - base) / BD_SIZE];
        assert bd == ds[(cur - base) / BD_SIZE];
        if !IsRxNew(bd) {
          break;
        }
        bdCount := bdCount + 1;
        if IsEof(bd) {
          bdPartialCount := 0;
        } else {
          bdPartialCount := bdPartialCount + 1;
        }
        cur := Next(R(), cur);
      }
      k := bdCount - bdPartialCount;
      ScanIsLongest(ds, s, limit, bdCount, bdPartialCount);
    }

    /** XEmacPs_BdRingFree */
    method BdFree(n: nat, bdSet: nat) returns (st: Status)
      requires Valid()
      modifies this`freeCnt, this`postCnt, this`postHead
      ensures (R(), st) == FreeBds(old(R()), n, bdSet) && Valid()
    {
      hide Partition, Moved, SeekAhead, SeekBack, PostGroup, HwGroup, PreGroup, FreeGroup, BdAddr;
      FreeMoves(R(), n, bdSet);
      if n == 0 {
        st := Success;
      } else if postCnt < n || postHead != bdSet {
        st := ListError;
      } else {
        freeCnt := U32(freeCnt + n);
        postCnt := postCnt - n;
        SeekSame(old(R()), R(), postHead, n);
        postHead := SeekAhead(R(), postHead, n);
        st := Success;
      }
    }
  }

  lemma RxTakes(r: Ring, ds: seq<Bd>, limit: nat)
    requires |ds| == r.allCnt && 0 <= Idx(r, r.hwHead) < r.allCnt
    ensures r.hwCnt == 0 ==> FromHwRx(r, ds, limit) == r
    ensures r.hwCnt != 0 ==> FromHwRx(r, ds, limit) == TakeRx(r, LongestWhole(ds, Idx(r, r.hwHead), limit))
  {
  }

  lemma SeekSame(r: Ring, r1: Ring, p: nat, n: nat)
    requires r1.high == r.high && r1.length == r.length && r1.sep == r.sep
    ensures SeekAhead(r1, p, n) == SeekAhead(r, p, n)
  {
  }

  lemma PartitionRange(r: Ring)
    requires Partition(r)
    ensures 0 <= Idx(r, r.hwHead) < r.allCnt && r.hwHead == BdAddr(r, Idx(r, r.hwHead)) && Geometry(r)
    ensures r.postCnt + r.hwCnt <= r.allCnt
  {
  }

  /** cur is the address of the k-th descriptor from index s on. */
  predicate BdCurrent(r: Ring, s: nat, k: nat, cur: nat) {
    r.allCnt > 0 && cur == BdAddr(r, (s + k) % r.allCnt)
  }

  lemma FirstCurrent(r: Ring, s: nat)
    requires s < r.allCnt
    ensures BdCurrent(r, s, 0, BdAddr(r, s))
  {
  }

  lemma NextCurrent(r: Ring, ds: seq<Bd>, s: nat, k: nat, cur: nat)
    requires Geometry(r) && s < r.allCnt && |ds| == r.allCnt && BdCurrent(r, s, k, cur)
    ensures 0 <= (cur - r.base) / BD_SIZE < r.allCnt && ds[(cur - r.base) / BD_SIZE] == BdAt(ds, s, k)
    ensures BdCurrent(r, s, k + 1, Next(r, cur))
  {
    hide Next, Geometry, Around;
    IdxOf(r, (s + k) % r.allCnt);
    NextMoves(r, (s + k) % r.allCnt);
    NextMod(r.allCnt, s + k);
  }

  lemma {:induction false} SameNext(r: Ring, r1: Ring, p: nat, n: nat)
    requires r1.high == r.high && r1.base == r.base && r1.sep == r.sep
    ensures NextTimes(r1, p, n) == NextTimes(r, p, n)
    decreases n
  {
    if n > 0 {
      SameNext(r, r1, Next(r, p), n - 1);
    }
  }

  lemma ScanIsLongest(ds: seq<Bd>, s: nat, limit: nat, count: nat, partial: nat)
    requires s < |ds| && partial <= count <= limit
    requires forall j :: 0 <= j < count ==> IsRxNew(BdAt(ds, s, j))
    requires forall j :: count - partial <= j < count ==> !IsEof(BdAt(ds, s, j))
    requires count - partial > 0 ==> IsEof(BdAt(ds, s, count - partial - 1))
    requires count < limit ==> !IsRxNew(BdAt(ds, s, count))
    ensures LongestWhole(ds, s, limit) == count - partial
  {
    forall j | count - partial < j <= limit
      ensures !WholePackets(ds, s, j)
    {
      if j <= count {
        assert !IsEof(BdAt(ds, s, j - 1));
      } else {
        assert !IsRxNew(BdAt(ds, s, count));
      }
    }
    LongestReached(ds, s, limit, count - partial);
  }

  /** The ring that BdRingCreate lays over n descriptors at a. */
  function Whole(a: nat, n: nat): Ring
    requires n > 0
  {
    var high := U64(a + BD_SIZE * (n - 1));
    Ring(a, high, U32(U64(high - a) + BD_SIZE), BD_SIZE, a, a, a, a, a, 0, 0, n, 0, n)
  }

  lemma WholeIsFree(a: nat, n: nat)
    requires 0 < n && BD_SIZE * n < 0x1_0000_0000 && a < 0x1_0000_0000_0000_0000
    requires a <= U64(a + U32(BD_SIZE * n) - 1)
    ensures var r := Whole(a, n); Partition(r) && r.allCnt == n && r.base == a && FreeGroup(r) == Group(n, 0, n)
  {
    assert U32(BD_SIZE * n) == BD_SIZE * n;
    assert a + BD_SIZE * n <= 0x1_0000_0000_0000_0000;
  }

  // ---------- Every run ----------

  datatype Op =
    | OpAlloc(n: nat)
    | OpUnAlloc(n: nat)
    | OpToHw(n: nat, bdSet: nat)
    | OpFromHwRx(bds: seq<Bd>, limit: nat)
    | OpFree(n: nat, bdSet: nat)

  /** One operation, whatever its arguments; a receive scan is limited to the work group by its caller. */
  ghost function ApplyOp(r: Ring, op: Op): Ring
    requires Partition(r)
  {
    match op
    case OpAlloc(n) => Alloc(r, n).0
    case OpUnAlloc(n) => UnAlloc(r, n).0
    case OpToHw(n, bdSet) => ToHw(r, n, bdSet).0
    case OpFromHwRx(bds, limit) => if |bds| == r.allCnt && limit <= r.hwCnt then FromHwRx(r, bds, limit) else r
    case OpFree(n, bdSet) => FreeBds(r, n, bdSet).0
  }

  lemma ApplyOpKeeps(r: Ring, op: Op)
    requires Partition(r)
    ensures Partition(ApplyOp(r, op)) && ApplyOp(r, op).allCnt == r.allCnt && ApplyOp(r, op).base == r.base
  {
    hide Partition, SeekAhead, SeekBack, NextTimes, LongestWhole;
    match op
    case OpAlloc(n) => AllocMoves(r, n);
    case OpUnAlloc(n) => UnAllocMoves(r, n);
    case OpToHw(n, bdSet) => ToHwMoves(r, n, bdSet);
    case OpFromHwRx(bds, limit) =>
      if |bds| == r.allCnt && limit <= r.hwCnt {
        FromHwRxMoves(r, bds, limit);
      }
    case OpFree(n, bdSet) => FreeMoves(r, n, bdSet);
  }

  ghost function RunOps(r: Ring, ops: seq<Op>): Ring
    requires Partition(r)
    decreases |ops|
  {
    if ops == [] then r else (ApplyOpKeeps(r, ops[0]); RunOps(ApplyOp(r, ops[0]), ops[1..]))
  }

  /** After any sequence of operations every descriptor is in exactly one of the four groups. */
  lemma {:induction false} RunKeepsPartition(r: Ring, ops: seq<Op>)
    requires Partition(r)
    ensures var r1 := RunOps(r, ops);
      Partition(r1) && r1.allCnt == r.allCnt &&
      (forall i :: 0 <= i < r.allCnt ==> i in AllGroups(r1)) &&
      (forall j, k :: 0 <= j < k < |AllGroups(r1)| ==> AllGroups(r1)[j] != AllGroups(r1)[k])
    decreases |ops|
  {
    hide Partition, ApplyOp, AllGroups;
    if ops == [] {
      GroupsCoverRing(r);
    } else {
      ApplyOpKeeps(r, ops[0]);
      RunKeepsPartition(ApplyOp(r, ops[0]), ops[1..]);
    }
  }
}
