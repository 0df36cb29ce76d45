/** In which order frames are handed out. */
module VmFrames {
  import opened VmMemory
  import opened VmMap

  /** The next n frames that allocPage hands out. */
  function Taken(m: M, n: nat): (s: seq<nat>)
    requires n <= Room(m)
    ensures |s| == n
    decreases n
  {
    if n == 0 then [] else [NextFrame(m)] + Taken(AllocPage(m), n - 1)
  }

  /** First those that were given back, the one that has waited longest first; then those never used, upwards. */
  lemma {:induction false} TakenInOrder(m: M, n: nat, i: nat)
    requires i < n <= Room(m)
    ensures Taken(m, n)[i] == if i < |m.free| then m.free[i] else m.curr + 1 + i - |m.free|
    decreases n
  {
    if i > 0 {
      TakenInOrder(AllocPage(m), n - 1, i - 1);
    }
  }

  lemma {:induction false} FreeAllAppends(m: M, fs: seq<nat>)
    ensures FreeAll(m, fs) == m.(free := m.free + fs)
    decreases |fs|
  {
    if fs == [] {
      assert m.free + [] == m.free;
    } else {
      FreeAllAppends(FreePage(m, fs[0]), fs[1..]);
      assert (m.free + [fs[0]]) + fs[1..] == m.free + fs;
    }
  }

  /** Frames given back are handed out again in the order in which they were given back, behind those that were already
      waiting and before any frame that was never used. */
  lemma GivenBackFirst(m: M, fs: seq<nat>, n: nat, i: nat)
    requires Room(m) >= 0 && n <= Room(m) + |fs| && i < n
    ensures Room(FreeAll(m, fs)) == Room(m) + |fs|
    ensures Taken(FreeAll(m, fs), n)[i] == if i < |m.free| + |fs| then (m.free + fs)[i] else m.curr + 1 + i - |m.free| - |fs|
  {
    FreeAllAppends(m, fs);
    TakenInOrder(FreeAll(m, fs), n, i);
  }

  /** No frame is handed out twice, nor one that is in use. */
  lemma TakenOnce(m: M, n: nat, i: nat, j: nat)
    requires Inv(m) && i < n <= Room(m) && j < n && i != j
    ensures Taken(m, n)[i] != Taken(m, n)[j] && InRam(Taken(m, n)[i])
    ensures Taken(m, n)[i] !in m.roots && forall l :: LinkOk(m, l) ==> Ptr(m, l) != Taken(m, n)[i]
  {
    hide LinkOk, Ptr, Known;
    TakenInOrder(m, n, i);
    TakenInOrder(m, n, j);
    var f := Taken(m, n)[i];
    assert i < |m.free| ==> f in m.free;
    forall l | LinkOk(m, l)
      ensures Ptr(m, l) != f
    {
      assert TargetOk(m, l);
    }
  }
}
