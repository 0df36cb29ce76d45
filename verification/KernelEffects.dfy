/** What the operations of the scheduler do to the queues, exactly. */
module KernelEffects {
  import opened Lists
  import opened Queues
  import opened KernelState
  import opened KernelSched
  import opened KernelInv

  function Rest<T>(s: seq<T>): seq<T> {
    if s == [] then [] else s[1..]
  }

  /** Removing the first member of queue h changes nothing else. */
  lemma RemoveHead(q: seq<seq<nat>>, h: nat)
    requires Once(q) && h < |q| && q[h] != []
    ensures Remove(q, q[h][0]) == q[h := q[h][1..]]
  {
    assert q[h][0] in q[h];
    RemoveFrom(q, h, q[h][0]);
    WithoutFirst(q[h]);
  }

  lemma SitedOnce(k: K)
    requires Sited(k)
    ensures Once(k.q) && |k.q| == QUEUES && Sound(k)
  {
    SitedSound(k);
  }

  /** Waking moves the first waiter to the end of the ready queue. */
  lemma WakeMoves(k: K, h: nat)
    requires Sited(k) && h < QUEUES && h != READY && k.q[h] != []
    ensures Sound(k) && Wake(k, h).q == k.q[h := k.q[h][1..]][READY := k.q[READY] + [k.q[h][0]]]
    ensures Wake(k, h).procs == WithStatus(k.procs, k.q[h][0], Ready) && Wake(k, h).cur == k.cur
    ensures Wake(k, h).sems == k.sems && Wake(k, h).boxes == k.boxes && Wake(k, h).made == k.made && Wake(k, h).nextPid == k.nextPid
  {
    SitedOnce(k);
    RemoveHead(k.q, h);
  }

  /** All waiters become ready, behind the processes that already were, in the order they came. */
  lemma {:induction false} WakeAllMoves(k: K, h: nat)
    requires Sited(k) && h < QUEUES && h != READY
    ensures Sound(k) && WakeAll(k, h).q == k.q[h := []][READY := k.q[READY] + k.q[h]]
    ensures |WakeAll(k, h).procs| == |k.procs| && forall p: nat :: p < |k.procs| ==>
      WakeAll(k, h).procs[p] == if p in k.q[h] then k.procs[p].(status := Ready) else k.procs[p]
    decreases if Sound(k) then |k.q[h]| else 0
  {
    hide Sited, Wake;
    SitedOnce(k);
    WakeAllCore(k, h);
    if k.q[h] == [] {
      assert k.q[READY] + k.q[h] == k.q[READY];
      assert k.q[h := []][READY := k.q[READY] + k.q[h]] == k.q;
    } else {
      WakeMoves(k, h);
      WakeSited(k, h);
      var k1 := Wake(k, h);
      WakeAllMoves(k1, h);
      assert k1.q[READY] + k1.q[h] == k.q[READY] + k.q[h];
      assert WakeAll(k, h).q == k.q[h := []][READY := k.q[READY] + k.q[h]];
    }
  }

  lemma DispatchMoves(k: K, c: nat)
    requires Sited(k) && c < CORES && k.cur[c] == Idle
    ensures Schedulable(k, c) && Dispatch(k, c).q == k.q[READY := Rest(k.q[READY])]
    ensures Dispatch(k, c).cur == k.cur[c := if k.q[READY] == [] then Idle else Task(k.q[READY][0])]
  {
    SitedOnce(k);
    if k.q[READY] != [] {
      RemoveHead(k.q, READY);
    } else {
      assert k.q[READY := Rest(k.q[READY])] == k.q;
    }
  }

  /** The ready queue with the running process of core c put back. */
  function Lined(k: K, c: nat): seq<nat>
    requires Sound(k) && c < CORES
  {
    if k.cur[c].Task? then k.q[READY] + [k.cur[c].p] else k.q[READY]
  }

  /** do_scheduler: the running process lines up, and the core goes to the head of the line. */
  lemma ScheduleMoves(k: K, c: nat)
    requires Sited(k) && c < CORES && (k.cur[c].Task? ==> k.procs[k.cur[c].p].pid != 0)
    ensures Sound(k) && Schedulable(k, c)
    ensures Schedule(k, c).q == k.q[READY := Rest(Lined(k, c))]
    ensures Schedule(k, c).cur == k.cur[c := if Lined(k, c) == [] then Idle else Task(Lined(k, c)[0])]
  {
    hide Sited, Dispatch, Schedule, WithStatus, Below;
    SitedOnce(k);
    ScheduleSited(k, c);
    if k.cur[c].Task? {
      ReadyMade(k);
      ParkedSited(k, c, READY);
      DispatchMoves(Parked(k, c, READY), c);
    } else {
      DispatchMoves(k, c);
    }
  }

  lemma ReadyMade(k: K)
    requires Sited(k)
    ensures READY in k.made && TIMERS in k.made
  {
  }

  /** Blocking: the process goes to the end of its queue, and the core to the head of the ready line. */
  lemma BlockOnMoves(k: K, c: nat, h: nat)
    requires Sited(k) && c < CORES && k.cur[c].Task? && h < QUEUES && h != READY && h in k.made
    ensures Runs(k, c)
    ensures BlockOn(k, c, h).q == k.q[h := k.q[h] + [k.cur[c].p]][READY := Rest(k.q[READY])]
    ensures BlockOn(k, c, h).cur == k.cur[c := if k.q[READY] == [] then Idle else Task(k.q[READY][0])]
  {
    hide Sited, Dispatch, BlockOn, WithStatus, Below;
    BlockOnSited(k, c, h);
    SitedOnce(k);
    ParkedSited(k, c, h);
    DispatchMoves(Parked(k, c, h), c);
  }

  // ---------- timer_check ----------

  /** The sleepers, from the i-th on, whose deadline has passed, or those it has not. */
  function Sleepers(procs: seq<Proc>, s: seq<nat>, now: nat, due: bool): (r: seq<nat>)
    requires AllBelow(s, |procs|)
  {
    if s == [] then []
    else
      var rest := Sleepers(procs, s[1..], now, due);
      if (procs[s[0]].wake <= now) == due then [s[0]] + rest else rest
  }

  lemma {:induction false} SleepersSame(procs: seq<Proc>, procs1: seq<Proc>, s: seq<nat>, now: nat, due: bool)
    requires AllBelow(s, |procs|) && SameIds(procs, procs1)
    ensures AllBelow(s, |procs1|) && Sleepers(procs1, s, now, due) == Sleepers(procs, s, now, due)
  {
    if s != [] {
      SleepersSame(procs, procs1, s[1..], now, due);
      assert procs1[s[0]].wake == procs[s[0]].wake;
    }
  }

  /** Sleepers are served in order: the due ones go to the end of the ready queue, the others stay in order. */
  lemma {:induction false} CheckMoves(k: K, i: nat, now: nat)
    requires Sited(k) && Sound(k) && i <= |k.q[TIMERS]| && AllBelow(k.q[TIMERS][i..], |k.procs|)
    ensures CheckFrom(k, i, now).q ==
      k.q[TIMERS := k.q[TIMERS][..i] + Sleepers(k.procs, k.q[TIMERS][i..], now, false)]
         [READY := k.q[READY] + Sleepers(k.procs, k.q[TIMERS][i..], now, true)]
    decreases |k.q[TIMERS]| - i
  {
    hide Sited;
    var t := k.q[TIMERS];
    if i == |t| {
      assert t[i..] == [] && t[..i] == t;
      assert k.q[READY] + [] == k.q[READY];
      assert t + [] == t;
      assert k.q[TIMERS := t][READY := k.q[READY]] == k.q;
    } else {
      var p := t[i];
      assert t[i..][0] == p && t[i..][1..] == t[i + 1..];
      if k.procs[p].wake <= now {
        CheckDue(k, i, now);
        var k1 := MoveReady(k, p);
        CheckMoves(k1, i, now);
        SleepersSame(k.procs, k1.procs, t[i + 1..], now, true);
        SleepersSame(k.procs, k1.procs, t[i + 1..], now, false);
        assert k1.q[READY] + Sleepers(k.procs, t[i + 1..], now, true) == k.q[READY] + Sleepers(k.procs, t[i..], now, true);
        assert CheckFrom(k, i, now).q == k.q[TIMERS := t[..i] + Sleepers(k.procs, t[i..], now, false)]
          [READY := k.q[READY] + Sleepers(k.procs, t[i..], now, true)];
      } else {
        CheckMoves(k, i + 1, now);
        assert t[..i + 1] + Sleepers(k.procs, t[i + 1..], now, false) == t[..i] + Sleepers(k.procs, t[i..], now, false);
      }
    }
  }

  lemma CheckDue(k: K, i: nat, now: nat)
    requires Sited(k) && Sound(k) && i < |k.q[TIMERS]| && k.procs[k.q[TIMERS][i]].wake <= now
    ensures var k1, t := MoveReady(k, k.q[TIMERS][i]), k.q[TIMERS];
      Sited(k1) && Sound(k1) && k1.q == k.q[TIMERS := Cut(t, i)][READY := k.q[READY] + [t[i]]] && SameIds(k.procs, k1.procs) &&
      i <= |k1.q[TIMERS]| && k1.q[TIMERS][..i] == t[..i] && k1.q[TIMERS][i..] == t[i + 1..] &&
      CheckFrom(k, i, now) == CheckFrom(k1, i, now) && AllBelow(t[i + 1..], |k1.procs|)
  {
    var t := k.q[TIMERS];
    var p := t[i];
    assert p in t;
    SitedSound(k);
    SitedOnce(k);
    MoveReadySited(k, p);
    MoveReadySound(k, p);
    RemoveOnce(k.q, TIMERS, i, |k.procs|);
  }

  /** timer_check makes ready exactly the sleepers whose deadline has passed, in order. */
  lemma TimerCheckMoves(k: K, now: nat)
    requires Sited(k)
    ensures Sound(k) && AllBelow(k.q[TIMERS], |k.procs|)
    ensures TimerCheck(k, now).q == k.q[TIMERS := Sleepers(k.procs, k.q[TIMERS], now, false)]
      [READY := k.q[READY] + Sleepers(k.procs, k.q[TIMERS], now, true)]
    ensures TimerCheck(k, now).cur == k.cur && TimerCheck(k, now).sems == k.sems && TimerCheck(k, now).boxes == k.boxes
  {
    hide Sited;
    SitedOnce(k);
    CheckCore(k, 0, now);
    var t := k.q[TIMERS];
    assert t[0..] == t && t[..0] == [];
    CheckMoves(k, 0, now);
    assert [] + Sleepers(k.procs, t, now, false) == Sleepers(k.procs, t, now, false);
  }
}
