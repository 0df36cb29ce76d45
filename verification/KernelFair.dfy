/** Round robin is fair: a ready process is dispatched after as many reschedules as stand in front of it. */
module KernelFair {
  import opened Queues
  import opened KernelState
  import opened KernelSched
  import opened KernelInv
  import opened KernelLocks
  import opened KernelEffects
  import opened KernelRuns

  /** p stands in s with at most n before it. */
  ghost predicate Ahead(s: seq<nat>, p: nat, n: nat) {
    exists i: nat :: i <= n && i < |s| && s[i] == p
  }

  lemma AheadAppend(s: seq<nat>, t: seq<nat>, p: nat, n: nat)
    requires Ahead(s, p, n) && s <= t
    ensures Ahead(t, p, n)
  {
    var i: nat :| i <= n && i < |s| && s[i] == p;
    assert t[i] == p;
  }

  lemma {:induction false} AheadWithout(s: seq<nat>, x: nat, p: nat, n: nat)
    requires Ahead(s, p, n) && x != p
    ensures Ahead(Without(s, x), p, n)
  {
    var i: nat :| i <= n && i < |s| && s[i] == p;
    if i == 0 {
      assert Without(s, x)[0] == p;
    } else {
      assert s[1..][i - 1] == p;
      AheadWithout(s[1..], x, p, n - 1);
      var j: nat :| j <= n - 1 && j < |Without(s[1..], x)| && Without(s[1..], x)[j] == p;
      assert s[0] != x ==> Without(s, x)[j + 1] == p;
    }
  }

  lemma AheadRest(s: seq<nat>, p: nat, n: nat)
    requires Ahead(s, p, n)
    ensures s != [] && (s[0] == p || (n > 0 && Ahead(Rest(s), p, n - 1)))
  {
    var i: nat :| i <= n && i < |s| && s[i] == p;
    if i > 0 {
      assert Rest(s)[i - 1] == p;
    }
  }

  /** p runs, or has moved up by one. */
  ghost predicate Nearer(k: K, p: nat, n: nat) {
    |k.q| == QUEUES && (OnCore(k.cur, p) || (n > 0 && Ahead(k.q[READY], p, n - 1)))
  }

  ghost predicate NoFarther(k: K, p: nat, n: nat) {
    |k.q| == QUEUES && Ahead(k.q[READY], p, n)
  }

  lemma ScheduleNearer(k: K, c: nat, p: nat, n: nat)
    requires Sited(k) && c < CORES && (k.cur[c].Task? ==> k.procs[k.cur[c].p].pid != 0) && NoFarther(k, p, n)
    ensures Schedulable(k, c) && Nearer(Schedule(k, c), p, n)
  {
    hide Sited, Schedule, Ahead;
    ScheduleMoves(k, c);
    var s := Lined(k, c);
    AheadAppend(k.q[READY], s, p, n);
    AheadRest(s, p, n);
    var r := Schedule(k, c);
    assert |k.cur| == CORES && r.cur[c] == Task(s[0]) by { SitedOnce(k); }
  }

  lemma BlockNearer(k: K, c: nat, h: nat, p: nat, n: nat)
    requires Sited(k) && c < CORES && k.cur[c].Task? && h < QUEUES && h != READY && h in k.made && NoFarther(k, p, n)
    ensures Runs(k, c) && Nearer(BlockOn(k, c, h), p, n)
  {
    hide Sited, BlockOn, Ahead;
    BlockOnMoves(k, c, h);
    var s := k.q[READY];
    AheadRest(s, p, n);
    var r := BlockOn(k, c, h);
    assert |k.cur| == CORES && r.cur[c] == Task(s[0]) by { SitedOnce(k); }
  }

  lemma WakeAllNoFarther(k: K, h: nat, p: nat, n: nat)
    requires Sited(k) && h < QUEUES && h != READY && NoFarther(k, p, n)
    ensures Sound(k) && NoFarther(WakeAll(k, h), p, n)
  {
    hide Sited, WakeAll, Ahead;
    WakeAllMoves(k, h);
    AheadAppend(k.q[READY], k.q[READY] + k.q[h], p, n);
  }

  lemma WakeNoFarther(k: K, h: nat, p: nat, n: nat)
    requires Sited(k) && h < QUEUES && h != READY && k.q[h] != [] && NoFarther(k, p, n)
    ensures Sound(k) && NoFarther(Wake(k, h), p, n)
  {
    hide Sited, Wake, Ahead;
    WakeMoves(k, h);
    AheadAppend(k.q[READY], k.q[READY] + [k.q[h][0]], p, n);
  }

  lemma TimerNoFarther(k: K, now: nat, p: nat, n: nat)
    requires Sited(k) && NoFarther(k, p, n)
    ensures Sound(k) && NoFarther(TimerCheck(k, now), p, n)
  {
    hide Sited, TimerCheck, Ahead, Sleepers;
    TimerCheckMoves(k, now);
    AheadAppend(k.q[READY], k.q[READY] + Sleepers(k.procs, k.q[TIMERS], now, true), p, n);
  }

  /** A core whose process has ended takes the first ready process. */
  lemma QuitNearer(k: K, c: nat, s: Status, p: nat, n: nat)
    requires Sited(k) && c < CORES && k.cur[c].Task? && (s == Exited || s == Zombie) && NoFarther(k, p, n)
    ensures var k1 := Ended(k, k.cur[c].p, s); Schedulable(k1, c) && Nearer(Schedule(k1, c), p, n)
  {
    hide Ahead;
    SitedSound(k);
    var k1 := Ended(k, k.cur[c].p, s);
    QuitSited(k, c, s);
    AheadRest(k.q[READY], p, n);
    SitedOnce(k);
    RemoveHead(k.q, READY);
    assert Schedule(k1, c).q == k.q[READY := k.q[READY][1..]];
    assert Schedule(k1, c).cur[c] == Task(k.q[READY][0]);
  }

  lemma ExitNearer(k: K, c: nat, p: nat, n: nat)
    requires Inv(k) && c < CORES && k.cur[c].Task? && k.cur[c].p != 0 && NoFarther(k, p, n)
    ensures Runs(k, c) && |k.procs| <= MAX_TASK && Nearer(Exit(k, c), p, n)
  {
    hide Inv, Sited, WakeAll, Ahead, Nearer, Schedule, Below;
    InvSited(k);
    var x := k.cur[c].p;
    var k0 := k.(procs := k.procs[x := k.procs[x].(pid := 0)]);
    PidZeroSited(k, x);
    WakeAllSited(k0, WaitQ(x));
    WakeAllCore(k0, WaitQ(x));
    WakeAllNoFarther(k0, WaitQ(x), p, n);
    var k1 := WakeAll(k0, WaitQ(x));
    QuitNearer(k1, c, if k1.procs[x].mode == AutoCleanupOnExit then Exited else Zombie, p, n);
  }

  lemma {:induction false} ReleaseNoFarther(k: K, locks: seq<nat>, i: nat, p: nat, n: nat)
    requires Sited(k) && i <= |locks| && AllBelow(locks, MAX_SEM) && NoFarther(k, p, n)
    ensures Sound(k) && NoFarther(ReleaseFrom(k, locks, i), p, n)
    decreases |locks| - i
  {
    hide Sited, Ahead, Wake;
    SitedSound(k);
    if i < |locks| {
      ReleaseOneSited(k, locks[i]);
      if k.q[SemQ(locks[i])] != [] {
        WakeNoFarther(k, SemQ(locks[i]), p, n);
      }
      ReleaseNoFarther(ReleaseOne(k, locks[i]), locks, i + 1, p, n);
    }
  }

  lemma DroppedNoFarther(k: K, x: nat, p: nat, n: nat)
    requires Sited(k) && x < |k.procs| && x != p && NoFarther(k, p, n)
    ensures NoFarther(Dropped(k, x), p, n)
  {
    AheadWithout(k.q[READY], x, p, n);
  }

  lemma KillNoFarther(k: K, c: nat, pid: int, p: nat, n: nat)
    requires Inv(k) && Fit(k) && c < CORES && k.cur[1 - c] != Task(FindPid(k.procs, pid)) && FindPid(k.procs, pid) != p && NoFarther(k, p, n)
    ensures var r := Kill(k, c, pid).0;
      if pid != 0 && pid != 1 && k.cur[c] == Task(FindPid(k.procs, pid)) && FindPid(k.procs, pid) < |k.procs| then Nearer(r, p, n)
      else NoFarther(r, p, n)
  {
    hide Inv, Sited, Reap, Wake, Schedule, WakeAll, ReleaseFrom, Same, Ahead, Nearer, NoFarther, Placed;
    InvSited(k);
    var x := FindPid(k.procs, pid);
    if pid != 0 && pid != 1 && x < |k.procs| {
      var locks := k.procs[x].locks;
      if k.cur[c] == Task(x) {
        SelfReap(k, c);
        ReleaseNoFarther(k, locks, 0, p, n);
        ReleaseSited(k, locks, 0);
        ReleaseCore(k, locks, 0);
        WakeAllNoFarther(ReleaseFrom(k, locks, 0), WaitQ(x), p, n);
        QuitNearer(WakeAll(ReleaseFrom(k, locks, 0), WaitQ(x)), c, Exited, p, n);
      } else {
        NotRunning(k, x, c);
        ReapDropped(k, x);
        DroppedSited(k, x);
        DroppedNoFarther(k, x, p, n);
        ReleaseNoFarther(Dropped(k, x), locks, 0, p, n);
        ReleaseSited(Dropped(k, x), locks, 0);
        WakeAllNoFarther(ReleaseFrom(Dropped(k, x), locks, 0), WaitQ(x), p, n);
      }
    }
  }

  // ---------- One event ----------

  /** e ends in do_scheduler. */
  predicate Switches(k: K, e: Event)
    requires Fit(k)
  {
    Enabled(k, e) &&
    match e
    case Reschedule(_) => true
    case DoSleep(_, _, _, _) => true
    case DoExit(_) => true
    case DoWaitPid(_, pid) => pid != 0 && pid != 1 && FindPid(k.procs, pid) < |k.procs|
    case DoKill(c, pid) => pid != 0 && pid != 1 && FindPid(k.procs, pid) < |k.procs| && k.cur[c] == Task(FindPid(k.procs, pid))
    case DoSemDown(_, i) => k.sems[i].s <= 0
    case DoAcquire(_, i) => k.sems[i].s <= 0
    case DoBarrierWait(_, i) => k.sems[i].s > 1
    case DoSend(_, m, msg) => |k.boxes[m].buf| + |msg| > MBOX_SIZE
    case DoRecv(_, m, want) => |k.boxes[m].buf| < want
    case _ => false
  }

  /** e kills p. */
  predicate Kills(k: K, e: Event, p: nat) {
    e.DoKill? && FindPid(k.procs, e.pid) == p
  }

  lemma SchedStep(k: K, e: Event, p: nat, n: nat)
    requires Inv(k) && Fit(k) && Enabled(k, e) && OfSched(e) && !Kills(k, e, p) && NoFarther(k, p, n)
    ensures if Switches(k, e) then Nearer(DoSched(k, e), p, n) else NoFarther(DoSched(k, e), p, n)
  {
    hide Inv, Sited, Schedule, TimerCheck, Exit, Kill, BlockOn, Nearer, Ahead, Below, Placed;
    InvSited(k);
    match e
    case Reschedule(c) =>
      if k.cur[c].Task? {
        LivePid(k, c);
      }
      ScheduleNearer(k, c, p, n);
    case ClockCheck(now) => TimerNoFarther(k, now, p, n);
    case DoSleep(c, t, base, now) =>
      var x := k.cur[c].p;
      var procs1 := k.procs[x := k.procs[x].(wake := U64(now + U64(t * base)))];
      FieldsKeep(k, procs1);
      InvSited(k.(procs := procs1));
      ReadyMade(k);
      BlockNearer(k.(procs := procs1), c, TIMERS, p, n);
    case DoWaitPid(c, pid) =>
      if Switches(k, e) {
        ShellPid(k);
        SitedMade(k);
        BlockNearer(k, c, WaitQ(FindPid(k.procs, pid)), p, n);
      }
    case DoExit(c) => ExitNearer(k, c, p, n);
    case DoKill(c, pid) => KillNoFarther(k, c, pid, p, n);
    case DoExec(mode) => AheadAppend(k.q[READY], k.q[READY] + [|k.procs|], p, n);
  }

  lemma DownStep(k: K, c: nat, i: nat, p: nat, n: nat)
    requires Inv(k) && c < CORES && k.cur[c].Task? && i < MAX_SEM && SemQ(i) in k.made && NoFarther(k, p, n)
    ensures Runs(k, c) && (if k.sems[i].s <= 0 then Nearer(SemDown(k, c, i), p, n) else NoFarther(SemDown(k, c, i), p, n))
  {
    hide Inv, Sited, BlockOn, Nearer, Ahead, Below;
    InvSited(k);
    if k.sems[i].s <= 0 {
      BlockNearer(k, c, SemQ(i), p, n);
    }
  }

  lemma AcquireStep(k: K, c: nat, i: nat, p: nat, n: nat)
    requires Inv(k) && Fit(k) && Enabled(k, DoAcquire(c, i)) && NoFarther(k, p, n)
    ensures if k.sems[i].s <= 0 then Nearer(Acquire(k, c, i), p, n) else NoFarther(Acquire(k, c, i), p, n)
  {
    hide Inv, SemDown, Nearer, Ahead, Below;
    LocksOf(k, c);
    LocksKeep(k, c, k.procs[k.cur[c].p].locks + [i]);
    DownStep(WithLocks(k, c, k.procs[k.cur[c].p].locks + [i]), c, i, p, n);
  }

  lemma UpStep(k: K, i: nat, p: nat, n: nat)
    requires Inv(k) && i < MAX_SEM && NoFarther(k, p, n)
    ensures Sound(k) && NoFarther(SemUp(k, i), p, n)
  {
    hide Inv, Sited, Wake, Ahead, Below;
    InvSited(k);
    if k.q[SemQ(i)] != [] {
      WakeNoFarther(k, SemQ(i), p, n);
    }
  }

  lemma BarrierStep(k: K, c: nat, i: nat, p: nat, n: nat)
    requires Inv(k) && Fit(k) && Enabled(k, DoBarrierWait(c, i)) && NoFarther(k, p, n)
    ensures if k.sems[i].s > 1 then Nearer(BarrierWait(k, c, i), p, n) else NoFarther(BarrierWait(k, c, i), p, n)
  {
    hide Inv, Sited, WakeAll, BlockOn, Nearer, Ahead, Below;
    var s := if k.sems[i].s > 1 then k.sems[i].s - 1 else k.sems[i].s + |k.q[SemQ(i)]|;
    SemsKeep(k, k.sems[i := k.sems[i].(s := s)], k.boxes);
    var k1 := WithSem(k, i, s);
    InvSited(k1);
    if k.sems[i].s > 1 {
      BlockNearer(k1, c, SemQ(i), p, n);
    } else {
      WakeAllNoFarther(k1, SemQ(i), p, n);
    }
  }

  lemma SendStep(k: K, c: nat, m: nat, msg: seq<byte>, p: nat, n: nat)
    requires Inv(k) && Fit(k) && Enabled(k, DoSend(c, m, msg)) && NoFarther(k, p, n)
    ensures if |k.boxes[m].buf| + |msg| > MBOX_SIZE then Nearer(Send(k, c, m, msg), p, n) else NoFarther(Send(k, c, m, msg), p, n)
  {
    hide Inv, Sited, WakeAll, BlockOn, Nearer, Ahead, Below;
    var b := k.boxes[m];
    var full := |b.buf| + |msg| > MBOX_SIZE;
    var call := if full then Sending(m, msg) else NoCall;
    var b1 := if full then b.(fullCount := b.fullCount + 1) else b.(buf := b.buf + msg);
    CallKeeps(k, c, call);
    var k1 := WithCall(k, c, call);
    SemsKeep(k1, k1.sems, k1.boxes[m := b1]);
    var k2 := WithBox(k1, m, b1);
    InvSited(k2);
    if full {
      BlockNearer(k2, c, FullQ(m), p, n);
    } else {
      WakeAllNoFarther(k2, EmptyQ(m), p, n);
    }
  }

  lemma RecvStep(k: K, c: nat, m: nat, want: nat, p: nat, n: nat)
    requires Inv(k) && Fit(k) && Enabled(k, DoRecv(c, m, want)) && NoFarther(k, p, n)
    ensures if |k.boxes[m].buf| < want then Nearer(Recv(k, c, m, want), p, n) else NoFarther(Recv(k, c, m, want), p, n)
  {
    hide Inv, Sited, WakeAll, BlockOn, Nearer, Ahead, Below;
    var b := k.boxes[m];
    var short := |b.buf| < want;
    var call := if short then Receiving(m, want) else NoCall;
    var b1 := if short then b.(emptyCount := b.emptyCount + 1) else b.(buf := b.buf[want..]);
    CallKeeps(k, c, call);
    var k1 := WithCall(k, c, call);
    SemsKeep(k1, k1.sems, k1.boxes[m := b1]);
    var k2 := WithBox(k1, m, b1);
    InvSited(k2);
    if short {
      BlockNearer(k2, c, EmptyQ(m), p, n);
    } else {
      WakeAllNoFarther(k2, FullQ(m), p, n);
    }
  }

  lemma SyncStep(k: K, e: Event, p: nat, n: nat)
    requires Inv(k) && Fit(k) && Enabled(k, e) && !OfSched(e) && NoFarther(k, p, n)
    ensures if Switches(k, e) then Nearer(DoSync(k, e), p, n) else NoFarther(DoSync(k, e), p, n)
  {
    hide Inv, Sited, SemDown, SemUp, Acquire, BarrierWait, Send, Recv, WakeAll, Nearer, Ahead, Below, Placed;
    InvSited(k);
    match e
    case DoSemInit(i, val) =>
    case DoSemUp(i) => UpStep(k, i, p, n);
    case DoSemDown(c, i) => DownStep(k, c, i, p, n);
    case DoAcquire(c, i) => AcquireStep(k, c, i, p, n);
    case DoRelease(c, i) => UpStep(k, i, p, n);
    case DoSemDestroy(i) => WakeAllNoFarther(k, SemQ(i), p, n);
    case DoBarrierInit(i, count) =>
    case DoBarrierWait(c, i) => BarrierStep(k, c, i, p, n);
    case DoBoxOpen(m) =>
    case DoSend(c, m, msg) => SendStep(k, c, m, msg, p, n);
    case DoRecv(c, m, want) => RecvStep(k, c, m, want, p, n);
  }

  /** No event moves a ready process back, and every reschedule on either core moves it up. */
  lemma StepAhead(k: K, e: Event, p: nat, n: nat)
    requires Inv(k) && Fit(k) && !Kills(k, e, p) && NoFarther(k, p, n)
    ensures if Switches(k, e) then Nearer(Apply(k, e), p, n) else NoFarther(Apply(k, e), p, n)
  {
    hide Inv, DoSched, DoSync, Nearer, NoFarther, Switches;
    NotSwitching(k, e);
    if Enabled(k, e) {
      if OfSched(e) {
        SchedStep(k, e, p, n);
      } else {
        SyncStep(k, e, p, n);
      }
    }
  }

  lemma NotSwitching(k: K, e: Event)
    requires Fit(k)
    ensures Switches(k, e) ==> Enabled(k, e)
  {
  }

  // ---------- Runs ----------

  /** How many events of the run end in do_scheduler. */
  ghost function Reschedules(k: K, es: seq<Event>): nat
    requires Inv(k)
    decreases |es|
  {
    if es == [] then 0
    else
      ApplyKeeps(k, es[0]);
      InvFit(k);
      (if Switches(k, es[0]) then 1 else 0) + Reschedules(Apply(k, es[0]), es[1..])
  }

  /** No event of the run kills p. */
  ghost predicate Spares(k: K, es: seq<Event>, p: nat)
    requires Inv(k)
    decreases |es|
  {
    es == [] || (!Kills(k, es[0], p) && (ApplyKeeps(k, es[0]); Spares(Apply(k, es[0]), es[1..], p)))
  }

  /** p runs after some part of the run. */
  ghost predicate GetsCore(k: K, es: seq<Event>, p: nat)
    requires Inv(k)
    decreases |es|
  {
    OnCore(k.cur, p) || (es != [] && (ApplyKeeps(k, es[0]); GetsCore(Apply(k, es[0]), es[1..], p)))
  }

  /** With n processes in front of it, a ready process gets a core within n + 1 reschedules,
      whatever else blocks, wakes, exits or is killed in between. */
  lemma {:induction false} BoundedWait(k: K, es: seq<Event>, p: nat, n: nat)
    requires Inv(k) && NoFarther(k, p, n) && Spares(k, es, p) && Reschedules(k, es) > n
    ensures GetsCore(k, es, p)
    decreases |es|
  {
    hide Inv, Apply, NoFarther, Switches;
    var e := es[0];
    ApplyKeeps(k, e);
    InvFit(k);
    StepAhead(k, e, p, n);
    var k1 := Apply(k, e);
    if Switches(k, e) {
      NearerMeans(k1, p, n);
      if OnCore(k1.cur, p) {
        assert GetsCore(k1, es[1..], p);
      } else {
        BoundedWait(k1, es[1..], p, n - 1);
      }
    } else {
      BoundedWait(k1, es[1..], p, n);
    }
  }

  lemma NearerMeans(k: K, p: nat, n: nat)
    requires Nearer(k, p, n)
    ensures OnCore(k.cur, p) || (n > 0 && NoFarther(k, p, n - 1))
  {
  }

  /** The j-th process of the ready queue has j processes in front of it. */
  lemma PlaceInLine(k: K, j: nat)
    requires Inv(k) && |k.q| == QUEUES && j < |k.q[READY]|
    ensures NoFarther(k, k.q[READY][j], j)
  {
  }

  /** GetsCore, by positions in the run. */
  lemma {:induction false} GetsCoreAt(k: K, es: seq<Event>, p: nat)
    requires Inv(k)
    ensures GetsCore(k, es, p) <==> exists j: nat :: j <= |es| && OnCore(Run(k, es[..j]).cur, p)
    decreases |es|
  {
    hide Inv, OnCore, Apply;
    assert es[..0] == [];
    assert Run(k, es[..0]) == k;
    if es != [] {
      ApplyKeeps(k, es[0]);
      var k1, rest := Apply(k, es[0]), es[1..];
      GetsCoreAt(k1, rest, p);
      forall j: nat | 1 <= j <= |es|
        ensures Run(k, es[..j]) == Run(k1, rest[..j - 1])
      {
        assert es[..j][0] == es[0] && es[..j][1..] == rest[..j - 1];
      }
      if j: nat :| j <= |rest| && OnCore(Run(k1, rest[..j]).cur, p) {
        assert OnCore(Run(k, es[..j + 1]).cur, p);
      }
      if j: nat :| j <= |es| && OnCore(Run(k, es[..j]).cur, p) {
        if j > 0 {
          assert OnCore(Run(k1, rest[..j - 1]).cur, p);
        }
      }
    }
  }

  /** Round robin: the j-th ready process has run by the time of the (j+1)-th reschedule. */
  lemma RoundRobin(k: K, es: seq<Event>, j: nat)
    requires Inv(k) && |k.q| == QUEUES && j < |k.q[READY]| && Spares(k, es, k.q[READY][j]) && Reschedules(k, es) > j
    ensures exists m: nat :: m <= |es| && OnCore(Run(k, es[..m]).cur, k.q[READY][j])
  {
    hide Inv, OnCore, Run, Spares, Reschedules, GetsCore, NoFarther;
    PlaceInLine(k, j);
    BoundedWait(k, es, k.q[READY][j], j);
    GetsCoreAt(k, es, k.q[READY][j]);
  }
}
