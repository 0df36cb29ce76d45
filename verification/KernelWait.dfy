/** Waiting for a process to end: its end, by exit or kill, wakes everybody who waits for it; but who waits
    for a process that has already ended by a kill is never woken. */
module KernelWait {
  import opened Queues
  import opened KernelState
  import opened KernelSched
  import opened KernelInv
  import opened KernelLocks
  import opened KernelEffects
  import opened KernelRuns
  import opened KernelSync

  predicate Awake(k: K, x: nat) {
    x < |k.procs| && (k.procs[x].status == Ready || k.procs[x].status == Running)
  }

  /** Rescheduling leaves an awake process awake. */
  lemma ScheduleAwake(k: K, c: nat, x: nat)
    requires Schedulable(k, c) && Awake(k, x)
    ensures Awake(Schedule(k, c), x)
  {
  }

  lemma WakeAllAwake(k: K, h: nat, x: nat)
    requires Sited(k) && h < QUEUES && h != READY && |k.q| == QUEUES && x in k.q[h]
    ensures Sound(k) && Awake(WakeAll(k, h), x)
  {
    hide Sited, WakeAll;
    SitedSound(k);
    WakeAllMoves(k, h);
  }

  /** do_exit: the waiters line up, first come first, behind the ready processes; the process is gone from every queue. */
  lemma ExitMoves(k: K, c: nat)
    requires Inv(k) && c < CORES && k.cur[c].Task? && k.cur[c].p != 0
    ensures Runs(k, c) && |k.procs| <= MAX_TASK
    ensures (var p, r := k.cur[c].p, Exit(k, c);
      r.q == k.q[WaitQ(p) := []][READY := Rest(k.q[READY] + k.q[WaitQ(p)])] &&
      |r.procs| == |k.procs| && r.procs[p].pid == 0 &&
      r.procs[p].status == (if k.procs[p].mode == AutoCleanupOnExit then Exited else Zombie))
    ensures forall x :: x in k.q[WaitQ(k.cur[c].p)] ==> Awake(Exit(k, c), x)
  {
    hide Inv, Sited, WakeAll, Schedule, Below, WithStatus;
    InvSited(k);
    var p := k.cur[c].p;
    var k0 := k.(procs := k.procs[p := k.procs[p].(pid := 0)]);
    PidZeroSited(k, p);
    WakeAllSited(k0, WaitQ(p));
    WakeAllCore(k0, WaitQ(p));
    WakeAllMoves(k0, WaitQ(p));
    var k1 := WakeAll(k0, WaitQ(p));
    var s := if k1.procs[p].mode == AutoCleanupOnExit then Exited else Zombie;
    QuitMoves(k1, c, s);
    QuitSited(k1, c, s);
    forall x | x in k.q[WaitQ(p)]
      ensures Awake(Exit(k, c), x)
    {
      WakeAllAwake(k0, WaitQ(p), x);
      NotSelf(k, c, x, WaitQ(p));
      EndedAwake(k1, p, s, x);
      ScheduleAwake(Ended(k1, p, s), c, x);
    }
  }

  lemma NotSelf(k: K, c: nat, x: nat, h: nat)
    requires Inv(k) && c < CORES && k.cur[c].Task? && h < QUEUES && |k.q| == QUEUES && x in k.q[h]
    ensures x != k.cur[c].p
  {
    InvRuns(k, c);
  }

  lemma EndedAwake(k: K, p: nat, s: Status, x: nat)
    requires p < |k.procs| && x != p && Awake(k, x)
    ensures Awake(Ended(k, p, s), x)
  {
  }

  // ---------- do_kill ----------

  /** A lock that do_kill gives up goes to its first waiter, or its count becomes 1; other queues are as before. */
  lemma ReleaseOneMoves(k: K, l: nat)
    requires Sited(k) && l < MAX_SEM
    ensures Sound(k)
    ensures (var r, w := ReleaseOne(k, l), k.q[SemQ(l)];
      if w == [] then r.q == k.q && r.sems == k.sems[l := k.sems[l].(s := 1)]
      else r.q == k.q[SemQ(l) := w[1..]][READY := k.q[READY] + [w[0]]] && r.sems == k.sems && Awake(r, w[0]))
  {
    hide Sited, Wake, Below;
    SitedSound(k);
    if k.q[SemQ(l)] != [] {
      WakeMoves(k, SemQ(l));
      assert k.q[SemQ(l)][0] in k.q[SemQ(l)];
    }
  }

  /** Giving up locks touches no wait list. */
  lemma {:induction false} ReleaseElsewhere(k: K, locks: seq<nat>, i: nat, h: nat)
    requires Sited(k) && i <= |locks| && AllBelow(locks, MAX_SEM) && TIMERS <= h < SemQ(0)
    ensures Sound(k) && ReleaseFrom(k, locks, i).q[h] == k.q[h]
    decreases |locks| - i
  {
    hide Sited, Wake, Below;
    SitedSound(k);
    if i < |locks| {
      ReleaseOneSited(k, locks[i]);
      ReleaseOneMoves(k, locks[i]);
      ReleaseElsewhere(ReleaseOne(k, locks[i]), locks, i + 1, h);
    }
  }

  /** What do_kill leaves of a process that was not running. */
  lemma ReapMoves(k: K, p: nat)
    requires Sited(k) && p < |k.procs| && |k.procs| <= MAX_TASK && k.procs[p].status != Running && AllBelow(k.procs[p].locks, MAX_SEM)
    ensures Sound(k)
    ensures (var r := Reap(k, p);
      r.procs[p].status == Exited && Nowhere(r.q, p) && r.q[WaitQ(p)] == [] &&
      (forall h: nat :: TIMERS <= h < SemQ(0) && h != WaitQ(p) ==> r.q[h] == Without(k.q[h], p)))
    ensures forall x :: x in k.q[WaitQ(p)] && x != p ==> Awake(Reap(k, p), x)
  {
    hide Sited, Placed, WakeAll, ReleaseFrom, Wake, Below, Reap, Awake;
    SitedSound(k);
    ReapDropped(k, p);
    DroppedSited(k, p);
    DroppedAt(k, p);
    ReapSited(k, p);
    ReapStatus(k, p);
    var k1, locks := Dropped(k, p), k.procs[p].locks;
    ReleaseSited(k1, locks, 0);
    ReleaseCore(k1, locks, 0);
    var k2 := ReleaseFrom(k1, locks, 0);
    WakeAllMoves(k2, WaitQ(p));
    forall h: nat | TIMERS <= h < SemQ(0)
      ensures k2.q[h] == Without(k.q[h], p)
    {
      ReleaseElsewhere(k1, locks, 0, h);
    }
    DeadNowhere(Reap(k, p), p);
    forall x | x in k.q[WaitQ(p)] && x != p
      ensures Awake(Reap(k, p), x)
    {
      WakeAllAwake(k2, WaitQ(p), x);
    }
  }

  lemma DroppedAt(k: K, p: nat)
    requires p < |k.procs|
    ensures |Dropped(k, p).q| == |k.q| && forall h: nat :: h < |k.q| ==> Dropped(k, p).q[h] == Without(k.q[h], p)
  {
  }

  lemma ReapStatus(k: K, p: nat)
    requires Sound(k) && |k.procs| <= MAX_TASK && p < |k.procs| && AllBelow(k.procs[p].locks, MAX_SEM)
    ensures Reap(k, p).procs[p].status == Exited
  {
  }

  lemma DeadNowhere(k: K, p: nat)
    requires Sited(k) && p < |k.procs| && !Live(k.procs[p].status)
    ensures Nowhere(k.q, p) && k.cur[0] != Task(p) && k.cur[1] != Task(p)
  {
    PlacedNowhere(k.procs, k.q, k.cur, p);
    assert !OnCore(k.cur, p);
  }

  /** do_kill: the victim has ended and stands nowhere, and everybody who waited for it is awake. */
  lemma KillMoves(k: K, c: nat, pid: int)
    requires Inv(k) && Fit(k) && c < CORES && k.cur[1 - c] != Task(FindPid(k.procs, pid))
    requires pid != 0 && pid != 1 && FindPid(k.procs, pid) < |k.procs|
    ensures (var p, r := FindPid(k.procs, pid), Kill(k, c, pid).0;
      |r.q| == QUEUES && |r.procs| == |k.procs| && r.procs[p].status == Exited && Nowhere(r.q, p) && r.q[WaitQ(p)] == [] &&
      (forall h: nat :: TIMERS <= h < SemQ(0) && h != WaitQ(p) ==> r.q[h] == Without(k.q[h], p)))
    ensures forall x :: x in k.q[WaitQ(FindPid(k.procs, pid))] && x != FindPid(k.procs, pid) ==> Awake(Kill(k, c, pid).0, x)
  {
    hide Inv, Sited, Reap, Wake, Schedule, WakeAll, ReleaseFrom, Same, Placed, Below, Awake;
    InvSited(k);
    var p := FindPid(k.procs, pid);
    if k.cur[c] == Task(p) {
      SelfKillMoves(k, c, p);
    } else {
      NotRunning(k, p, c);
      ReapMoves(k, p);
      ReapSited(k, p);
      SitedSound(Reap(k, p));
    }
  }

  lemma SelfKillMoves(k: K, c: nat, p: nat)
    requires Inv(k) && Fit(k) && c < CORES && k.cur[c] == Task(p) && p < |k.procs|
    ensures Sound(k) && Schedulable(Reap(k, p), c)
    ensures (var r := Schedule(Reap(k, p), c);
      |r.q| == QUEUES && |r.procs| == |k.procs| && r.procs[p].status == Exited && Nowhere(r.q, p) && r.q[WaitQ(p)] == [] &&
      (forall h: nat :: TIMERS <= h < SemQ(0) && h != WaitQ(p) ==> r.q[h] == Without(k.q[h], p)))
    ensures forall x :: x in k.q[WaitQ(p)] && x != p ==> Awake(Schedule(Reap(k, p), c), x)
  {
    hide Inv, Sited, Reap, Wake, Schedule, WakeAll, ReleaseFrom, Placed, Below, Awake;
    InvSited(k);
    SelfReap(k, c);
    var locks := k.procs[p].locks;
    ReleaseSited(k, locks, 0);
    ReleaseCore(k, locks, 0);
    var k2 := ReleaseFrom(k, locks, 0);
    WakeAllMoves(k2, WaitQ(p));
    var k3 := WakeAll(k2, WaitQ(p));
    QuitMoves(k3, c, Exited);
    QuitSited(k3, c, Exited);
    forall h: nat | TIMERS <= h < SemQ(0)
      ensures k2.q[h] == Without(k.q[h], p)
    {
      ReleaseElsewhere(k, locks, 0, h);
      RunnerNowhere(k, c, p, h);
    }
    DeadNowhere(Schedule(Reap(k, p), c), p);
    forall x | x in k.q[WaitQ(p)] && x != p
      ensures Awake(Schedule(Reap(k, p), c), x)
    {
      WakeAllAwake(k2, WaitQ(p), x);
      EndedAwake(k3, p, Exited, x);
      ScheduleAwake(Ended(k3, p, Exited), c, x);
    }
  }

  lemma RunnerNowhere(k: K, c: nat, p: nat, h: nat)
    requires Inv(k) && c < CORES && k.cur[c] == Task(p) && h < QUEUES && |k.q| == QUEUES
    ensures Without(k.q[h], p) == k.q[h]
  {
    InvRuns(k, c);
    WithoutNone(k.q[h], p);
  }

  // ---------- Waiting for the dead ----------

  predicate Dead(k: K, p: nat) {
    p < |k.procs| && !Live(k.procs[p].status)
  }

  /** What an operation does to who is alive: exactly the processes of d end. */
  ghost predicate Lives(procs: seq<Proc>, procs1: seq<Proc>, d: set<nat>) {
    |procs| <= |procs1| && forall p: nat :: p < |procs| ==> (Live(procs1[p].status) <==> Live(procs[p].status) && p !in d)
  }

  lemma AlikeLives(procs: seq<Proc>, procs0: seq<Proc>, procs1: seq<Proc>, d: set<nat>)
    requires |procs0| == |procs| && Alike(procs0, procs1, d)
    requires forall p: nat :: p < |procs| ==> procs0[p].status == procs[p].status
    ensures Lives(procs, procs1, d)
  {
  }

  /** The process that an event ends, if it ends one. */
  function Ends(k: K, e: Event): set<nat> {
    match e
    case DoExit(c) => if c < |k.cur| && k.cur[c].Task? then {k.cur[c].p} else {}
    case DoKill(c, pid) => if pid != 0 && pid != 1 && FindPid(k.procs, pid) < |k.procs| then {FindPid(k.procs, pid)} else {}
    case _ => {}
  }

  lemma ExitLives(k: K, c: nat)
    requires Inv(k) && c < CORES && k.cur[c].Task? && k.cur[c].p != 0
    ensures Runs(k, c) && |k.procs| <= MAX_TASK && Lives(k.procs, Exit(k, c).procs, {k.cur[c].p})
  {
    hide Inv, Sited, WakeAll, Schedule, Below, Same;
    InvSited(k);
    var p := k.cur[c].p;
    var k0 := k.(procs := k.procs[p := k.procs[p].(pid := 0)]);
    PidZeroSited(k, p);
    WakeAllSited(k0, WaitQ(p));
    WakeAllCore(k0, WaitQ(p));
    var k1 := WakeAll(k0, WaitQ(p));
    QuitSited(k1, c, if k1.procs[p].mode == AutoCleanupOnExit then Exited else Zombie);
    AlikeTrans(k0.procs, k1.procs, Exit(k, c).procs, {}, {p});
    AlikeLives(k.procs, k0.procs, Exit(k, c).procs, {} + {p});
  }

  lemma KillLives(k: K, c: nat, pid: int)
    requires Inv(k) && Fit(k) && c < CORES && k.cur[1 - c] != Task(FindPid(k.procs, pid))
    ensures Lives(k.procs, Kill(k, c, pid).0.procs, Ends(k, DoKill(c, pid)))
  {
    hide Inv, Sited, Reap, Wake, Schedule, WakeAll, ReleaseFrom, Placed, Below, Same;
    InvSited(k);
    var p := FindPid(k.procs, pid);
    if pid != 0 && pid != 1 && p < |k.procs| {
      if k.cur[c] == Task(p) {
        SelfReap(k, c);
        var k1 := WakeAll(ReleaseFrom(k, k.procs[p].locks, 0), WaitQ(p));
        QuitSited(k1, c, Exited);
        AlikeTrans(k.procs, k1.procs, Kill(k, c, pid).0.procs, {}, {p});
      } else {
        NotRunning(k, p, c);
        ReapSited(k, p);
      }
    }
  }

  lemma SchedLives(k: K, e: Event)
    requires Inv(k) && Fit(k) && Enabled(k, e) && OfSched(e)
    ensures Lives(k.procs, DoSched(k, e).procs, Ends(k, e))
  {
    hide Inv, Sited, Schedule, CheckFrom, Exit, Kill, BlockOn, Below, Placed, Lives, Same;
    InvSited(k);
    SitedMade(k);
    match e
    case Reschedule(c) =>
      if k.cur[c].Task? {
        LivePid(k, c);
      }
      ScheduleSited(k, c);
      AlikeLives(k.procs, k.procs, Schedule(k, c).procs, {});
    case ClockCheck(now) =>
      CheckSited(k, 0, now);
      AlikeLives(k.procs, k.procs, TimerCheck(k, now).procs, {});
    case DoSleep(c, t, base, now) =>
      var x := k.cur[c].p;
      var procs1 := k.procs[x := k.procs[x].(wake := U64(now + U64(t * base)))];
      FieldsKeep(k, procs1);
      var k1 := k.(procs := procs1);
      InvSited(k1);
      BlockOnSited(k1, c, TIMERS);
      AlikeLives(k.procs, procs1, BlockOn(k1, c, TIMERS).procs, {});
    case DoWaitPid(c, pid) =>
      ShellPid(k);
      if pid != 0 && pid != 1 && FindPid(k.procs, pid) < |k.procs| {
        BlockOnSited(k, c, WaitQ(FindPid(k.procs, pid)));
        AlikeLives(k.procs, k.procs, BlockOn(k, c, WaitQ(FindPid(k.procs, pid))).procs, {});
      } else {
        SelfLives(k.procs);
      }
    case DoExit(c) => ExitLives(k, c);
    case DoKill(c, pid) => KillLives(k, c, pid);
    case DoExec(mode) => MoreLives(k.procs, Proc(k.nextPid, Ready, mode, 0, [], NoCall));
  }

  lemma SelfLives(procs: seq<Proc>)
    ensures Lives(procs, procs, {})
  {
  }

  lemma MoreLives(procs: seq<Proc>, x: Proc)
    ensures Lives(procs, procs + [x], {})
  {
  }

  lemma UpLives(k: K, i: nat)
    requires Inv(k) && i < MAX_SEM
    ensures Sound(k) && Lives(k.procs, SemUp(k, i).procs, {})
  {
    hide Inv, Sited, Wake, Below;
    InvSited(k);
    if k.q[SemQ(i)] != [] {
      WakeSited(k, SemQ(i));
    }
  }

  lemma DownLives(k: K, c: nat, i: nat)
    requires Inv(k) && c < CORES && k.cur[c].Task? && i < MAX_SEM && SemQ(i) in k.made
    ensures Runs(k, c) && Lives(k.procs, SemDown(k, c, i).procs, {})
  {
    hide Inv, Sited, BlockOn, Below;
    InvSited(k);
    if k.sems[i].s <= 0 {
      BlockOnSited(k, c, SemQ(i));
    }
  }

  /** Blocking or waking in a state that differs from k in no status. */
  lemma BlockLives(k: K, k1: K, c: nat, h: nat)
    requires Inv(k1) && |k1.procs| == |k.procs| && (forall p: nat :: p < |k.procs| ==> k1.procs[p].status == k.procs[p].status)
    requires c < CORES && k1.cur[c].Task? && h < QUEUES && h != READY && h in k1.made
    ensures Runs(k1, c) && Lives(k.procs, BlockOn(k1, c, h).procs, {})
  {
    hide Inv, Sited, BlockOn, Lives, Same;
    InvSited(k1);
    BlockOnSited(k1, c, h);
    AlikeLives(k.procs, k1.procs, BlockOn(k1, c, h).procs, {});
  }

  lemma WakeAllLives(k: K, k1: K, h: nat)
    requires Inv(k1) && |k1.procs| == |k.procs| && (forall p: nat :: p < |k.procs| ==> k1.procs[p].status == k.procs[p].status)
    requires h < QUEUES && h != READY
    ensures Sound(k1) && Lives(k.procs, WakeAll(k1, h).procs, {})
  {
    hide Inv, Sited, WakeAll, Lives, Same;
    InvSited(k1);
    WakeAllSited(k1, h);
    AlikeLives(k.procs, k1.procs, WakeAll(k1, h).procs, {});
  }

  lemma BarrierLives(k: K, c: nat, i: nat)
    requires Inv(k) && Fit(k) && Enabled(k, DoBarrierWait(c, i))
    ensures Lives(k.procs, BarrierWait(k, c, i).procs, {})
  {
    hide Inv, WakeAll, BlockOn, Below, Lives;
    var s := if k.sems[i].s > 1 then k.sems[i].s - 1 else k.sems[i].s + |k.q[SemQ(i)]|;
    SemsKeep(k, k.sems[i := k.sems[i].(s := s)], k.boxes);
    var k1 := WithSem(k, i, s);
    if k.sems[i].s > 1 {
      BlockLives(k, k1, c, SemQ(i));
    } else {
      WakeAllLives(k, k1, SemQ(i));
    }
  }

  lemma SendLives(k: K, c: nat, m: nat, msg: seq<byte>)
    requires Inv(k) && Fit(k) && Enabled(k, DoSend(c, m, msg))
    ensures Lives(k.procs, Send(k, c, m, msg).procs, {})
  {
    hide Inv, Send, WakeAll, BlockOn, Below, Lives;
    SendMoves(k, c, m, msg);
    var k1 := SendMid(k, c, m, msg);
    if |k.boxes[m].buf| + |msg| > MBOX_SIZE {
      BlockLives(k, k1, c, FullQ(m));
    } else {
      WakeAllLives(k, k1, EmptyQ(m));
    }
  }

  lemma RecvLives(k: K, c: nat, m: nat, want: nat)
    requires Inv(k) && Fit(k) && Enabled(k, DoRecv(c, m, want))
    ensures Lives(k.procs, Recv(k, c, m, want).procs, {})
  {
    hide Inv, Recv, WakeAll, BlockOn, Below, Lives;
    RecvMoves(k, c, m, want);
    var k1 := RecvMid(k, c, m, want);
    if |k.boxes[m].buf| < want {
      BlockLives(k, k1, c, EmptyQ(m));
    } else {
      WakeAllLives(k, k1, FullQ(m));
    }
  }

  lemma SyncLives(k: K, e: Event)
    requires Inv(k) && Fit(k) && Enabled(k, e) && !OfSched(e)
    ensures Lives(k.procs, DoSync(k, e).procs, {})
  {
    hide Inv, SemDown, SemUp, BarrierWait, WakeAll, Send, Recv, Below, Placed;
    match e
    case DoSemInit(i, val) =>
    case DoSemUp(i) => UpLives(k, i);
    case DoSemDown(c, i) => DownLives(k, c, i);
    case DoAcquire(c, i) =>
      AcquireMoves(k, c, i);
      DownLives(WithLocks(k, c, k.procs[k.cur[c].p].locks + [i]), c, i);
    case DoRelease(c, i) => UpLives(k, i);
    case DoSemDestroy(i) => WakeAllLives(k, k, SemQ(i));
    case DoBarrierInit(i, count) =>
    case DoBarrierWait(c, i) => BarrierLives(k, c, i);
    case DoBoxOpen(m) =>
    case DoSend(c, m, msg) => SendLives(k, c, m, msg);
    case DoRecv(c, m, want) => RecvLives(k, c, m, want);
  }

  /** x stands on the wait list of p. */
  predicate Waits(k: K, x: nat, p: nat) {
    p < |k.procs| && p < MAX_TASK && |k.q| == QUEUES && x in k.q[WaitQ(p)]
  }

  /** x waits in vain: for a process that has ended already. */
  predicate WaitsForDead(k: K, x: nat, p: nat) {
    Waits(k, x, p) && Dead(k, p)
  }

  /** Nobody kills x, nor p once more when it has ended. */
  predicate Spares(k: K, e: Event, x: nat, p: nat) {
    x !in Ends(k, e) && (Dead(k, p) ==> p !in Ends(k, e))
  }

  /** Whoever waits for p stays on its list as long as p does not end. */
  lemma WaitListStep(k: K, e: Event, x: nat, p: nat)
    requires Inv(k) && Fit(k) && Enabled(k, e) && Waits(k, x, p) && x !in Ends(k, e) && p !in Ends(k, e)
    ensures Inv(Apply(k, e)) && |Apply(k, e).q| == QUEUES && x in Apply(k, e).q[WaitQ(p)]
  {
    hide Inv, Fit, DoSync, Exit, Kill, WaitPid, Sleep, TimerCheck, Schedule;
    ApplyKeeps(k, e);
    QueuesNoDup(Apply(k, e));
    if e.DoKill? {
      KillSpares(k, e.c, e.pid, x, p);
    } else if OfSched(e) {
      if e.DoWaitPid? {
        WaitAppends(k, e.c, e.pid, x, WaitQ(p));
      } else {
        NotTouched(k, e, p);
        SchedElsewhere(k, e, WaitQ(p));
      }
    } else {
      SyncElsewhere(k, e, WaitQ(p));
    }
  }

  lemma NotTouched(k: K, e: Event, p: nat)
    requires Fit(k) && Enabled(k, e) && OfSched(e) && !e.DoKill? && !e.DoWaitPid? && p !in Ends(k, e) && p < MAX_TASK
    ensures !Touches(k, e, WaitQ(p))
  {
  }

  lemma KillSpares(k: K, c: nat, pid: int, x: nat, p: nat)
    requires Inv(k) && Fit(k) && Enabled(k, DoKill(c, pid)) && p < MAX_TASK && |k.q| == QUEUES && x in k.q[WaitQ(p)]
    requires x !in Ends(k, DoKill(c, pid)) && p !in Ends(k, DoKill(c, pid))
    ensures |Kill(k, c, pid).0.q| == QUEUES && x in Kill(k, c, pid).0.q[WaitQ(p)]
  {
    hide Inv, Fit, FindPid, Reap, Schedule;
    InvFit(k);
    FitSound(k);
    FindRange(k.procs, pid);
    if pid != 0 && pid != 1 && FindPid(k.procs, pid) < |k.procs| {
      KillMoves(k, c, pid);
    }
  }

  lemma WaitAppends(k: K, c: nat, pid: int, x: nat, h: nat)
    requires Inv(k) && Fit(k) && Enabled(k, DoWaitPid(c, pid)) && TIMERS < h < SemQ(0) && |k.q| == QUEUES && x in k.q[h]
    ensures |WaitPid(k, c, pid).0.q| == QUEUES && x in WaitPid(k, c, pid).0.q[h]
  {
    hide Inv, FindPid, BlockOn, Below, Sited;
    InvSited(k);
    ShellPid(k);
    SitedMade(k);
    var i := FindPid(k.procs, pid);
    FindRange(k.procs, pid);
    if pid != 0 && pid != 1 && i < |k.procs| {
      BlockOnMoves(k, c, WaitQ(i));
    }
  }

  lemma FindRange(procs: seq<Proc>, pid: int)
    ensures FindPid(procs, pid) <= |procs|
    ensures FindPid(procs, pid) < |procs| ==> procs[FindPid(procs, pid)].pid == pid
  {
  }

  /** Semaphores and mailboxes touch no wait list. */
  lemma SyncElsewhere(k: K, e: Event, h: nat)
    requires Inv(k) && Fit(k) && Enabled(k, e) && !OfSched(e) && TIMERS <= h < SemQ(0) && |k.q| == QUEUES
    ensures |DoSync(k, e).q| == QUEUES && DoSync(k, e).q[h] == k.q[h]
  {
    hide Inv, Fit, Sound, SemDown, SemUp, Acquire, Release, BarrierWait, BoxOpen, Send, Recv, SemDestroy, Below, Placed;
    FitSound(k);
    if OfSem(e) {
      SemElsewhere(k, e, h);
    } else {
      match e
      case DoSemInit(j, val) =>
      case DoSemDestroy(j) => DestroyMoves(k, j);
      case DoBarrierInit(j, count) =>
      case DoBarrierWait(c, j) => BarrierMoves(k, c, j);
      case DoBoxOpen(m) => OpenElsewhere(k, m, h);
      case DoSend(c, m, msg) => SendElsewhere(k, c, m, msg, h);
      case DoRecv(c, m, want) => RecvElsewhere(k, c, m, want, h);
    }
  }

  lemma OpenElsewhere(k: K, m: nat, h: nat)
    requires Sound(k) && m < MAX_MBOX && h < QUEUES
    ensures |BoxOpen(k, m).q| == QUEUES && BoxOpen(k, m).q[h] == k.q[h]
  {
  }

  lemma SendElsewhere(k: K, c: nat, m: nat, msg: seq<byte>, h: nat)
    requires Inv(k) && Fit(k) && Enabled(k, DoSend(c, m, msg)) && TIMERS <= h < SemQ(0) && |k.q| == QUEUES
    ensures |Send(k, c, m, msg).q| == QUEUES && Send(k, c, m, msg).q[h] == k.q[h]
  {
    hide Inv, Fit, Send, Below;
    SendMoves(k, c, m, msg);
  }

  lemma RecvElsewhere(k: K, c: nat, m: nat, want: nat, h: nat)
    requires Inv(k) && Fit(k) && Enabled(k, DoRecv(c, m, want)) && TIMERS <= h < SemQ(0) && |k.q| == QUEUES
    ensures |Recv(k, c, m, want).q| == QUEUES && Recv(k, c, m, want).q[h] == k.q[h]
  {
    hide Inv, Fit, Recv, Below;
    RecvMoves(k, c, m, want);
  }

  lemma SemElsewhere(k: K, e: Event, h: nat)
    requires Inv(k) && Fit(k) && Enabled(k, e) && OfSem(e) && TIMERS <= h < SemQ(0) && |k.q| == QUEUES
    ensures |DoSync(k, e).q| == QUEUES && DoSync(k, e).q[h] == k.q[h]
  {
    hide Inv, SemDown, SemUp, Acquire, Below, Placed;
    match e
    case DoSemUp(j) => UpMoves(k, j);
    case DoSemDown(c, j) => DownMoves(k, c, j);
    case DoAcquire(c, j) =>
      AcquireMoves(k, c, j);
      DownMoves(WithLocks(k, c, k.procs[k.cur[c].p].locks + [j]), c, j);
    case DoRelease(c, j) => UpMoves(k, j);
  }

  /** One event, for a process x that waits for p: if p ends, x is awake; otherwise x still waits. */
  lemma WaitsStep(k: K, e: Event, x: nat, p: nat)
    requires Inv(k) && Waits(k, x, p) && Spares(k, e, x, p)
    ensures Inv(Apply(k, e)) && p < |Apply(k, e).procs| && |Apply(k, e).q| == QUEUES
    ensures Enabled(k, e) && p in Ends(k, e) ==>
      Dead(Apply(k, e), p) && x !in Apply(k, e).q[WaitQ(p)] && Awake(Apply(k, e), x)
    ensures !(Enabled(k, e) && p in Ends(k, e)) ==> Waits(Apply(k, e), x, p) && (Dead(Apply(k, e), p) <==> Dead(k, p))
  {
    hide Inv, Fit, DoSched, DoSync, Awake;
    InvFit(k);
    if Enabled(k, e) {
      if OfSched(e) {
        SchedLives(k, e);
      } else {
        SyncLives(k, e);
      }
      if p in Ends(k, e) {
        EndWakes(k, e, x, p);
      } else {
        WaitListStep(k, e, x, p);
      }
    }
  }

  lemma EndWakes(k: K, e: Event, x: nat, p: nat)
    requires Inv(k) && Fit(k) && Enabled(k, e) && Waits(k, x, p) && x !in Ends(k, e) && p in Ends(k, e)
    ensures Inv(Apply(k, e)) && |Apply(k, e).q| == QUEUES && x !in Apply(k, e).q[WaitQ(p)] && Awake(Apply(k, e), x)
  {
    hide Inv, Fit, Exit, Kill, Awake, FindPid;
    InvSited(k);
    ApplyKeeps(k, e);
    QueuesNoDup(Apply(k, e));
    if e.DoExit? {
      ExitMoves(k, e.c);
    } else {
      KillMoves(k, e.c, e.pid);
    }
  }

  /** The run spares x and does not kill p twice, as long as x waits. */
  ghost predicate SparesAll(k: K, es: seq<Event>, x: nat, p: nat)
    requires Inv(k)
    decreases |es|
  {
    es == [] || !Waits(k, x, p) || (Spares(k, es[0], x, p) && (ApplyKeeps(k, es[0]); SparesAll(Apply(k, es[0]), es[1..], x, p)))
  }

  /** At some point of the run x is off the wait list of p. */
  ghost predicate Leaves(k: K, es: seq<Event>, x: nat, p: nat)
    requires Inv(k)
    decreases |es|
  {
    !Waits(k, x, p) || (es != [] && (ApplyKeeps(k, es[0]); Leaves(Apply(k, es[0]), es[1..], x, p)))
  }

  lemma LivesStep(k: K, e: Event)
    requires Inv(k)
    ensures Inv(Apply(k, e)) && Lives(k.procs, Apply(k, e).procs, if Enabled(k, e) then Ends(k, e) else {})
  {
    hide Inv, Fit, DoSched, DoSync;
    ApplyKeeps(k, e);
    InvFit(k);
    if Enabled(k, e) {
      if OfSched(e) {
        SchedLives(k, e);
      } else {
        SyncLives(k, e);
      }
    }
  }

  lemma {:induction false} DeadStays(k: K, es: seq<Event>, p: nat)
    requires Inv(k) && Dead(k, p)
    ensures Dead(Run(k, es), p)
    decreases |es|
  {
    hide Inv, Apply, Enabled, Ends;
    if es != [] {
      LivesStep(k, es[0]);
      DeadStays(Apply(k, es[0]), es[1..], p);
    }
  }

  /** Over any run, a process that waits for p is let go if and only if p was alive at first and has ended since. */
  lemma {:induction false} WaitEnds(k: K, es: seq<Event>, x: nat, p: nat)
    requires Inv(k) && Waits(k, x, p) && SparesAll(k, es, x, p)
    ensures Leaves(k, es, x, p) <==> !Dead(k, p) && Dead(Run(k, es), p)
    decreases |es|
  {
    hide Inv, Apply, Enabled, Spares, Ends, Awake, Dead;
    if es != [] {
      var k1 := Apply(k, es[0]);
      WaitsStep(k, es[0], x, p);
      EndsAlive(k, es[0], x, p);
      if Enabled(k, es[0]) && p in Ends(k, es[0]) {
        DeadStays(k1, es[1..], p);
      } else {
        WaitEnds(k1, es[1..], x, p);
      }
    }
  }

  lemma EndsAlive(k: K, e: Event, x: nat, p: nat)
    requires Spares(k, e, x, p)
    ensures p in Ends(k, e) ==> !Dead(k, p)
  {
  }

  /** Whoever waits for a process that has already ended waits for ever, short of being killed itself or of
      the dead process being killed once more. */
  lemma {:induction false} NeverWoken(k: K, es: seq<Event>, x: nat, p: nat)
    requires Inv(k) && WaitsForDead(k, x, p) && SparesAll(k, es, x, p)
    ensures WaitsForDead(Run(k, es), x, p)
    decreases |es|
  {
    hide Inv, Apply, Waits, Spares, Dead, Ends, Enabled;
    if es != [] {
      WaitsStep(k, es[0], x, p);
      EndsAlive(k, es[0], x, p);
      NeverWoken(Apply(k, es[0]), es[1..], x, p);
    }
  }

  /** do_waitpid does not look at the status of the process it finds: the caller joins its wait list, alive or not. */
  lemma WaitPidWaits(k: K, c: nat, pid: int)
    requires Inv(k) && Enabled(k, DoWaitPid(c, pid)) && pid != 0 && pid != 1 && FindPid(k.procs, pid) < |k.procs|
    ensures Inv(Apply(k, DoWaitPid(c, pid)))
    ensures Waits(Apply(k, DoWaitPid(c, pid)), k.cur[c].p, FindPid(k.procs, pid))
    ensures Dead(Apply(k, DoWaitPid(c, pid)), FindPid(k.procs, pid)) <==> Dead(k, FindPid(k.procs, pid))
  {
    hide Inv, Fit, BlockOn, Below, Sited, FindPid;
    ApplyKeeps(k, DoWaitPid(c, pid));
    InvFit(k);
    InvSited(k);
    ShellPid(k);
    SitedMade(k);
    var p := FindPid(k.procs, pid);
    FindRange(k.procs, pid);
    BlockOnMoves(k, c, WaitQ(p));
    SchedLives(k, DoWaitPid(c, pid));
    BlockOnSited(k, c, WaitQ(p));
  }

  /** do_waitpid keeps its promise exactly for processes that are alive: over every run that spares the caller,
      the caller is let go if and only if the process was alive at the call and has ended since. */
  lemma WaitPidReturns(k: K, c: nat, pid: int, es: seq<Event>)
    requires Inv(k) && Enabled(k, DoWaitPid(c, pid)) && pid != 0 && pid != 1 && FindPid(k.procs, pid) < |k.procs|
    requires Inv(Apply(k, DoWaitPid(c, pid))) && SparesAll(Apply(k, DoWaitPid(c, pid)), es, k.cur[c].p, FindPid(k.procs, pid))
    ensures (var k1, x, p := Apply(k, DoWaitPid(c, pid)), k.cur[c].p, FindPid(k.procs, pid);
      Leaves(k1, es, x, p) <==> !Dead(k, p) && Dead(Run(k1, es), p))
  {
    hide Inv, Apply, FindPid, Waits, Dead, SparesAll, Leaves, Run;
    WaitPidWaits(k, c, pid);
    WaitEnds(Apply(k, DoWaitPid(c, pid)), es, k.cur[c].p, FindPid(k.procs, pid));
  }

  /** The dead can be waited for: from boot, the shell makes a process, kills it, and waits for it. */
  lemma WaitInVain(mode: Mode)
    ensures Inv(Boot())
    ensures WaitsForDead(Run(Boot(), [DoExec(mode), DoKill(0, 2), DoWaitPid(0, 2)]), 0, 1)
  {
    hide Inv, Apply, WaitsForDead, Run, Boot;
    BootInv();
    var k1 := MadeOne(mode);
    var k2 := KilledIt(k1);
    WaitPidWaits(k2, 0, 2);
    InVain(k2, Apply(k2, DoWaitPid(0, 2)));
    RunStep(Boot(), [DoExec(mode), DoKill(0, 2), DoWaitPid(0, 2)]);
    RunStep(k1, [DoKill(0, 2), DoWaitPid(0, 2)]);
    RunStep(k2, [DoWaitPid(0, 2)]);
    ApplyKeeps(k2, DoWaitPid(0, 2));
    RunNone(Apply(k2, DoWaitPid(0, 2)));
    assert [DoExec(mode), DoKill(0, 2), DoWaitPid(0, 2)][1..] == [DoKill(0, 2), DoWaitPid(0, 2)];
    assert [DoKill(0, 2), DoWaitPid(0, 2)][1..] == [DoWaitPid(0, 2)] && [DoWaitPid(0, 2)][1..] == [];
  }

  lemma RunStep(k: K, es: seq<Event>)
    requires Inv(k) && es != []
    ensures Inv(Apply(k, es[0])) && Run(k, es) == Run(Apply(k, es[0]), es[1..])
  {
    hide Inv, Apply;
    ApplyKeeps(k, es[0]);
  }

  lemma RunNone(k: K)
    requires Inv(k)
    ensures Run(k, []) == k
  {
  }

  lemma InVain(k2: K, k3: K)
    requires Dead(k2, 1) && Waits(k3, 0, 1) && (Dead(k3, 1) <==> Dead(k2, 1))
    ensures WaitsForDead(k3, 0, 1)
  {
  }

  lemma MadeOne(mode: Mode) returns (k: K)
    requires Inv(Boot())
    ensures k == Apply(Boot(), DoExec(mode)) && Inv(k)
    ensures k.procs == [Proc(1, Running, AutoCleanupOnExit, 0, [], NoCall), Proc(2, Ready, mode, 0, [], NoCall)] && k.cur == [Task(0), Idle]
  {
    hide Inv;
    k := Apply(Boot(), DoExec(mode));
    ApplyKeeps(Boot(), DoExec(mode));
  }

  lemma KilledIt(k1: K) returns (k: K)
    requires Inv(k1) && k1.cur == [Task(0), Idle] && |k1.procs| == 2
    requires k1.procs[0].pid == 1 && k1.procs[0].call == NoCall && k1.procs[1].pid == 2 && k1.procs[1].status == Ready
    ensures k == Apply(k1, DoKill(0, 2)) && Inv(k) && Enabled(k, DoWaitPid(0, 2)) && k.cur[0] == Task(0)
    ensures FindPid(k.procs, 2) == 1 < |k.procs| && Dead(k, 1)
  {
    hide Inv, Reap, Fit, Same, Sited, Kill;
    k := Apply(k1, DoKill(0, 2));
    ApplyKeeps(k1, DoKill(0, 2));
    InvFit(k1);
    InvSited(k1);
    assert FindPid(k1.procs, 2) == 1;
    ReapSited(k1, 1);
    KillIs(k1);
    SchedLives(k1, DoKill(0, 2));
  }

  lemma KillIs(k: K)
    requires Fit(k) && k.cur == [Task(0), Idle] && |k.procs| == 2 && FindPid(k.procs, 2) == 1
    ensures Kill(k, 0, 2).0 == Reap(k, 1)
  {
    hide Reap;
  }
}
