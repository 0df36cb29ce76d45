/** What an event changes in a process besides its status, and how long a sleeper sleeps. */
module KernelSleep {
  import opened Queues
  import opened KernelState
  import opened KernelSched
  import opened KernelInv
  import opened KernelLocks
  import opened KernelEffects
  import opened KernelRuns
  import opened KernelSync
  import opened KernelWait

  // ---------- Who changes ----------

  /** The process whose own call an event is, when the call changes more of it than its status. */
  function Actor(k: K, e: Event): set<nat>
    requires Enabled(k, e)
  {
    match e
    case DoSleep(c, _, _, _) => {k.cur[c].p}
    case DoExit(c) => {k.cur[c].p}
    case DoAcquire(c, _) => {k.cur[c].p}
    case DoRelease(c, _) => {k.cur[c].p}
    case DoSend(c, _, _) => {k.cur[c].p}
    case DoRecv(c, _, _) => {k.cur[c].p}
    case _ => {}
  }

  /** Nobody's mode changes, and of processes outside a nothing but the status. */
  ghost predicate OnlyOf(procs: seq<Proc>, procs1: seq<Proc>, a: set<nat>) {
    && |procs| <= |procs1| && (forall p: nat :: p < |procs| ==> procs1[p].mode == procs[p].mode)
    && (forall p: nat :: p < |procs| && p !in a ==> procs1[p] == procs[p].(status := procs1[p].status))
  }

  lemma OnlyStatuses(procs: seq<Proc>, procs0: seq<Proc>, procs1: seq<Proc>, a: set<nat>)
    requires |procs0| == |procs| && OnlyOf(procs, procs0, a) && SameIds(procs0, procs1)
    ensures OnlyOf(procs, procs1, a)
  {
  }

  lemma ExitOnly(k: K, c: nat)
    requires Inv(k) && c < CORES && k.cur[c].Task? && k.cur[c].p != 0
    ensures Runs(k, c) && |k.procs| <= MAX_TASK && OnlyOf(k.procs, Exit(k, c).procs, {k.cur[c].p})
  {
    hide Inv, Sited, WakeAll, Schedule, Below, Same, Alike;
    InvSited(k);
    var p := k.cur[c].p;
    var k0 := k.(procs := k.procs[p := k.procs[p].(pid := 0)]);
    PidZeroSited(k, p);
    WakeAllSited(k0, WaitQ(p));
    WakeAllCore(k0, WaitQ(p));
    var k1 := WakeAll(k0, WaitQ(p));
    OnlyStatuses(k.procs, k0.procs, k1.procs, {p});
    QuitSited(k1, c, if k1.procs[p].mode == AutoCleanupOnExit then Exited else Zombie);
    SameMeans(k1.procs, Exit(k, c).procs);
    OnlyStatuses(k.procs, k1.procs, Exit(k, c).procs, {p});
  }

  lemma SameMeans(procs: seq<Proc>, procs1: seq<Proc>)
    requires Same(procs, procs1)
    ensures SameIds(procs, procs1)
  {
  }

  lemma KillOnly(k: K, c: nat, pid: int)
    requires Inv(k) && Fit(k) && c < CORES && k.cur[1 - c] != Task(FindPid(k.procs, pid))
    ensures OnlyOf(k.procs, Kill(k, c, pid).0.procs, {})
  {
    hide Inv, Sited, Reap, Wake, Schedule, WakeAll, ReleaseFrom, Placed, Below, Alike, Same;
    InvSited(k);
    var p := FindPid(k.procs, pid);
    if pid != 0 && pid != 1 && p < |k.procs| {
      if k.cur[c] == Task(p) {
        SelfReap(k, c);
        var k1 := WakeAll(ReleaseFrom(k, k.procs[p].locks, 0), WaitQ(p));
        QuitSited(k1, c, Exited);
        SameTrans(k.procs, k1.procs, Kill(k, c, pid).0.procs);
      } else {
        NotRunning(k, p, c);
        ReapSited(k, p);
      }
      SameMeans(k.procs, Kill(k, c, pid).0.procs);
    }
    OnlyStatuses(k.procs, k.procs, Kill(k, c, pid).0.procs, {});
  }

  lemma SchedOnly(k: K, e: Event)
    requires Inv(k) && Fit(k) && Enabled(k, e) && OfSched(e)
    ensures OnlyOf(k.procs, DoSched(k, e).procs, Actor(k, e))
  {
    hide Inv, Sited, Schedule, CheckFrom, Exit, Kill, BlockOn, Below, Placed, OnlyOf, Alike;
    InvSited(k);
    SitedMade(k);
    OnlySelf(k.procs);
    match e
    case Reschedule(c) =>
      if k.cur[c].Task? {
        LivePid(k, c);
      }
      ScheduleSited(k, c);
      OnlyStatuses(k.procs, k.procs, Schedule(k, c).procs, {});
    case ClockCheck(now) =>
      CheckSited(k, 0, now);
      OnlyStatuses(k.procs, k.procs, TimerCheck(k, now).procs, {});
    case DoSleep(c, t, base, now) =>
      SleepMoves(k, c, t, base, now);
    case DoWaitPid(c, pid) =>
      ShellPid(k);
      if pid != 0 && pid != 1 && FindPid(k.procs, pid) < |k.procs| {
        BlockOnSited(k, c, WaitQ(FindPid(k.procs, pid)));
        OnlyStatuses(k.procs, k.procs, BlockOn(k, c, WaitQ(FindPid(k.procs, pid))).procs, {});
      }
    case DoExit(c) => ExitOnly(k, c);
    case DoKill(c, pid) => KillOnly(k, c, pid);
    case DoExec(mode) => OnlyMore(k.procs, Proc(k.nextPid, Ready, mode, 0, [], NoCall));
  }

  lemma OnlySelf(procs: seq<Proc>)
    ensures OnlyOf(procs, procs, {})
  {
  }

  lemma OnlyMore(procs: seq<Proc>, x: Proc)
    ensures OnlyOf(procs, procs + [x], {})
  {
  }

  lemma OnlyOne(procs: seq<Proc>, p: nat, x: Proc)
    requires p < |procs| && x.mode == procs[p].mode
    ensures OnlyOf(procs, procs[p := x], {p})
  {
  }

  /** do_sleep: the caller lines up last among the sleepers, with its time. */
  lemma SleepMoves(k: K, c: nat, t: nat, base: nat, now: nat)
    requires Inv(k) && Fit(k) && Enabled(k, DoSleep(c, t, base, now))
    ensures Runs(k, c) && TIMERS in k.made
    ensures var x, r := k.cur[c].p, Sleep(k, c, t, base, now);
      |r.procs| == |k.procs| && OnlyOf(k.procs, r.procs, {x}) && |r.q| == QUEUES && r.q[TIMERS] == k.q[TIMERS] + [x] &&
      r.procs[x].wake == (now + t * base) % 0x1_0000_0000_0000_0000
  {
    hide Inv, Sited, BlockOn, Below, OnlyOf, Same, Alike;
    var x := k.cur[c].p;
    InvRuns(k, c);
    var procs1 := k.procs[x := k.procs[x].(wake := U64(now + U64(t * base)))];
    FieldsKeep(k, procs1);
    var k1 := k.(procs := procs1);
    InvSited(k1);
    ReadyMade(k1);
    BlockOnSited(k1, c, TIMERS);
    BlockOnMoves(k1, c, TIMERS);
    SameMeans(procs1, BlockOn(k1, c, TIMERS).procs);
    OnlyOne(k.procs, x, procs1[x]);
    OnlyStatuses(k.procs, procs1, BlockOn(k1, c, TIMERS).procs, {x});
    U64Sum(now, t * base);
  }

  lemma U64Sum(a: int, b: int)
    ensures U64(a + U64(b)) == (a + b) % 0x1_0000_0000_0000_0000
  {
  }

  lemma BlockOnly(k: K, k1: K, c: nat, h: nat, a: set<nat>)
    requires Inv(k1) && |k1.procs| == |k.procs| && OnlyOf(k.procs, k1.procs, a)
    requires c < CORES && k1.cur[c].Task? && h < QUEUES && h != READY && h in k1.made
    ensures Runs(k1, c) && OnlyOf(k.procs, BlockOn(k1, c, h).procs, a)
  {
    hide Inv, Sited, BlockOn, OnlyOf, Same, Alike;
    InvSited(k1);
    BlockOnSited(k1, c, h);
    SameMeans(k1.procs, BlockOn(k1, c, h).procs);
    OnlyStatuses(k.procs, k1.procs, BlockOn(k1, c, h).procs, a);
  }

  lemma WakeAllOnly(k: K, k1: K, h: nat, a: set<nat>)
    requires Inv(k1) && |k1.procs| == |k.procs| && OnlyOf(k.procs, k1.procs, a) && h < QUEUES && h != READY
    ensures Sound(k1) && OnlyOf(k.procs, WakeAll(k1, h).procs, a)
  {
    hide Inv, WakeAll, OnlyOf;
    InvRuns(k1, 0);
    WakeAllCore(k1, h);
    OnlyStatuses(k.procs, k1.procs, WakeAll(k1, h).procs, a);
  }

  lemma UpOnly(k: K, i: nat)
    requires Inv(k) && i < MAX_SEM
    ensures Sound(k) && SameIds(k.procs, SemUp(k, i).procs)
  {
    hide Inv, Sited, Wake, Below;
    InvSited(k);
    if k.q[SemQ(i)] != [] {
      WakeSited(k, SemQ(i));
    }
  }

  lemma DownOnly(k: K, c: nat, i: nat)
    requires Inv(k) && c < CORES && k.cur[c].Task? && i < MAX_SEM && SemQ(i) in k.made
    ensures Runs(k, c) && SameIds(k.procs, SemDown(k, c, i).procs)
  {
    hide Inv, Sited, BlockOn, Below;
    InvSited(k);
    if k.sems[i].s <= 0 {
      BlockOnSited(k, c, SemQ(i));
    }
  }

  lemma SyncOnly(k: K, e: Event)
    requires Inv(k) && Fit(k) && Enabled(k, e) && !OfSched(e)
    ensures OnlyOf(k.procs, DoSync(k, e).procs, Actor(k, e))
  {
    hide Inv, SemDown, SemUp, BarrierWait, WakeAll, BlockOn, Send, Recv, Below, Placed, OnlyOf;
    OnlySelf(k.procs);
    match e
    case DoSemInit(i, val) =>
    case DoSemUp(i) =>
      UpOnly(k, i);
      OnlyStatuses(k.procs, k.procs, SemUp(k, i).procs, {});
    case DoSemDown(c, i) =>
      DownOnly(k, c, i);
      OnlyStatuses(k.procs, k.procs, SemDown(k, c, i).procs, {});
    case DoAcquire(c, i) => AcquireOnly(k, c, i);
    case DoRelease(c, i) => ReleaseOnly(k, c, i);
    case DoSemDestroy(i) => WakeAllOnly(k, k, SemQ(i), {});
    case DoBarrierInit(i, count) =>
    case DoBarrierWait(c, i) => BarrierOnly(k, c, i);
    case DoBoxOpen(m) =>
    case DoSend(c, m, msg) => SendOnly(k, c, m, msg);
    case DoRecv(c, m, want) => RecvOnly(k, c, m, want);
  }

  /** An acquired lock is recorded behind the others, whether it is got at once or not. */
  lemma AcquireOnly(k: K, c: nat, i: nat)
    requires Inv(k) && Fit(k) && Enabled(k, DoAcquire(c, i))
    ensures var x, r := k.cur[c].p, Acquire(k, c, i);
      |r.procs| == |k.procs| && OnlyOf(k.procs, r.procs, {x}) && r.procs[x].locks == k.procs[x].locks + [i]
  {
    hide Inv, SemDown, OnlyOf;
    AcquireMoves(k, c, i);
    var x := k.cur[c].p;
    var k1 := WithLocks(k, c, k.procs[x].locks + [i]);
    DownOnly(k1, c, i);
    OnlyOne(k.procs, x, k1.procs[x]);
    OnlyStatuses(k.procs, k1.procs, Acquire(k, c, i).procs, {x});
  }

  /** A release drops the last record, whichever lock it lets go. */
  lemma ReleaseOnly(k: K, c: nat, i: nat)
    requires Inv(k) && Fit(k) && Enabled(k, DoRelease(c, i))
    ensures var x, r, n := k.cur[c].p, Release(k, c, i), |k.procs[k.cur[c].p].locks|;
      |r.procs| == |k.procs| && OnlyOf(k.procs, r.procs, {x}) && n > 0 && r.procs[x].locks == k.procs[x].locks[..n - 1]
  {
    hide Inv, OnlyOf, SemUp;
    UpOnly(k, i);
    OnlySelf(k.procs);
    var x, k1 := k.cur[c].p, SemUp(k, i);
    OnlyStatuses(k.procs, k.procs, k1.procs, {});
    UpCore(k, i);
    OnlyThenOne(k.procs, k1.procs, x, Release(k, c, i).procs[x]);
  }

  lemma UpCore(k: K, i: nat)
    requires Inv(k) && i < MAX_SEM
    ensures Sound(k) && SemUp(k, i).cur == k.cur
  {
    hide Inv, Wake;
    UpMoves(k, i);
  }

  lemma OnlyThenOne(procs: seq<Proc>, procs1: seq<Proc>, p: nat, x: Proc)
    requires |procs1| == |procs| && OnlyOf(procs, procs1, {}) && p < |procs| && x.mode == procs1[p].mode
    ensures OnlyOf(procs, procs1[p := x], {p})
  {
  }

  lemma BarrierOnly(k: K, c: nat, i: nat)
    requires Inv(k) && Fit(k) && Enabled(k, DoBarrierWait(c, i))
    ensures OnlyOf(k.procs, BarrierWait(k, c, i).procs, {})
  {
    hide Inv, WakeAll, BlockOn, Below, OnlyOf;
    var s := if k.sems[i].s > 1 then k.sems[i].s - 1 else k.sems[i].s + |k.q[SemQ(i)]|;
    SemsKeep(k, k.sems[i := k.sems[i].(s := s)], k.boxes);
    var k1 := WithSem(k, i, s);
    OnlySelf(k.procs);
    if k.sems[i].s > 1 {
      BlockOnly(k, k1, c, SemQ(i), {});
    } else {
      WakeAllOnly(k, k1, SemQ(i), {});
    }
  }

  lemma SendOnly(k: K, c: nat, m: nat, msg: seq<byte>)
    requires Inv(k) && Fit(k) && Enabled(k, DoSend(c, m, msg))
    ensures OnlyOf(k.procs, Send(k, c, m, msg).procs, {k.cur[c].p})
  {
    hide Inv, Send, WakeAll, BlockOn, Below, OnlyOf;
    SendMoves(k, c, m, msg);
    var k1 := SendMid(k, c, m, msg);
    OnlyOne(k.procs, k.cur[c].p, k1.procs[k.cur[c].p]);
    if |k.boxes[m].buf| + |msg| > MBOX_SIZE {
      BlockOnly(k, k1, c, FullQ(m), {k.cur[c].p});
    } else {
      WakeAllOnly(k, k1, EmptyQ(m), {k.cur[c].p});
    }
  }

  lemma RecvOnly(k: K, c: nat, m: nat, want: nat)
    requires Inv(k) && Fit(k) && Enabled(k, DoRecv(c, m, want))
    ensures OnlyOf(k.procs, Recv(k, c, m, want).procs, {k.cur[c].p})
  {
    hide Inv, Recv, WakeAll, BlockOn, Below, OnlyOf;
    RecvMoves(k, c, m, want);
    var k1 := RecvMid(k, c, m, want);
    OnlyOne(k.procs, k.cur[c].p, k1.procs[k.cur[c].p]);
    if |k.boxes[m].buf| < want {
      BlockOnly(k, k1, c, EmptyQ(m), {k.cur[c].p});
    } else {
      WakeAllOnly(k, k1, FullQ(m), {k.cur[c].p});
    }
  }

  /** No event changes the mode of any process, nor anything but the status of one whose call it is not. */
  lemma OnlyActor(k: K, e: Event)
    requires Inv(k)
    ensures OnlyOf(k.procs, Apply(k, e).procs, if Enabled(k, e) then Actor(k, e) else {})
  {
    hide Inv, Fit, DoSched, DoSync, OnlyOf, Actor;
    InvFit(k);
    OnlySelf(k.procs);
    if Enabled(k, e) {
      if OfSched(e) {
        SchedOnly(k, e);
      } else {
        SyncOnly(k, e);
      }
    }
  }

  // ---------- Sleeping ----------

  /** x is on the timer queue until tick d. */
  predicate SleepsTill(k: K, x: nat, d: nat) {
    x < |k.procs| && |k.q| == QUEUES && x in k.q[TIMERS] && k.procs[x].wake == d
  }

  /** Nobody kills x, and the clock is not looked at from tick d on. */
  predicate Undisturbed(k: K, e: Event, x: nat, d: nat) {
    (Enabled(k, e) ==> x !in Ends(k, e)) && (e.ClockCheck? ==> e.now < d)
  }

  ghost predicate UndisturbedAll(k: K, es: seq<Event>, x: nat, d: nat)
    requires Inv(k)
    decreases |es|
  {
    es == [] || (Undisturbed(k, es[0], x, d) && (ApplyKeeps(k, es[0]); UndisturbedAll(Apply(k, es[0]), es[1..], x, d)))
  }

  lemma {:induction false} SleepersOf(procs: seq<Proc>, s: seq<nat>, now: nat, due: bool, x: nat)
    requires AllBelow(s, |procs|)
    ensures x in Sleepers(procs, s, now, due) <==> x in s && x < |procs| && ((procs[x].wake <= now) == due)
  {
    if s != [] {
      SleepersOf(procs, s[1..], now, due, x);
      assert s == [s[0]] + s[1..];
    }
  }

  /** A sleeper is on no core, so no call is its own. */
  lemma SleeperActsNot(k: K, e: Event, x: nat, d: nat)
    requires Inv(k) && SleepsTill(k, x, d)
    ensures Enabled(k, e) ==> x !in Actor(k, e)
  {
    InvRuns(k, 0);
    InvRuns(k, 1);
  }

  lemma SleepStep(k: K, e: Event, x: nat, d: nat)
    requires Inv(k) && SleepsTill(k, x, d) && Undisturbed(k, e, x, d)
    ensures Inv(Apply(k, e)) && SleepsTill(Apply(k, e), x, d)
  {
    hide Inv, Fit, DoSync, DoSched, Actor;
    InvFit(k);
    ApplyKeeps(k, e);
    OnlyActor(k, e);
    SleeperActsNot(k, e, x, d);
    if Enabled(k, e) {
      TimersStep(k, e, x, d);
    }
  }

  lemma TimersStep(k: K, e: Event, x: nat, d: nat)
    requires Inv(k) && Fit(k) && Enabled(k, e) && SleepsTill(k, x, d) && Undisturbed(k, e, x, d)
    ensures |Apply(k, e).q| == QUEUES && x in Apply(k, e).q[TIMERS]
  {
    hide Inv, Fit, DoSync, Exit, Kill, WaitPid, Sleep, TimerCheck, Schedule, Sleepers;
    if e.ClockCheck? {
      InvSited(k);
      TimerCheckMoves(k, e.now);
      SleepersOf(k.procs, k.q[TIMERS], e.now, false, x);
    } else if e.DoSleep? {
      SleepMoves(k, e.c, e.t, e.base, e.now);
    } else if e.DoKill? {
      KillTimers(k, e.c, e.pid, x);
    } else if OfSched(e) {
      OtherTimers(k, e);
      SchedElsewhere(k, e, TIMERS);
    } else {
      SyncElsewhere(k, e, TIMERS);
    }
  }

  lemma OtherTimers(k: K, e: Event)
    requires Fit(k) && Enabled(k, e) && OfSched(e) && !e.ClockCheck? && !e.DoSleep? && !e.DoKill?
    ensures !Touches(k, e, TIMERS)
  {
  }

  lemma KillTimers(k: K, c: nat, pid: int, x: nat)
    requires Inv(k) && Fit(k) && Enabled(k, DoKill(c, pid)) && |k.q| == QUEUES && x in k.q[TIMERS] && x !in Ends(k, DoKill(c, pid))
    ensures |Kill(k, c, pid).0.q| == QUEUES && x in Kill(k, c, pid).0.q[TIMERS]
  {
    hide Inv, Fit, FindPid, Reap, Schedule;
    InvFit(k);
    FitSound(k);
    FindRange(k.procs, pid);
    if pid != 0 && pid != 1 && FindPid(k.procs, pid) < |k.procs| {
      KillMoves(k, c, pid);
    }
  }

  lemma {:induction false} SleepRun(k: K, es: seq<Event>, x: nat, d: nat)
    requires Inv(k) && SleepsTill(k, x, d) && UndisturbedAll(k, es, x, d)
    ensures SleepsTill(Run(k, es), x, d)
    decreases |es|
  {
    hide Inv, Apply, SleepsTill, Undisturbed;
    if es != [] {
      SleepStep(k, es[0], x, d);
      SleepRun(Apply(k, es[0]), es[1..], x, d);
    }
  }

  /** The first look at the clock from its time on makes a sleeper ready, behind those that were. */
  lemma SleepEnds(k: K, x: nat, d: nat, tick: nat)
    requires Inv(k) && SleepsTill(k, x, d) && tick >= d
    ensures var r, n := Apply(k, ClockCheck(tick)), |k.q[READY]|;
      |r.q| == QUEUES && x < |r.procs| && r.procs[x].status == Ready && x !in r.q[TIMERS] &&
      |r.q[READY]| >= n && r.q[READY][..n] == k.q[READY] && x in r.q[READY][n..]
  {
    hide Inv, Fit, Sleepers, TimerCheck;
    InvFit(k);
    InvSited(k);
    ApplyKeeps(k, ClockCheck(tick));
    OnlyActor(k, ClockCheck(tick));
    TimerCheckMoves(k, tick);
    SleepersOf(k.procs, k.q[TIMERS], tick, true, x);
    SleepersOf(k.procs, k.q[TIMERS], tick, false, x);
    PlaceOf(Apply(k, ClockCheck(tick)), x);
  }

  /** do_sleep(t) at tick now: over every run in which nobody kills the caller it stays blocked on the timer queue
      as long as the clock is looked at only before tick now + t * base, in 64 bits; the first look from then on
      makes it ready, behind those that were ready. */
  lemma SleepsUntilDue(k: K, c: nat, t: nat, base: nat, now: nat, es: seq<Event>, tick: nat)
    requires Inv(k) && Enabled(k, DoSleep(c, t, base, now)) && Inv(Apply(k, DoSleep(c, t, base, now)))
    requires UndisturbedAll(Apply(k, DoSleep(c, t, base, now)), es, k.cur[c].p, (now + t * base) % 0x1_0000_0000_0000_0000)
    ensures var x, k1 := k.cur[c].p, Run(Apply(k, DoSleep(c, t, base, now)), es);
      x < |k1.procs| && k1.procs[x].status == Blocked && |k1.q| == QUEUES && x in k1.q[TIMERS] &&
      (tick >= (now + t * base) % 0x1_0000_0000_0000_0000 ==>
        var k2, n := Apply(k1, ClockCheck(tick)), |k1.q[READY]|;
        |k2.q| == QUEUES && x < |k2.procs| && k2.procs[x].status == Ready && x !in k2.q[TIMERS] &&
        |k2.q[READY]| >= n && k2.q[READY][..n] == k1.q[READY] && x in k2.q[READY][n..])
  {
    hide Inv, Fit, Sleep, UndisturbedAll, Run, DoSync;
    var x, d, k0 := k.cur[c].p, (now + t * base) % 0x1_0000_0000_0000_0000, Apply(k, DoSleep(c, t, base, now));
    InvFit(k);
    SleepMoves(k, c, t, base, now);
    SleepRun(k0, es, x, d);
    var k1 := Run(k0, es);
    PlaceOf(k1, x);
    if tick >= d {
      SleepEnds(k1, x, d, tick);
    }
  }
}
