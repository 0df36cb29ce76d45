/** What semaphores, mutexes and barriers guarantee over whole runs. */
module KernelSync {
  import opened Lists
  import opened Queues
  import opened KernelState
  import opened KernelSched
  import opened KernelInv
  import opened KernelLocks
  import opened KernelEffects
  import opened KernelRuns

  // ---------- Each event works on its own queues ----------

  /** Queue h is one of those that e works on, besides the ready queue. */
  predicate Touches(k: K, e: Event, h: nat)
    requires Fit(k) && Enabled(k, e)
  {
    match e
    case Reschedule(_) => false
    case ClockCheck(_) => h == TIMERS
    case DoSleep(_, _, _, _) => h == TIMERS
    case DoWaitPid(_, pid) => FindPid(k.procs, pid) < |k.procs| && h == WaitQ(FindPid(k.procs, pid))
    case DoExit(c) => h == WaitQ(k.cur[c].p)
    case DoKill(_, _) => true
    case DoExec(_) => false
    case DoSemInit(i, _) => false
    case DoSemUp(i) => h == SemQ(i)
    case DoSemDown(_, i) => h == SemQ(i)
    case DoAcquire(_, i) => h == SemQ(i)
    case DoRelease(_, i) => h == SemQ(i)
    case DoSemDestroy(i) => h == SemQ(i)
    case DoBarrierInit(i, _) => false
    case DoBarrierWait(_, i) => h == SemQ(i)
    case DoBoxOpen(_) => false
    case DoSend(_, m, _) => h == FullQ(m) || h == EmptyQ(m)
    case DoRecv(_, m, _) => h == FullQ(m) || h == EmptyQ(m)
  }

  lemma SchedElsewhere(k: K, e: Event, h: nat)
    requires Inv(k) && Fit(k) && Enabled(k, e) && OfSched(e) && h < QUEUES && h != READY && !Touches(k, e, h)
    ensures |DoSched(k, e).q| == QUEUES
    ensures DoSched(k, e).q[h] == k.q[h] && DoSched(k, e).sems == k.sems && DoSched(k, e).boxes == k.boxes
  {
    hide Inv, Sited, Schedule, TimerCheck, Exit, BlockOn, Below, Placed, Sleepers, WakeAll;
    InvSited(k);
    match e
    case Reschedule(c) =>
      if k.cur[c].Task? {
        LivePid(k, c);
      }
      ScheduleMoves(k, c);
      ScheduleCore(k, c);
    case ClockCheck(now) =>
      TimerCheckMoves(k, now);
    case DoSleep(c, t, base, now) =>
      var x := k.cur[c].p;
      var procs1 := k.procs[x := k.procs[x].(wake := U64(now + U64(t * base)))];
      FieldsKeep(k, procs1);
      InvSited(k.(procs := procs1));
      ReadyMade(k);
      BlockOnMoves(k.(procs := procs1), c, TIMERS);
      BlockOnCore(k.(procs := procs1), c, TIMERS);
    case DoWaitPid(c, pid) =>
      ShellPid(k);
      SitedMade(k);
      if pid != 0 && pid != 1 && FindPid(k.procs, pid) < |k.procs| {
        BlockOnMoves(k, c, WaitQ(FindPid(k.procs, pid)));
        BlockOnCore(k, c, WaitQ(FindPid(k.procs, pid)));
      }
    case DoExit(c) => ExitElsewhere(k, c, h);
    case DoExec(mode) =>
  }

  lemma ExitElsewhere(k: K, c: nat, h: nat)
    requires Inv(k) && c < CORES && k.cur[c].Task? && k.cur[c].p != 0 && h < QUEUES && h != READY && h != WaitQ(k.cur[c].p)
    ensures Runs(k, c) && |k.procs| <= MAX_TASK && |Exit(k, c).q| == QUEUES
    ensures Exit(k, c).q[h] == k.q[h] && Exit(k, c).sems == k.sems && Exit(k, c).boxes == k.boxes
  {
    hide Inv, Sited, WakeAll, Schedule, Below;
    InvSited(k);
    var x := k.cur[c].p;
    var k0 := k.(procs := k.procs[x := k.procs[x].(pid := 0)]);
    PidZeroSited(k, x);
    WakeAllSited(k0, WaitQ(x));
    WakeAllCore(k0, WaitQ(x));
    WakeAllMoves(k0, WaitQ(x));
    var k1 := WakeAll(k0, WaitQ(x));
    var s := if k1.procs[x].mode == AutoCleanupOnExit then Exited else Zombie;
    QuitMoves(k1, c, s);
    ScheduleCore(Ended(k1, x, s), c);
  }

  /** A core whose process has ended takes the first ready process, and that is all. */
  lemma QuitMoves(k: K, c: nat, s: Status)
    requires Sited(k) && c < CORES && k.cur[c].Task? && (s == Exited || s == Zombie)
    ensures var k1 := Ended(k, k.cur[c].p, s); Schedulable(k1, c) && Schedule(k1, c).q == k.q[READY := Rest(k.q[READY])]
  {
    SitedSound(k);
    SitedOnce(k);
    QuitSited(k, c, s);
    if k.q[READY] != [] {
      RemoveHead(k.q, READY);
    } else {
      assert k.q[READY := Rest(k.q[READY])] == k.q;
    }
  }

  lemma DownMoves(k: K, c: nat, i: nat)
    requires Inv(k) && c < CORES && k.cur[c].Task? && i < MAX_SEM && SemQ(i) in k.made
    ensures Runs(k, c)
    ensures var r := SemDown(k, c, i); (r.boxes == k.boxes && |r.q| == QUEUES && |r.sems| == MAX_SEM && r.cur[1 - c] == k.cur[1 - c] &&
      (if k.sems[i].s > 0 then r.q == k.q && r.sems == k.sems[i := k.sems[i].(s := k.sems[i].s - 1)]
       else r.q == k.q[SemQ(i) := k.q[SemQ(i)] + [k.cur[c].p]][READY := Rest(k.q[READY])] && r.sems == k.sems))
  {
    hide Inv, Sited, BlockOn, Below;
    InvSited(k);
    if k.sems[i].s <= 0 {
      BlockOnMoves(k, c, SemQ(i));
      BlockOnCore(k, c, SemQ(i));
    }
  }

  lemma UpMoves(k: K, i: nat)
    requires Inv(k) && i < MAX_SEM
    ensures Sound(k)
    ensures var r, w := SemUp(k, i), k.q[SemQ(i)]; (r.boxes == k.boxes && |r.q| == QUEUES && |r.sems| == MAX_SEM && r.cur == k.cur &&
      (if w == [] then r.q == k.q && r.sems == k.sems[i := k.sems[i].(s := k.sems[i].s + 1)]
       else r.q == k.q[SemQ(i) := w[1..]][READY := k.q[READY] + [w[0]]] && r.sems == k.sems))
  {
    hide Inv, Sited, Wake, Below;
    InvSited(k);
    if k.q[SemQ(i)] != [] {
      WakeMoves(k, SemQ(i));
    }
  }

  lemma AcquireMoves(k: K, c: nat, i: nat)
    requires Inv(k) && Fit(k) && Enabled(k, DoAcquire(c, i))
    ensures var k1 := WithLocks(k, c, k.procs[k.cur[c].p].locks + [i]);
      Acquire(k, c, i) == SemDown(k1, c, i) && Inv(k1) && k1.q == k.q && k1.sems == k.sems && k1.cur == k.cur && k1.made == k.made && k1.boxes == k.boxes
  {
    hide Inv, SemDown, Below;
    LocksOf(k, c);
    LocksKeep(k, c, k.procs[k.cur[c].p].locks + [i]);
  }

  lemma BarrierMoves(k: K, c: nat, i: nat)
    requires Inv(k) && Fit(k) && Enabled(k, DoBarrierWait(c, i))
    ensures var r, w := BarrierWait(k, c, i), k.q[SemQ(i)]; (r.boxes == k.boxes && |r.q| == QUEUES && |r.sems| == MAX_SEM &&
      (if k.sems[i].s > 1 then
         r.q == k.q[SemQ(i) := w + [k.cur[c].p]][READY := Rest(k.q[READY])] && r.sems == k.sems[i := k.sems[i].(s := k.sems[i].s - 1)]
       else r.q == k.q[SemQ(i) := []][READY := k.q[READY] + w] && r.sems == k.sems[i := k.sems[i].(s := k.sems[i].s + |w|)]))
  {
    hide Inv, Sited, WakeAll, BlockOn, Below;
    var s := if k.sems[i].s > 1 then k.sems[i].s - 1 else k.sems[i].s + |k.q[SemQ(i)]|;
    SemsKeep(k, k.sems[i := k.sems[i].(s := s)], k.boxes);
    var k1 := WithSem(k, i, s);
    InvSited(k1);
    if k.sems[i].s > 1 {
      BlockOnMoves(k1, c, SemQ(i));
      BlockOnCore(k1, c, SemQ(i));
    } else {
      WakeAllMoves(k1, SemQ(i));
      WakeAllCore(k1, SemQ(i));
    }
  }

  lemma DestroyMoves(k: K, i: nat)
    requires Inv(k) && i < MAX_SEM
    ensures Sound(k)
    ensures var r := SemDestroy(k, i); (r.boxes == k.boxes && |r.q| == QUEUES && |r.sems| == MAX_SEM &&
      r.q == k.q[SemQ(i) := []][READY := k.q[READY] + k.q[SemQ(i)]] && r.sems == k.sems[i := k.sems[i].(busy := false)])
  {
    hide Inv, Sited, WakeAll, Below;
    InvSited(k);
    WakeAllMoves(k, SemQ(i));
    WakeAllCore(k, SemQ(i));
  }

  /** The state in which a send blocks or wakes receivers. */
  function SendMid(k: K, c: nat, m: nat, msg: seq<byte>): K
    requires Runs(k, c) && m < MAX_MBOX
  {
    var b := k.boxes[m];
    if |b.buf| + |msg| > MBOX_SIZE then WithBox(WithCall(k, c, Sending(m, msg)), m, b.(fullCount := b.fullCount + 1))
    else WithBox(WithCall(k, c, NoCall), m, b.(buf := b.buf + msg))
  }

  lemma SendMoves(k: K, c: nat, m: nat, msg: seq<byte>)
    requires Inv(k) && Fit(k) && Enabled(k, DoSend(c, m, msg))
    ensures var r, k1 := Send(k, c, m, msg), SendMid(k, c, m, msg); (r.boxes == k1.boxes && |r.q| == QUEUES && r.sems == k.sems && |r.procs| == |k.procs| &&
      Inv(k1) && k1.q == k.q && k1.cur == k.cur && k1.made == k.made &&
      (if |k.boxes[m].buf| + |msg| > MBOX_SIZE then
         r == BlockOn(k1, c, FullQ(m)) && r.q == k.q[FullQ(m) := k.q[FullQ(m)] + [k.cur[c].p]][READY := Rest(k.q[READY])]
       else r == WakeAll(k1, EmptyQ(m)) && r.q == k.q[EmptyQ(m) := []][READY := k.q[READY] + k.q[EmptyQ(m)]]))
  {
    hide Inv, Sited, WakeAll, BlockOn, Below;
    var b := k.boxes[m];
    var full := |b.buf| + |msg| > MBOX_SIZE;
    var call := if full then Sending(m, msg) else NoCall;
    var b1 := if full then b.(fullCount := b.fullCount + 1) else b.(buf := b.buf + msg);
    CallKeeps(k, c, call);
    var k1 := WithCall(k, c, call);
    SemsKeep(k1, k1.sems, k1.boxes[m := b1]);
    var k2 := WithBox(k1, m, b1);
    InvSited(k2);
    if full {
      BlockOnMoves(k2, c, FullQ(m));
      BlockOnCore(k2, c, FullQ(m));
      BlockOnSited(k2, c, FullQ(m));
    } else {
      WakeAllMoves(k2, EmptyQ(m));
      WakeAllCore(k2, EmptyQ(m));
    }
  }

  function RecvMid(k: K, c: nat, m: nat, want: nat): K
    requires Runs(k, c) && m < MAX_MBOX
  {
    var b := k.boxes[m];
    if |b.buf| < want then WithBox(WithCall(k, c, Receiving(m, want)), m, b.(emptyCount := b.emptyCount + 1))
    else WithBox(WithCall(k, c, NoCall), m, b.(buf := b.buf[want..]))
  }

  lemma RecvMoves(k: K, c: nat, m: nat, want: nat)
    requires Inv(k) && Fit(k) && Enabled(k, DoRecv(c, m, want))
    ensures var r, k1 := Recv(k, c, m, want), RecvMid(k, c, m, want); (r.boxes == k1.boxes && |r.q| == QUEUES && r.sems == k.sems && |r.procs| == |k.procs| &&
      Inv(k1) && k1.q == k.q && k1.cur == k.cur && k1.made == k.made &&
      (if |k.boxes[m].buf| < want then
         r == BlockOn(k1, c, EmptyQ(m)) && r.q == k.q[EmptyQ(m) := k.q[EmptyQ(m)] + [k.cur[c].p]][READY := Rest(k.q[READY])]
       else r == WakeAll(k1, FullQ(m)) && r.q == k.q[FullQ(m) := []][READY := k.q[READY] + k.q[FullQ(m)]]))
  {
    hide Inv, Sited, WakeAll, BlockOn, Below;
    var b := k.boxes[m];
    var short := |b.buf| < want;
    var call := if short then Receiving(m, want) else NoCall;
    var b1 := if short then b.(emptyCount := b.emptyCount + 1) else b.(buf := b.buf[want..]);
    CallKeeps(k, c, call);
    var k1 := WithCall(k, c, call);
    SemsKeep(k1, k1.sems, k1.boxes[m := b1]);
    var k2 := WithBox(k1, m, b1);
    InvSited(k2);
    if short {
      BlockOnMoves(k2, c, EmptyQ(m));
      BlockOnCore(k2, c, EmptyQ(m));
      BlockOnSited(k2, c, EmptyQ(m));
    } else {
      WakeAllMoves(k2, FullQ(m));
      WakeAllCore(k2, FullQ(m));
    }
  }

  // ---------- One semaphore, event by event ----------

  /** What an event means for one semaphore. */
  datatype Act =
    | Quiet
    | Take(p: nat)        // a down that went through
    | Line(p: nat)        // a down that has to wait
    | Raise               // an up with nobody waiting
    | Hand(p: nat)        // an up that lets the first waiter through

  predicate Downs(e: Event, i: nat) {
    match e
    case DoSemDown(_, j) => j == i
    case DoAcquire(_, j) => j == i
    case _ => false
  }

  predicate Ups(e: Event, i: nat) {
    match e
    case DoSemUp(j) => j == i
    case DoRelease(_, j) => j == i
    case _ => false
  }

  predicate SemSound(k: K, i: nat) {
    i < MAX_SEM && |k.q| == QUEUES && |k.sems| == MAX_SEM
  }

  predicate OnCoreC(k: K, c: nat) {
    c < |k.cur| && k.cur[c].Task?
  }

  function ActOf(k: K, e: Event, i: nat): Act
    requires SemSound(k, i)
  {
    if !Enabled(k, e) then Quiet
    else if Ups(e, i) then (if k.q[SemQ(i)] == [] then Raise else Hand(k.q[SemQ(i)][0]))
    else if Downs(e, i) && OnCoreC(k, e.c) then (if k.sems[i].s > 0 then Take(k.cur[e.c].p) else Line(k.cur[e.c].p))
    else Quiet
  }

  /** e leaves semaphore i to its downs and ups. */
  predicate Fair(e: Event, i: nat) {
    match e
    case DoKill(_, _) => false
    case DoSemInit(j, _) => j != i
    case DoBarrierInit(j, _) => j != i
    case DoSemDestroy(j) => j != i
    case DoBarrierWait(_, j) => j != i
    case _ => true
  }

  /** Count and waiters of semaphore i after the event, from those before it. */
  ghost predicate Acted(k: K, k1: K, i: nat, a: Act)
    requires SemSound(k, i) && SemSound(k1, i)
  {
    var s, s1, w, w1 := k.sems[i].s, k1.sems[i].s, k.q[SemQ(i)], k1.q[SemQ(i)];
    match a
    case Quiet => s1 == s && w1 == w
    case Take(_) => s > 0 && s1 == s - 1 && w1 == w
    case Line(p) => s <= 0 && s1 == s && w1 == w + [p]
    case Raise => w == [] && s1 == s + 1 && w1 == []
    case Hand(p) => w != [] && p == w[0] && s1 == s && w1 == w[1..]
  }

  lemma InvSem(k: K, i: nat)
    requires Inv(k) && i < MAX_SEM
    ensures SemSound(k, i)
  {
    InvSited(k);
  }

  lemma SchedActs(k: K, e: Event, i: nat)
    requires Inv(k) && Fit(k) && Enabled(k, e) && i < MAX_SEM && Fair(e, i) && OfSched(e)
    ensures SemSound(k, i) && SemSound(DoSched(k, e), i) && Acted(k, DoSched(k, e), i, ActOf(k, e, i))
  {
    hide Inv, DoSched, Below, Placed;
    InvSem(k, i);
    FitPcb(k, e);
    assert !Touches(k, e, SemQ(i)) by { NotWaitQ(k, e, i); }
    SchedElsewhere(k, e, SemQ(i));
  }

  lemma FitPcb(k: K, e: Event)
    requires Fit(k) && Enabled(k, e)
    ensures |k.procs| <= MAX_TASK
  {
  }

  /** Wait lists and timers are not semaphore queues. */
  lemma NotWaitQ(k: K, e: Event, i: nat)
    requires Inv(k) && Fit(k) && Enabled(k, e) && i < MAX_SEM && Fair(e, i) && OfSched(e)
    ensures !Touches(k, e, SemQ(i))
  {
  }

  predicate OfSem(e: Event) {
    e.DoSemUp? || e.DoSemDown? || e.DoAcquire? || e.DoRelease?
  }

  lemma SemActs(k: K, e: Event, i: nat)
    requires Inv(k) && Fit(k) && Enabled(k, e) && i < MAX_SEM && OfSem(e)
    ensures SemSound(k, i) && SemSound(DoSync(k, e), i) && Acted(k, DoSync(k, e), i, ActOf(k, e, i))
  {
    hide Inv, Fit, SemDown, SemUp, Acquire, Below, Placed, User, Sound;
    InvSem(k, i);
    FitSound(k);
    match e
    case DoSemUp(j) => UpMoves(k, j);
    case DoSemDown(c, j) =>
      UserCore(k, c);
      DownMoves(k, c, j);
    case DoAcquire(c, j) =>
      UserCore(k, c);
      AcquireMoves(k, c, j);
      DownMoves(WithLocks(k, c, k.procs[k.cur[c].p].locks + [j]), c, j);
    case DoRelease(c, j) => UpMoves(k, j);
  }

  lemma UserCore(k: K, c: nat)
    requires User(k, c)
    ensures c < CORES && |k.cur| == CORES && k.cur[c].Task? && k.cur[c].p < |k.procs|
  {
  }

  lemma OtherActs(k: K, e: Event, i: nat)
    requires Inv(k) && Fit(k) && Enabled(k, e) && i < MAX_SEM && Fair(e, i) && !OfSched(e) && !OfSem(e)
    ensures SemSound(k, i) && SemSound(DoSync(k, e), i) && Acted(k, DoSync(k, e), i, Quiet)
  {
    hide Inv, BarrierWait, Send, Recv, SemDestroy, Below, Placed, Calls, User;
    InvSem(k, i);
    match e
    case DoSemInit(j, val) =>
    case DoSemDestroy(j) => DestroyMoves(k, j);
    case DoBarrierInit(j, count) =>
    case DoBarrierWait(c, j) => BarrierMoves(k, c, j);
    case DoBoxOpen(m) =>
    case DoSend(c, m, msg) => SendMoves(k, c, m, msg);
    case DoRecv(c, m, want) => RecvMoves(k, c, m, want);
  }

  lemma OtherQuiet(k: K, e: Event, i: nat)
    requires SemSound(k, i) && !OfSem(e)
    ensures ActOf(k, e, i) == Quiet
  {
  }

  /** Nothing but its own downs and ups changes a semaphore. */
  lemma ActsOn(k: K, e: Event, i: nat)
    requires Inv(k) && i < MAX_SEM && Fair(e, i)
    ensures Inv(Apply(k, e)) && SemSound(k, i) && SemSound(Apply(k, e), i) && Acted(k, Apply(k, e), i, ActOf(k, e, i))
  {
    hide Inv, DoSched, DoSync, Acted;
    InvSem(k, i);
    InvFit(k);
    ApplyKeeps(k, e);
    if Enabled(k, e) {
      if OfSched(e) {
        SchedActs(k, e, i);
      } else if OfSem(e) {
        SemActs(k, e, i);
      } else {
        OtherActs(k, e, i);
        OtherQuiet(k, e, i);
      }
    } else {
      assert Acted(k, k, i, Quiet) by { QuietSame(k, i); }
    }
  }

  lemma QuietSame(k: K, i: nat)
    requires SemSound(k, i)
    ensures Acted(k, k, i, Quiet)
  {
  }

  // ---------- Semaphores over runs ----------

  ghost predicate AllFair(es: seq<Event>, i: nat) {
    forall j :: 0 <= j < |es| ==> Fair(es[j], i)
  }

  /** What happened to semaphore i, event by event. */
  ghost function Acts(k: K, es: seq<Event>, i: nat): (r: seq<Act>)
    requires Inv(k) && i < MAX_SEM
    decreases |es|
  {
    if es == [] then [] else (InvSem(k, i); ApplyKeeps(k, es[0]); [ActOf(k, es[0], i)] + Acts(Apply(k, es[0]), es[1..], i))
  }

  /** Downs that completed: at once, or by being let through. */
  function Completed(acts: seq<Act>): nat {
    if acts == [] then 0 else (if acts[0].Take? || acts[0].Hand? then 1 else 0) + Completed(acts[1..])
  }

  function Raised(acts: seq<Act>): nat {
    if acts == [] then 0 else (if acts[0].Raise? || acts[0].Hand? then 1 else 0) + Raised(acts[1..])
  }

  /** The processes that had to wait, in the order they came. */
  function Arrived(acts: seq<Act>): seq<nat> {
    if acts == [] then [] else (if acts[0].Line? then [acts[0].p] else []) + Arrived(acts[1..])
  }

  /** The waiting processes that were let through, in order. */
  function Served(acts: seq<Act>): seq<nat> {
    if acts == [] then [] else (if acts[0].Hand? then [acts[0].p] else []) + Served(acts[1..])
  }

  ghost predicate SemSafe(k: K, i: nat)
    requires SemSound(k, i)
  {
    k.sems[i].s >= 0 && (k.sems[i].s > 0 ==> k.q[SemQ(i)] == [])
  }

  /** The count never goes below zero, and nobody waits while it is positive. */
  lemma {:induction false} SemRunSafe(k: K, es: seq<Event>, i: nat)
    requires Inv(k) && i < MAX_SEM && AllFair(es, i)
    requires SemSound(k, i) ==> SemSafe(k, i)
    ensures SemSound(Run(k, es), i) && SemSafe(Run(k, es), i)
    decreases |es|
  {
    hide Inv, Apply, ActOf, Fair;
    InvSem(k, i);
    if es != [] {
      ActsOn(k, es[0], i);
      SemRunSafe(Apply(k, es[0]), es[1..], i);
    }
  }

  /** Completed downs and the count balance ups and the count at the start. */
  lemma {:induction false} SemRunBalances(k: K, es: seq<Event>, i: nat)
    requires Inv(k) && i < MAX_SEM && AllFair(es, i)
    ensures SemSound(k, i) && SemSound(Run(k, es), i)
    ensures Completed(Acts(k, es, i)) + Run(k, es).sems[i].s == k.sems[i].s + Raised(Acts(k, es, i))
    decreases |es|
  {
    hide Inv, Apply, ActOf, Fair;
    InvSem(k, i);
    if es != [] {
      ActsOn(k, es[0], i);
      SemRunBalances(Apply(k, es[0]), es[1..], i);
      assert Acts(k, es, i)[1..] == Acts(Apply(k, es[0]), es[1..], i);
    }
  }

  lemma Regroup<T>(x: T, a: seq<T>, b: seq<T>)
    ensures [x] + a + b == [x] + (a + b)
    ensures a + [x] + b == a + ([x] + b)
  {
  }

  lemma NoneBefore<T>(s: seq<T>)
    ensures [] + s == s && s + [] == s
  {
  }

  /** One event in front of a run that is first come, first served. */
  lemma FifoJoin(a: Act, w: seq<nat>, w1: seq<nat>, w2: seq<nat>, rest: seq<Act>)
    requires Served(rest) + w2 == w1 + Arrived(rest)
    requires if a.Hand? then w == [a.p] + w1 else if a.Line? then w1 == w + [a.p] else w1 == w
    ensures Served([a] + rest) + w2 == w + Arrived([a] + rest)
  {
    assert ([a] + rest)[0] == a && ([a] + rest)[1..] == rest;
    NoneBefore(Served(rest));
    NoneBefore(Arrived(rest));
    if a.Hand? {
      Regroup(a.p, Served(rest), w2);
      Regroup(a.p, w1, Arrived(rest));
    } else if a.Line? {
      Regroup(a.p, w, Arrived(rest));
    }
  }

  /** Waiters are let through in the order they came. */
  lemma {:induction false} SemRunFifo(k: K, es: seq<Event>, i: nat)
    requires Inv(k) && i < MAX_SEM && AllFair(es, i)
    ensures SemSound(k, i) && SemSound(Run(k, es), i)
    ensures Served(Acts(k, es, i)) + Run(k, es).q[SemQ(i)] == k.q[SemQ(i)] + Arrived(Acts(k, es, i))
    decreases |es|
  {
    hide Inv, Apply, ActOf, Fair;
    InvSem(k, i);
    if es == [] {
      NoneBefore(k.q[SemQ(i)]);
    } else {
      ActsOn(k, es[0], i);
      var k1, a := Apply(k, es[0]), ActOf(k, es[0], i);
      SemRunFifo(k1, es[1..], i);
      assert Acts(k, es, i) == [a] + Acts(k1, es[1..], i);
      FifoJoin(a, k.q[SemQ(i)], k1.q[SemQ(i)], Run(k, es).q[SemQ(i)], Acts(k1, es[1..], i));
    }
  }

  // ---------- Mutexes ----------

  /** The process that gives the lock up by e. */
  function Releaser(k: K, e: Event): set<nat> {
    if e.DoRelease? && OnCoreC(k, e.c) then {k.cur[e.c].p} else {}
  }

  /** Who holds lock i after the event, when held did before it. */
  function HeldAfter(k: K, e: Event, i: nat, held: set<nat>): set<nat>
    requires SemSound(k, i)
  {
    match ActOf(k, e, i)
    case Take(p) => held + {p}
    case Hand(p) => held - Releaser(k, e) + {p}
    case Raise => held - Releaser(k, e)
    case _ => held
  }

  /** Lock i is used as a lock: only its holders release it, and none of them acquires it again. */
  predicate Paired(k: K, e: Event, i: nat, held: set<nat>) {
    match e
    case DoSemUp(j) => j != i
    case DoSemDown(_, j) => j != i
    case DoRelease(c, j) => j == i && OnCoreC(k, c) ==> k.cur[c].p in held
    case DoAcquire(c, j) => j == i && OnCoreC(k, c) ==> k.cur[c].p !in held
    case _ => true
  }

  /** Holders and free places make v, and no holder waits. */
  ghost predicate Locked(k: K, i: nat, held: set<nat>, v: nat)
    requires SemSound(k, i)
  {
    && |held| + k.sems[i].s == v && SemSafe(k, i) && NoDup(k.q[SemQ(i)])
    && forall p :: p in held ==> p !in k.q[SemQ(i)]
  }

  lemma CallerIdle(k: K, e: Event, i: nat)
    requires Fit(k) && SemSound(k, i) && (e.DoAcquire? || e.DoRelease?) && Enabled(k, e)
    ensures OnCoreC(k, e.c) && k.cur[e.c].p !in k.q[SemQ(i)]
  {
  }

  lemma NoDupQueue(k: K, i: nat)
    requires Inv(k) && SemSound(k, i)
    ensures NoDup(k.q[SemQ(i)])
  {
    QueuesNoDup(k);
  }

  /** Locked, in terms of count and waiters. */
  ghost predicate LockSafe(s: int, w: seq<nat>, held: set<nat>, v: nat) {
    && |held| + s == v && s >= 0 && (s > 0 ==> w == []) && NoDup(w)
    && forall p :: p in held ==> p !in w
  }

  lemma TakeSafe(s: int, w: seq<nat>, held: set<nat>, p: nat, v: nat)
    requires LockSafe(s, w, held, v) && s > 0 && p !in held
    ensures LockSafe(s - 1, w, held + {p}, v)
  {
  }

  lemma LineSafe(s: int, w: seq<nat>, held: set<nat>, p: nat, v: nat)
    requires LockSafe(s, w, held, v) && s <= 0 && p !in held && NoDup(w + [p])
    ensures LockSafe(s, w + [p], held, v)
  {
    hide NoDup;
  }

  lemma RaiseSafe(s: int, held: set<nat>, x: nat, v: nat)
    requires LockSafe(s, [], held, v) && x in held
    ensures LockSafe(s + 1, [], held - {x}, v)
  {
    assert |held - {x}| == |held| - 1;
  }

  lemma HandSafe(s: int, w: seq<nat>, held: set<nat>, x: nat, v: nat)
    requires LockSafe(s, w, held, v) && w != [] && x in held && NoDup(w[1..])
    ensures LockSafe(s, w[1..], held - {x} + {w[0]}, v)
  {
    hide NoDup;
    assert w[0] in w && w[0] !in held;
    FirstOnce(w);
    assert |held - {x}| == |held| - 1 && |held - {x} + {w[0]}| == |held|;
  }

  lemma LockStep(k: K, k1: K, e: Event, i: nat, held: set<nat>, v: nat)
    requires Fit(k) && SemSound(k, i) && SemSound(k1, i) && Locked(k, i, held, v) && Paired(k, e, i, held)
    requires Acted(k, k1, i, ActOf(k, e, i)) && NoDup(k1.q[SemQ(i)])
    ensures Locked(k1, i, HeldAfter(k, e, i, held), v)
  {
    hide Fit, Enabled, NoDup, LockSafe;
    var a, s, w := ActOf(k, e, i), k.sems[i].s, k.q[SemQ(i)];
    LockedIs(k, i, held, v);
    LockedIs(k1, i, HeldAfter(k, e, i, held), v);
    if !a.Quiet? {
      CallerIdle(k, e, i);
      var x := k.cur[e.c].p;
      match a
      case Take(p) => TakeSafe(s, w, held, p, v);
      case Line(p) => LineSafe(s, w, held, p, v);
      case Raise => RaiseSafe(s, held, x, v);
      case Hand(p) => HandSafe(s, w, held, x, v);
    }
  }

  lemma LockedIs(k: K, i: nat, held: set<nat>, v: nat)
    requires SemSound(k, i)
    ensures Locked(k, i, held, v) <==> LockSafe(k.sems[i].s, k.q[SemQ(i)], held, v)
  {
    hide NoDup;
  }

  lemma FirstOnce(w: seq<nat>)
    requires NoDup(w) && w != []
    ensures w[0] !in w[1..] && forall x :: x in w[1..] ==> x in w
  {
  }

  ghost predicate PairedRun(k: K, es: seq<Event>, i: nat, held: set<nat>)
    requires Inv(k) && i < MAX_SEM
    decreases |es|
  {
    es == [] ||
    (Paired(k, es[0], i, held) &&
     (InvSem(k, i); ApplyKeeps(k, es[0]); PairedRun(Apply(k, es[0]), es[1..], i, HeldAfter(k, es[0], i, held))))
  }

  /** Who holds lock i after the run. */
  ghost function Holders(k: K, es: seq<Event>, i: nat, held: set<nat>): set<nat>
    requires Inv(k) && i < MAX_SEM
    decreases |es|
  {
    if es == [] then held
    else (InvSem(k, i); ApplyKeeps(k, es[0]); Holders(Apply(k, es[0]), es[1..], i, HeldAfter(k, es[0], i, held)))
  }

  lemma {:induction false} LockRun(k: K, es: seq<Event>, i: nat, held: set<nat>, v: nat)
    requires Inv(k) && i < MAX_SEM && AllFair(es, i) && PairedRun(k, es, i, held)
    requires SemSound(k, i) ==> Locked(k, i, held, v)
    ensures SemSound(Run(k, es), i) && Locked(Run(k, es), i, Holders(k, es, i, held), v)
    decreases |es|
  {
    hide Inv, Apply, ActOf, Fair, Locked, HeldAfter, Paired, Acted;
    InvSem(k, i);
    if es != [] {
      var k1 := Apply(k, es[0]);
      InvFit(k);
      ActsOn(k, es[0], i);
      NoDupQueue(k1, i);
      LockStep(k, k1, es[0], i, held, v);
      LockRun(k1, es[1..], i, HeldAfter(k, es[0], i, held), v);
    }
  }

  /** Mutual exclusion: a lock initialised to 1 never has two holders, whoever waits, sleeps or wakes meanwhile. */
  lemma MutualExclusion(k: K, es: seq<Event>, i: nat)
    requires Inv(k) && Enabled(k, DoSemInit(i, 1))
    ensures Inv(Apply(k, DoSemInit(i, 1)))
    ensures (var k1 := Apply(k, DoSemInit(i, 1));
      AllFair(es, i) && PairedRun(k1, es, i, {}) ==>
        |Holders(k1, es, i, {})| <= 1 && forall p, r :: p in Holders(k1, es, i, {}) && r in Holders(k1, es, i, {}) ==> p == r)
  {
    hide Inv, Fit, Run, Holders;
    ApplyKeeps(k, DoSemInit(i, 1));
    InvFit(k);
    FitSound(k);
    var k1 := Apply(k, DoSemInit(i, 1));
    InvSem(k1, i);
    if AllFair(es, i) && PairedRun(k1, es, i, {}) {
      assert Locked(k1, i, {}, 1);
      LockRun(k1, es, i, {}, 1);
      AtMostOne(Holders(k1, es, i, {}));
    }
  }

  lemma AtMostOne(h: set<nat>)
    requires |h| <= 1
    ensures forall p, r :: p in h && r in h ==> p == r
  {
    forall p, r | p in h && r in h
      ensures p == r
    {
      assert |h - {r}| == |h| - 1;
      assert h - {r} == {};
    }
  }

  // ---------- Barriers ----------

  /** e leaves barrier i alone or arrives at it. */
  predicate Arrives(e: Event, i: nat) {
    e.DoBarrierWait? && e.i == i
  }

  predicate BarrierFair(e: Event, i: nat) {
    (Arrives(e, i) || Fair(e, i)) && !Downs(e, i) && !Ups(e, i)
  }

  /** One arrival: it waits, or it is the last and everyone goes. */
  lemma BarrierActs(k: K, e: Event, i: nat)
    requires Inv(k) && i < MAX_SEM && BarrierFair(e, i)
    ensures Inv(Apply(k, e)) && SemSound(k, i) && SemSound(Apply(k, e), i)
    ensures (var k1, s, w := Apply(k, e), k.sems[i].s, k.q[SemQ(i)];
      if !(Arrives(e, i) && Enabled(k, e)) then k1.sems[i].s == s && k1.q[SemQ(i)] == w
      else (OnCoreC(k, e.c) &&
        (if s > 1 then k1.sems[i].s == s - 1 && k1.q[SemQ(i)] == w + [k.cur[e.c].p]
         else k1.sems[i].s == s + |w| && k1.q[SemQ(i)] == [] && k1.q[READY] == k.q[READY] + w)))
  {
    hide Inv, DoSched, ActOf, BarrierWait, Fit;
    InvSem(k, i);
    InvFit(k);
    ApplyKeeps(k, e);
    if Arrives(e, i) {
      if Enabled(k, e) {
        BarrierMoves(k, e.c, i);
      }
    } else {
      ActsOn(k, e, i);
      NoAct(k, e, i);
    }
  }

  lemma NoAct(k: K, e: Event, i: nat)
    requires SemSound(k, i) && !Downs(e, i) && !Ups(e, i)
    ensures ActOf(k, e, i) == Quiet
  {
  }

  /** Places left and waiters make the count, and a place is always left. */
  ghost predicate BarrierOk(k: K, i: nat, n: nat)
    requires SemSound(k, i)
  {
    k.sems[i].s >= 1 && k.sems[i].s + |k.q[SemQ(i)]| == n
  }

  ghost predicate AllBarrierFair(es: seq<Event>, i: nat) {
    forall j :: 0 <= j < |es| ==> BarrierFair(es[j], i)
  }

  /** Arrivals at the barrier during the run. */
  ghost function ArrivalCount(k: K, es: seq<Event>, i: nat): nat
    requires Inv(k)
    decreases |es|
  {
    if es == [] then 0
    else (ApplyKeeps(k, es[0]); (if Arrives(es[0], i) && Enabled(k, es[0]) then 1 else 0) + ArrivalCount(Apply(k, es[0]), es[1..], i))
  }

  /** How often everybody at the barrier was let go. */
  ghost function Releases(k: K, es: seq<Event>, i: nat): nat
    requires Inv(k) && i < MAX_SEM
    decreases |es|
  {
    if es == [] then 0
    else
      InvSem(k, i);
      ApplyKeeps(k, es[0]);
      (if Arrives(es[0], i) && Enabled(k, es[0]) && k.sems[i].s <= 1 then 1 else 0) + Releases(Apply(k, es[0]), es[1..], i)
  }

  /** A barrier for n lets go exactly at every n-th arrival: with a arrivals behind it, it has let go a / n times
      and a % n processes wait. */
  lemma {:induction false} BarrierRun(k: K, es: seq<Event>, i: nat, n: nat)
    requires Inv(k) && i < MAX_SEM && AllBarrierFair(es, i)
    requires SemSound(k, i) ==> BarrierOk(k, i, n)
    ensures SemSound(k, i) && SemSound(Run(k, es), i) && BarrierOk(Run(k, es), i, n)
    ensures |k.q[SemQ(i)]| + ArrivalCount(k, es, i) == n * Releases(k, es, i) + |Run(k, es).q[SemQ(i)]|
    decreases |es|
  {
    hide Inv, Apply, BarrierFair;
    InvSem(k, i);
    if es != [] {
      BarrierActs(k, es[0], i);
      BarrierRun(Apply(k, es[0]), es[1..], i, n);
      var r := Releases(Apply(k, es[0]), es[1..], i);
      assert n * (1 + r) == n + n * r;
    }
  }

  /** From initialisation on. */
  lemma BarrierCounts(k: K, es: seq<Event>, i: nat, n: nat)
    requires Inv(k) && n > 0 && Enabled(k, DoBarrierInit(i, n)) && AllBarrierFair(es, i)
    ensures Inv(Apply(k, DoBarrierInit(i, n)))
    ensures (var k1 := Apply(k, DoBarrierInit(i, n));
      SemSound(Run(k1, es), i) &&
      Releases(k1, es, i) == ArrivalCount(k1, es, i) / n && |Run(k1, es).q[SemQ(i)]| == ArrivalCount(k1, es, i) % n)
  {
    hide Inv, Fit, Run, Releases, ArrivalCount;
    ApplyKeeps(k, DoBarrierInit(i, n));
    InvFit(k);
    FitSound(k);
    var k1 := Apply(k, DoBarrierInit(i, n));
    InvSem(k1, i);
    assert BarrierOk(k1, i, n);
    BarrierRun(k1, es, i, n);
    DivModIs(ArrivalCount(k1, es, i), n, Releases(k1, es, i), |Run(k1, es).q[SemQ(i)]|);
  }

  lemma DivModIs(a: nat, n: nat, q: nat, r: nat)
    requires a == n * q + r && r < n
    ensures a / n == q && a % n == r
  {
    var d := a / n - q;
    assert n * (a / n) + a % n == n * q + r;
    assert n * d == r - a % n;
    TimesAtLeast(n, d);
  }

  lemma TimesAtLeast(n: nat, d: int)
    ensures d >= 1 ==> n * d >= n
    ensures d <= -1 ==> n * d + n <= 0
  {
  }
}
