/** What mailboxes guarantee over whole runs: a first-in first-out stream of bytes, and no lost wakeup. */
module KernelMail {
  import opened Queues
  import opened KernelState
  import opened KernelSched
  import opened KernelInv
  import opened KernelLocks
  import opened KernelEffects
  import opened KernelRuns
  import opened KernelSync

  // ---------- Who waits, and for what ----------

  /** Nobody sleeps on a mailbox that could serve it. */
  ghost predicate NoLostWakeup(k: K) {
    && |k.q| == QUEUES && |k.boxes| == MAX_MBOX && Below(k.q, |k.procs|)
    && forall m: nat :: m < MAX_MBOX ==> BoxOk(k, m)
  }

  ghost predicate BoxOk(k: K, m: nat)
    requires |k.q| == QUEUES && |k.boxes| == MAX_MBOX && Below(k.q, |k.procs|) && m < MAX_MBOX
  {
    && |k.boxes[m].buf| <= MBOX_SIZE
    && (forall p :: p in k.q[EmptyQ(m)] ==>
      p < |k.procs| && k.procs[p].call.Receiving? && k.procs[p].call.box == m && |k.boxes[m].buf| < k.procs[p].call.want)
    && (forall p :: p in k.q[FullQ(m)] ==>
      p < |k.procs| && k.procs[p].call.Sending? && k.procs[p].call.box == m && |k.boxes[m].buf| + |k.procs[p].call.msg| > MBOX_SIZE)
  }

  /** Mailbox queues have nobody new, the same bytes are there, and nobody's call changed. */
  ghost predicate Fewer(k: K, k1: K) {
    && |k.q| == |k1.q| == QUEUES && k1.boxes == k.boxes && |k.procs| <= |k1.procs|
    && (forall p: nat :: p < |k.procs| ==> k1.procs[p].call == k.procs[p].call)
    && (forall h: nat, p :: FullQ(0) <= h < QUEUES && p in k1.q[h] ==> p in k.q[h])
  }

  lemma FewerOk(k: K, k1: K)
    requires NoLostWakeup(k) && Fewer(k, k1) && Below(k1.q, |k1.procs|)
    ensures NoLostWakeup(k1)
  {
    forall m: nat | m < MAX_MBOX
      ensures BoxOk(k1, m)
    {
      assert BoxOk(k, m);
    }
  }

  lemma FewerTrans(a: K, b: K, c: K)
    requires Fewer(a, b) && Fewer(b, c)
    ensures Fewer(a, c)
  {
  }

  lemma BlockFewer(k: K, c: nat, h: nat)
    requires Sited(k) && c < CORES && k.cur[c].Task? && h < FullQ(0) && h != READY && h in k.made
    ensures Runs(k, c) && Fewer(k, BlockOn(k, c, h))
  {
    hide Sited, BlockOn, Placed, Below;
    BlockOnMoves(k, c, h);
    BlockOnCore(k, c, h);
    BlockOnSited(k, c, h);
    SitedOnce(k);
  }

  lemma WakeAllFewer(k: K, h: nat)
    requires Sited(k) && h < QUEUES && h != READY
    ensures Sound(k) && Fewer(k, WakeAll(k, h))
  {
    hide Sited, WakeAll, Placed, Below;
    WakeAllMoves(k, h);
    WakeAllCore(k, h);
    SitedOnce(k);
  }

  lemma WakeFewer(k: K, h: nat)
    requires Sited(k) && h < QUEUES && h != READY && k.q[h] != []
    ensures Sound(k) && Fewer(k, Wake(k, h))
  {
    hide Sited, Wake, Placed, Below;
    WakeMoves(k, h);
    SitedOnce(k);
  }

  lemma ScheduleFewer(k: K, c: nat)
    requires Sited(k) && c < CORES && (k.cur[c].Task? ==> k.procs[k.cur[c].p].pid != 0)
    ensures Schedulable(k, c) && Fewer(k, Schedule(k, c))
  {
    hide Sited, Schedule, Placed, Below;
    ScheduleMoves(k, c);
    ScheduleSited(k, c);
    ScheduleCore(k, c);
    SitedOnce(k);
  }

  lemma QuitFewer(k: K, c: nat, s: Status)
    requires Sited(k) && c < CORES && k.cur[c].Task? && (s == Exited || s == Zombie)
    ensures var k1 := Ended(k, k.cur[c].p, s); Schedulable(k1, c) && Fewer(k, Schedule(k1, c))
  {
    hide Sited, Schedule, Placed, Below;
    SitedOnce(k);
    QuitMoves(k, c, s);
    QuitSited(k, c, s);
    ScheduleCore(Ended(k, k.cur[c].p, s), c);
  }

  lemma TimerFewer(k: K, now: nat)
    requires Sited(k)
    ensures Sound(k) && Fewer(k, TimerCheck(k, now))
  {
    hide Sited, CheckFrom, Placed, Below, Sleepers;
    SitedOnce(k);
    TimerCheckMoves(k, now);
    CheckSited(k, 0, now);
  }

  lemma {:induction false} ReleaseFewer(k: K, locks: seq<nat>, i: nat)
    requires Sited(k) && i <= |locks| && AllBelow(locks, MAX_SEM)
    ensures Sound(k) && Fewer(k, ReleaseFrom(k, locks, i))
    decreases |locks| - i
  {
    hide Sited, Wake, Placed, Below;
    SitedOnce(k);
    if i < |locks| {
      var l := locks[i];
      if k.q[SemQ(l)] != [] {
        WakeFewer(k, SemQ(l));
      }
      ReleaseOneSited(k, l);
      ReleaseFewer(ReleaseOne(k, l), locks, i + 1);
      FewerTrans(k, ReleaseOne(k, l), ReleaseFrom(k, locks, i));
    }
  }

  lemma DroppedFewer(k: K, p: nat)
    requires Sited(k) && p < |k.procs|
    ensures Fewer(k, Dropped(k, p))
  {
    SitedOnce(k);
    RemoveIn(k.q, p);
  }

  lemma KillFewer(k: K, c: nat, pid: int)
    requires Inv(k) && Fit(k) && c < CORES && k.cur[1 - c] != Task(FindPid(k.procs, pid))
    ensures Fewer(k, Kill(k, c, pid).0)
  {
    hide Inv, Sited, Reap, Wake, Schedule, WakeAll, ReleaseFrom, Same, Fewer, Placed, Below;
    InvSited(k);
    SameFewer(k);
    var x := FindPid(k.procs, pid);
    if pid != 0 && pid != 1 && x < |k.procs| {
      var locks := k.procs[x].locks;
      if k.cur[c] == Task(x) {
        SelfReap(k, c);
        ReleaseFewer(k, locks, 0);
        ReleaseSited(k, locks, 0);
        ReleaseCore(k, locks, 0);
        var k2 := ReleaseFrom(k, locks, 0);
        WakeAllFewer(k2, WaitQ(x));
        var k3 := WakeAll(k2, WaitQ(x));
        QuitFewer(k3, c, Exited);
        FewerTrans(k, k2, k3);
        FewerTrans(k, k3, Kill(k, c, pid).0);
      } else {
        NotRunning(k, x, c);
        ReapDropped(k, x);
        DroppedSited(k, x);
        DroppedFewer(k, x);
        var k1 := Dropped(k, x);
        ReleaseFewer(k1, locks, 0);
        ReleaseSited(k1, locks, 0);
        var k2 := ReleaseFrom(k1, locks, 0);
        WakeAllFewer(k2, WaitQ(x));
        FewerTrans(k, k1, k2);
        FewerTrans(k, k2, Kill(k, c, pid).0);
      }
    }
  }

  lemma SameFewer(k: K)
    requires Inv(k)
    ensures Fewer(k, k)
  {
    InvSited(k);
  }

  lemma ExitFewer(k: K, c: nat)
    requires Inv(k) && c < CORES && k.cur[c].Task? && k.cur[c].p != 0
    ensures Runs(k, c) && |k.procs| <= MAX_TASK && Fewer(k, Exit(k, c))
  {
    hide Inv, Sited, WakeAll, Schedule, Below, Fewer;
    InvSited(k);
    SameFewer(k);
    var x := k.cur[c].p;
    var k0 := k.(procs := k.procs[x := k.procs[x].(pid := 0)]);
    PidZeroSited(k, x);
    WakeAllSited(k0, WaitQ(x));
    WakeAllCore(k0, WaitQ(x));
    WakeAllFewer(k0, WaitQ(x));
    var k1 := WakeAll(k0, WaitQ(x));
    var s := if k1.procs[x].mode == AutoCleanupOnExit then Exited else Zombie;
    QuitFewer(k1, c, s);
    PidFewer(k, x);
    FewerTrans(k, k0, k1);
    FewerTrans(k, k1, Exit(k, c));
  }

  lemma PidFewer(k: K, x: nat)
    requires x < |k.procs| && Fewer(k, k)
    ensures Fewer(k, k.(procs := k.procs[x := k.procs[x].(pid := 0)]))
  {
  }

  lemma SchedFewer(k: K, e: Event)
    requires Inv(k) && Fit(k) && Enabled(k, e) && OfSched(e)
    ensures Fewer(k, DoSched(k, e))
  {
    hide Inv, Sited, Schedule, TimerCheck, Exit, Kill, BlockOn, Below, Placed;
    InvSited(k);
    match e
    case Reschedule(c) =>
      if k.cur[c].Task? {
        LivePid(k, c);
      }
      ScheduleFewer(k, c);
    case ClockCheck(now) => TimerFewer(k, now);
    case DoSleep(c, t, base, now) =>
      var x := k.cur[c].p;
      var procs1 := k.procs[x := k.procs[x].(wake := U64(now + U64(t * base)))];
      FieldsKeep(k, procs1);
      InvSited(k.(procs := procs1));
      ReadyMade(k);
      BlockFewer(k.(procs := procs1), c, TIMERS);
    case DoWaitPid(c, pid) =>
      ShellPid(k);
      SitedMade(k);
      if pid != 0 && pid != 1 && FindPid(k.procs, pid) < |k.procs| {
        BlockFewer(k, c, WaitQ(FindPid(k.procs, pid)));
      }
    case DoExit(c) => ExitFewer(k, c);
    case DoKill(c, pid) => KillFewer(k, c, pid);
    case DoExec(mode) =>
  }

  lemma UpFewer(k: K, i: nat)
    requires Inv(k) && i < MAX_SEM
    ensures Sound(k) && Fewer(k, SemUp(k, i))
  {
    hide Inv, Sited, Wake, Below;
    InvSited(k);
    if k.q[SemQ(i)] != [] {
      WakeFewer(k, SemQ(i));
    }
  }

  lemma DownFewer(k: K, c: nat, i: nat)
    requires Inv(k) && c < CORES && k.cur[c].Task? && i < MAX_SEM && SemQ(i) in k.made
    ensures Runs(k, c) && Fewer(k, SemDown(k, c, i))
  {
    hide Inv, Sited, BlockOn, Below;
    InvSited(k);
    if k.sems[i].s <= 0 {
      BlockFewer(k, c, SemQ(i));
    }
  }

  lemma BarrierFewer(k: K, c: nat, i: nat)
    requires Inv(k) && Fit(k) && Enabled(k, DoBarrierWait(c, i))
    ensures Fewer(k, BarrierWait(k, c, i))
  {
    hide Inv, Sited, WakeAll, BlockOn, Below;
    var s := if k.sems[i].s > 1 then k.sems[i].s - 1 else k.sems[i].s + |k.q[SemQ(i)]|;
    SemsKeep(k, k.sems[i := k.sems[i].(s := s)], k.boxes);
    var k1 := WithSem(k, i, s);
    InvSited(k1);
    if k.sems[i].s > 1 {
      BlockFewer(k1, c, SemQ(i));
    } else {
      WakeAllFewer(k1, SemQ(i));
    }
  }

  predicate OfBox(e: Event) {
    e.DoBoxOpen? || e.DoSend? || e.DoRecv?
  }

  lemma SyncFewer(k: K, e: Event)
    requires Inv(k) && Fit(k) && Enabled(k, e) && !OfSched(e) && !OfBox(e)
    ensures Fewer(k, DoSync(k, e))
  {
    hide Inv, Sited, SemDown, SemUp, BarrierWait, WakeAll, Below, Placed;
    InvSited(k);
    match e
    case DoSemInit(i, val) =>
    case DoSemUp(i) => UpFewer(k, i);
    case DoSemDown(c, i) => DownFewer(k, c, i);
    case DoAcquire(c, i) =>
      AcquireMoves(k, c, i);
      DownFewer(WithLocks(k, c, k.procs[k.cur[c].p].locks + [i]), c, i);
    case DoRelease(c, i) => UpFewer(k, i);
    case DoSemDestroy(i) => WakeAllFewer(k, SemQ(i));
    case DoBarrierInit(i, count) =>
    case DoBarrierWait(c, i) => BarrierFewer(k, c, i);
  }

  // ---------- Sending and receiving ----------

  /** The process of core c stands on no queue, so its call matters to none. */
  lemma MidCalls(k: K, c: nat, call: Call)
    requires Fit(k) && c < CORES && k.cur[c].Task?
    ensures forall p: nat :: p < |k.procs| && p != k.cur[c].p ==> WithCall(k, c, call).procs[p] == k.procs[p]
    ensures forall h: nat :: h < QUEUES ==> k.cur[c].p !in k.q[h]
  {
  }

  lemma BlockCalls(k: K, c: nat, h: nat)
    requires Sited(k) && c < CORES && k.cur[c].Task? && h < QUEUES && h != READY && h in k.made
    ensures Runs(k, c) && |BlockOn(k, c, h).procs| == |k.procs|
    ensures forall p: nat :: p < |k.procs| ==> BlockOn(k, c, h).procs[p].call == k.procs[p].call
  {
    hide Sited, BlockOn, Placed;
    BlockOnSited(k, c, h);
  }

  lemma WakeAllCalls(k: K, h: nat)
    requires Sited(k) && h < QUEUES && h != READY
    ensures Sound(k) && |WakeAll(k, h).procs| == |k.procs|
    ensures forall p: nat :: p < |k.procs| ==> WakeAll(k, h).procs[p].call == k.procs[p].call
  {
    hide Sited, WakeAll, Placed;
    SitedOnce(k);
    WakeAllCore(k, h);
  }

  lemma SendOk(k: K, c: nat, m: nat, msg: seq<byte>)
    requires Inv(k) && Fit(k) && Enabled(k, DoSend(c, m, msg)) && NoLostWakeup(k)
    requires Below(Send(k, c, m, msg).q, |Send(k, c, m, msg).procs|)
    ensures NoLostWakeup(Send(k, c, m, msg))
  {
    hide Inv, Send, WakeAll, BlockOn, Below, Fit, Sited, Placed;
    FitSound(k);
    SendMoves(k, c, m, msg);
    var k1, r := SendMid(k, c, m, msg), Send(k, c, m, msg);
    InvSited(k1);
    var full := |k.boxes[m].buf| + |msg| > MBOX_SIZE;
    MidCalls(k, c, if full then Sending(m, msg) else NoCall);
    if full {
      BlockCalls(k1, c, FullQ(m));
    } else {
      WakeAllCalls(k1, EmptyQ(m));
    }
    forall x: nat | x < MAX_MBOX
      ensures BoxOk(r, x)
    {
      assert BoxOk(k, x);
    }
  }

  lemma RecvOk(k: K, c: nat, m: nat, want: nat)
    requires Inv(k) && Fit(k) && Enabled(k, DoRecv(c, m, want)) && NoLostWakeup(k)
    requires Below(Recv(k, c, m, want).q, |Recv(k, c, m, want).procs|)
    ensures NoLostWakeup(Recv(k, c, m, want))
  {
    hide Inv, Recv, WakeAll, BlockOn, Below, Fit, Sited, Placed;
    FitSound(k);
    RecvMoves(k, c, m, want);
    var k1, r := RecvMid(k, c, m, want), Recv(k, c, m, want);
    InvSited(k1);
    var short := |k.boxes[m].buf| < want;
    MidCalls(k, c, if short then Receiving(m, want) else NoCall);
    if short {
      BlockCalls(k1, c, EmptyQ(m));
    } else {
      WakeAllCalls(k1, FullQ(m));
    }
    forall x: nat | x < MAX_MBOX
      ensures BoxOk(r, x)
    {
      assert BoxOk(k, x);
    }
  }

  lemma OpenOk(k: K, m: nat)
    requires Inv(k) && Fit(k) && Enabled(k, DoBoxOpen(m)) && NoLostWakeup(k)
    ensures NoLostWakeup(BoxOpen(k, m))
  {
    var r := BoxOpen(k, m);
    forall x: nat | x < MAX_MBOX
      ensures BoxOk(r, x)
    {
      assert BoxOk(k, x);
    }
  }

  lemma InvBelow(k: K)
    requires Inv(k)
    ensures Below(k.q, |k.procs|) && |k.q| == QUEUES && |k.boxes| == MAX_MBOX
  {
  }

  lemma WakeupStep(k: K, e: Event)
    requires Inv(k) && NoLostWakeup(k)
    ensures NoLostWakeup(Apply(k, e))
  {
    hide Inv, NoLostWakeup, DoSched, Send, Recv, BoxOpen, Below, Fewer;
    InvFit(k);
    ApplyKeeps(k, e);
    InvBelow(Apply(k, e));
    if Enabled(k, e) {
      if OfSched(e) {
        SchedFewer(k, e);
        FewerOk(k, Apply(k, e));
      } else if !OfBox(e) {
        SyncFewer(k, e);
        FewerOk(k, Apply(k, e));
      } else {
        match e
        case DoBoxOpen(m) => OpenOk(k, m);
        case DoSend(c, m, msg) => SendOk(k, c, m, msg);
        case DoRecv(c, m, want) => RecvOk(k, c, m, want);
      }
    }
  }

  /** In every reachable state whoever waits to receive wants more bytes than there are, and whoever waits
      to send would not fit. */
  lemma {:induction false} NobodySleepsInVain(k: K, es: seq<Event>)
    requires Inv(k) && NoLostWakeup(k)
    ensures NoLostWakeup(Run(k, es))
    decreases |es|
  {
    hide Inv, NoLostWakeup, Apply;
    if es != [] {
      ApplyKeeps(k, es[0]);
      WakeupStep(k, es[0]);
      NobodySleepsInVain(Apply(k, es[0]), es[1..]);
    }
  }

  lemma BootWakeup()
    ensures NoLostWakeup(Boot())
  {
  }

  /** In every state reached from boot whoever waits at a mailbox has reason to. */
  lemma ReachableWakeup(es: seq<Event>)
    ensures Inv(Boot()) && NoLostWakeup(Run(Boot(), es))
  {
    hide Inv, NoLostWakeup, Boot, Run;
    BootInv();
    BootWakeup();
    NobodySleepsInVain(Boot(), es);
  }

  // ---------- The byte stream ----------

  /** The bytes that e puts into mailbox m. */
  function SentBy(k: K, e: Event, m: nat): seq<byte>
    requires |k.boxes| == MAX_MBOX
  {
    if e.DoSend? && e.m == m && Enabled(k, e) && |k.boxes[m].buf| + |e.msg| <= MBOX_SIZE then e.msg else []
  }

  /** The bytes that e hands to its caller from mailbox m. */
  function GotBy(k: K, e: Event, m: nat): seq<byte>
    requires |k.boxes| == MAX_MBOX
  {
    if e.DoRecv? && e.m == m && Enabled(k, e) && e.want <= |k.boxes[m].buf| then k.boxes[m].buf[..e.want] else []
  }

  lemma StreamStep(k: K, e: Event, m: nat)
    requires Inv(k) && m < MAX_MBOX && !(e == DoBoxOpen(m))
    ensures |k.boxes| == MAX_MBOX && |Apply(k, e).boxes| == MAX_MBOX
    ensures k.boxes[m].buf + SentBy(k, e, m) == GotBy(k, e, m) + Apply(k, e).boxes[m].buf
  {
    hide Inv, DoSched, Send, Recv, Below, Fewer, Fit;
    InvFit(k);
    InvBelow(k);
    ApplyKeeps(k, e);
    InvBelow(Apply(k, e));
    var b := k.boxes[m].buf;
    assert b + [] == b && [] + b == b;
    if Enabled(k, e) {
      if OfSched(e) {
        SchedFewer(k, e);
        FewerBoxes(k, Apply(k, e));
      } else if !OfBox(e) {
        SyncFewer(k, e);
        FewerBoxes(k, Apply(k, e));
      } else {
        BoxStream(k, e, m);
      }
    }
  }

  lemma FewerBoxes(k: K, k1: K)
    requires Fewer(k, k1)
    ensures k1.boxes == k.boxes
  {
  }

  lemma Joins(b: seq<byte>, msg: seq<byte>, n: nat)
    ensures b + [] == b && [] + b == b && [] + (b + msg) == b + msg
    ensures n <= |b| ==> b[..n] + b[n..] == b
  {
  }

  lemma BoxStream(k: K, e: Event, m: nat)
    requires Inv(k) && Fit(k) && Enabled(k, e) && OfBox(e) && m < MAX_MBOX && !(e == DoBoxOpen(m)) && |k.boxes| == MAX_MBOX
    ensures |DoSync(k, e).boxes| == MAX_MBOX
    ensures k.boxes[m].buf + SentBy(k, e, m) == GotBy(k, e, m) + DoSync(k, e).boxes[m].buf
  {
    hide Inv, Send, Recv, Below, Fit, SendMid, RecvMid;
    FitSound(k);
    match e
    case DoBoxOpen(x) => Joins(k.boxes[m].buf, [], 0);
    case DoSend(c, x, msg) => SendStream(k, c, x, msg, m);
    case DoRecv(c, x, want) => RecvStream(k, c, x, want, m);
  }

  lemma SendStream(k: K, c: nat, x: nat, msg: seq<byte>, m: nat)
    requires Inv(k) && Fit(k) && Enabled(k, DoSend(c, x, msg)) && m < MAX_MBOX && |k.boxes| == MAX_MBOX
    ensures Runs(k, c) && x < MAX_MBOX && |Send(k, c, x, msg).boxes| == MAX_MBOX
    ensures k.boxes[m].buf + SentBy(k, DoSend(c, x, msg), m) == [] + Send(k, c, x, msg).boxes[m].buf
  {
    hide Inv, Send, Below, Fit;
    SendMoves(k, c, x, msg);
    Joins(k.boxes[m].buf, msg, 0);
  }

  lemma RecvStream(k: K, c: nat, x: nat, want: nat, m: nat)
    requires Inv(k) && Fit(k) && Enabled(k, DoRecv(c, x, want)) && m < MAX_MBOX && |k.boxes| == MAX_MBOX
    ensures Runs(k, c) && x < MAX_MBOX && |Recv(k, c, x, want).boxes| == MAX_MBOX
    ensures k.boxes[m].buf + [] == GotBy(k, DoRecv(c, x, want), m) + Recv(k, c, x, want).boxes[m].buf
  {
    hide Inv, Recv, Below, Fit;
    RecvMoves(k, c, x, want);
    Joins(k.boxes[m].buf, [], want);
  }

  ghost function Sent(k: K, es: seq<Event>, m: nat): seq<byte>
    requires Inv(k)
    decreases |es|
  {
    if es == [] then [] else (InvBelow(k); ApplyKeeps(k, es[0]); SentBy(k, es[0], m) + Sent(Apply(k, es[0]), es[1..], m))
  }

  ghost function Got(k: K, es: seq<Event>, m: nat): seq<byte>
    requires Inv(k)
    decreases |es|
  {
    if es == [] then [] else (InvBelow(k); ApplyKeeps(k, es[0]); GotBy(k, es[0], m) + Got(Apply(k, es[0]), es[1..], m))
  }

  /** Over every interleaving, all bytes sent, message after message, are all bytes received followed by
      what is still in the mailbox. */
  lemma {:induction false} MailboxIsStream(k: K, es: seq<Event>, m: nat)
    requires Inv(k) && m < MAX_MBOX && DoBoxOpen(m) !in es
    ensures |k.boxes| == MAX_MBOX && |Run(k, es).boxes| == MAX_MBOX
    ensures k.boxes[m].buf + Sent(k, es, m) == Got(k, es, m) + Run(k, es).boxes[m].buf
    decreases |es|
  {
    hide Inv, Apply, SentBy, GotBy;
    InvBelow(k);
    InvBelow(Run(k, es));
    var b := k.boxes[m].buf;
    if es == [] {
      assert b + [] == [] + b;
    } else {
      var e, rest := es[0], es[1..];
      ApplyKeeps(k, e);
      StreamStep(k, e, m);
      var k1 := Apply(k, e);
      MailboxIsStream(k1, rest, m);
      var s, g, b1, r := SentBy(k, e, m), GotBy(k, e, m), k1.boxes[m].buf, Run(k, es).boxes[m].buf;
      assert b + (s + Sent(k1, rest, m)) == (b + s) + Sent(k1, rest, m);
      assert (g + b1) + Sent(k1, rest, m) == g + (b1 + Sent(k1, rest, m));
      assert g + (Got(k1, rest, m) + r) == (g + Got(k1, rest, m)) + r;
    }
  }
}
