/** Whole runs of the kernel: every interleaving of calls, clock interrupts and reschedules on two cores. */
module KernelRuns {
  import opened Lists
  import opened Queues
  import opened KernelState
  import opened KernelSched
  import opened KernelInv
  import opened KernelLocks

  /** One stretch of kernel code between two points where the kernel lock is free; c is the core. */
  datatype Event =
    | Reschedule(c: nat)
    | ClockCheck(now: nat)
    | DoSleep(c: nat, t: nat, base: nat, now: nat)
    | DoWaitPid(c: nat, pid: int)
    | DoExit(c: nat)
    | DoKill(c: nat, pid: int)
    | DoExec(mode: Mode)
    | DoSemInit(i: nat, val: int)
    | DoSemUp(i: nat)
    | DoSemDown(c: nat, i: nat)
    | DoAcquire(c: nat, i: nat)
    | DoRelease(c: nat, i: nat)
    | DoSemDestroy(i: nat)
    | DoBarrierInit(i: nat, count: nat)
    | DoBarrierWait(c: nat, i: nat)
    | DoBoxOpen(m: nat)
    | DoSend(c: nat, m: nat, msg: seq<byte>)
    | DoRecv(c: nat, m: nat, want: nat)

  /** A process runs on core c and is not inside a mailbox call. */
  predicate User(k: K, c: nat) {
    c < CORES && |k.cur| == CORES && k.cur[c].Task? && k.cur[c].p < |k.procs| && k.procs[k.cur[c].p].call == NoCall
  }

  predicate SemReady(k: K, i: nat) {
    i < MAX_SEM && SemQ(i) in k.made
  }

  /** Nobody waits on semaphore i, so its list head may be initialised. */
  predicate SemIdle(k: K, i: nat) {
    i < MAX_SEM && |k.q| == QUEUES && k.q[SemQ(i)] == []
  }

  /** The process of core c may start this mailbox call, or is inside it. */
  predicate Calls(k: K, c: nat, call: Call) {
    && c < CORES && |k.cur| == CORES && k.cur[c].Task? && k.cur[c].p < |k.procs|
    && (k.procs[k.cur[c].p].call == NoCall || k.procs[k.cur[c].p].call == call)
  }

  /** What the kernel's callers see to. */
  predicate Enabled(k: K, e: Event) {
    match e
    case Reschedule(c) => c < CORES
    case ClockCheck(_) => true
    case DoSleep(c, _, _, _) => User(k, c)
    case DoWaitPid(c, _) => User(k, c)
    case DoExit(c) => User(k, c) && k.cur[c].p != 0
    case DoKill(c, pid) => User(k, c) && k.cur[1 - c] != Task(FindPid(k.procs, pid))
    case DoExec(_) => |k.procs| < MAX_TASK
    case DoSemInit(i, _) => SemIdle(k, i) && |k.sems| == MAX_SEM && !k.sems[i].busy
    case DoSemUp(i) => SemReady(k, i)
    case DoSemDown(c, i) => User(k, c) && SemReady(k, i)
    case DoAcquire(c, i) => User(k, c) && SemReady(k, i) && |k.procs[k.cur[c].p].locks| < MAX_LOCK
    case DoRelease(c, i) => User(k, c) && SemReady(k, i) && k.procs[k.cur[c].p].locks != []
    case DoSemDestroy(i) => SemReady(k, i)
    case DoBarrierInit(i, _) => SemIdle(k, i)
    case DoBarrierWait(c, i) => User(k, c) && SemReady(k, i)
    case DoBoxOpen(m) => m < MAX_MBOX && FullQ(m) !in k.made && EmptyQ(m) !in k.made
    case DoSend(c, m, msg) => m < MAX_MBOX && FullQ(m) in k.made && EmptyQ(m) in k.made && Calls(k, c, Sending(m, msg))
    case DoRecv(c, m, want) => m < MAX_MBOX && FullQ(m) in k.made && EmptyQ(m) in k.made && Calls(k, c, Receiving(m, want))
  }

  /** What every operation needs to be defined. */
  predicate Fit(k: K) {
    && Sound(k) && |k.procs| <= MAX_TASK
    && (forall c :: 0 <= c < CORES ==> Schedulable(k, c) && (k.cur[c].Task? ==> Runs(k, c) && Nowhere(k.q, k.cur[c].p)))
    && (forall p: nat :: p < |k.procs| ==> AllBelow(k.procs[p].locks, MAX_SEM))
  }

  lemma InvFit(k: K)
    requires Inv(k)
    ensures Fit(k)
  {
    InvSited(k);
    LocksBelow(k);
    SitedSound(k);
  }

  lemma FitSound(k: K)
    requires Fit(k)
    ensures Sound(k)
  {
  }

  function DoSched(k: K, e: Event): K
    requires Fit(k) && Enabled(k, e)
  {
    match e
    case Reschedule(c) => Schedule(k, c)
    case ClockCheck(now) => TimerCheck(k, now)
    case DoSleep(c, t, base, now) => Sleep(k, c, t, base, now)
    case DoWaitPid(c, pid) => WaitPid(k, c, pid).0
    case DoExit(c) => Exit(k, c)
    case DoKill(c, pid) => Kill(k, c, pid).0
    case DoExec(mode) => Exec(k, mode)
    case _ => k
  }

  function DoSync(k: K, e: Event): K
    requires Fit(k) && Enabled(k, e)
  {
    match e
    case DoSemInit(i, val) => SemInit(k, i, val)
    case DoSemUp(i) => SemUp(k, i)
    case DoSemDown(c, i) => SemDown(k, c, i)
    case DoAcquire(c, i) => Acquire(k, c, i)
    case DoRelease(c, i) => Release(k, c, i)
    case DoSemDestroy(i) => SemDestroy(k, i)
    case DoBarrierInit(i, count) => BarrierInit(k, i, count)
    case DoBarrierWait(c, i) => BarrierWait(k, c, i)
    case DoBoxOpen(m) => BoxOpen(k, m)
    case DoSend(c, m, msg) => Send(k, c, m, msg)
    case DoRecv(c, m, want) => Recv(k, c, m, want)
    case _ => k
  }

  predicate OfSched(e: Event) {
    e.Reschedule? || e.ClockCheck? || e.DoSleep? || e.DoWaitPid? || e.DoExit? || e.DoKill? || e.DoExec?
  }

  /** One event; nothing happens when its caller may not make it. */
  ghost function Apply(k: K, e: Event): K
    requires Inv(k)
  {
    InvFit(k);
    if !Enabled(k, e) then k else if OfSched(e) then DoSched(k, e) else DoSync(k, e)
  }

  /** Every operation keeps every process in exactly one place. */
  lemma ApplyKeeps(k: K, e: Event)
    requires Inv(k)
    ensures Inv(Apply(k, e))
  {
    hide Inv, Schedule, TimerCheck, Sleep, WaitPid, Exit, Kill, Exec, SemInit, SemUp, SemDown, Acquire, Release, SemDestroy, BarrierWait, BoxOpen, Send, Recv, Sound, Runs, Nowhere, Schedulable, Fit;
    InvFit(k);
    if Enabled(k, e) {
      match e
      case Reschedule(c) => ScheduleKeeps(k, c);
      case ClockCheck(now) => TimerCheckKeeps(k, now);
      case DoSleep(c, t, base, now) => SleepKeeps(k, c, t, base, now);
      case DoWaitPid(c, pid) => WaitPidKeeps(k, c, pid);
      case DoExit(c) => ExitKeeps(k, c);
      case DoKill(c, pid) => KillKeeps(k, c, pid);
      case DoExec(mode) => ExecKeeps(k, mode);
      case DoSemInit(i, val) => SemInitKeeps(k, i, val);
      case DoSemUp(i) => SemUpKeeps(k, i);
      case DoSemDown(c, i) => SemDownKeeps(k, c, i);
      case DoAcquire(c, i) => AcquireKeeps(k, c, i);
      case DoRelease(c, i) => ReleaseKeeps(k, c, i);
      case DoSemDestroy(i) => SemDestroyKeeps(k, i);
      case DoBarrierInit(i, count) => SemInitKeeps(k, i, count);
      case DoBarrierWait(c, i) => BarrierWaitKeeps(k, c, i);
      case DoBoxOpen(m) => BoxOpenKeeps(k, m);
      case DoSend(c, m, msg) => SendKeeps(k, c, m, msg);
      case DoRecv(c, m, want) => RecvKeeps(k, c, m, want);
    }
  }

  ghost function Run(k: K, es: seq<Event>): (r: K)
    requires Inv(k)
    ensures Inv(r)
    decreases |es|
  {
    if es == [] then k else (ApplyKeeps(k, es[0]); Run(Apply(k, es[0]), es[1..]))
  }

  /** The state after boot: the shell runs on core 0, core 1 idles, and no semaphore or mailbox is in use. */
  function Boot(): K {
    K([Proc(1, Running, AutoCleanupOnExit, 0, [], NoCall)], seq(QUEUES, _ => []), {READY, TIMERS}, [Task(0), Idle], 2,
      seq(MAX_SEM, _ => Sem(0, false)), seq(MAX_MBOX, _ => Box([], 0, 0)))
  }

  lemma BootInv()
    ensures Inv(Boot())
  {
    var k := Boot();
    assert OnCore(k.cur, 0) by { assert k.cur[0] == Task(0); }
    assert !Waiting(k.q, 0);
  }

  lemma PlaceOf(k: K, p: nat)
    requires Inv(k) && p < |k.procs|
    ensures |k.q| == QUEUES && |k.cur| == CORES
    ensures k.procs[p].status == Running <==> k.cur[0] == Task(p) || k.cur[1] == Task(p)
    ensures k.procs[p].status == Ready <==> p in k.q[READY]
    ensures k.procs[p].status == Blocked <==> exists h: nat :: h < |k.q| && h != READY && p in k.q[h]
    ensures forall h: nat, g: nat :: h < g < |k.q| ==> p !in k.q[h] || p !in k.q[g]
  {
    assert OnCore(k.cur, p) <==> k.cur[0] == Task(p) || k.cur[1] == Task(p);
    assert Waiting(k.q, p) <==> exists h: nat :: h < |k.q| && h != READY && p in k.q[h];
  }

  lemma QueuesNoDup(k: K)
    requires Inv(k)
    ensures |k.q| == QUEUES && forall h: nat :: h < |k.q| ==> NoDup(k.q[h])
  {
  }

  /** In every reachable state every process is in exactly one place: on one core exactly when it is running,
      on the ready queue exactly when it is ready, on one other queue exactly when it is blocked. */
  lemma ReachablePlaced(es: seq<Event>, p: nat)
    requires Inv(Boot()) ==> p < |Run(Boot(), es).procs|
    ensures Inv(Boot())
    ensures var k := Run(Boot(), es);
      |k.q| == QUEUES && |k.cur| == CORES &&
      (k.procs[p].status == Running <==> k.cur[0] == Task(p) || k.cur[1] == Task(p)) &&
      (k.procs[p].status == Ready <==> p in k.q[READY]) &&
      (k.procs[p].status == Blocked <==> exists h: nat :: h < |k.q| && h != READY && p in k.q[h]) &&
      (forall h: nat, g: nat :: h < g < |k.q| ==> p !in k.q[h] || p !in k.q[g]) &&
      (forall h: nat :: h < |k.q| ==> NoDup(k.q[h]))
  {
    hide Inv, Boot, NoDup, Run;
    BootInv();
    PlaceOf(Run(Boot(), es), p);
    QueuesNoDup(Run(Boot(), es));
  }
}
