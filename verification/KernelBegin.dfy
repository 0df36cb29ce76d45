/** How processes, semaphores and mailboxes begin, and what the calls that look for a process return. */
module KernelBegin {
  import opened Queues
  import opened KernelState
  import opened KernelSched
  import opened KernelInv
  import opened KernelLocks
  import opened KernelRuns
  import opened KernelSync
  import opened KernelWait
  import opened KernelMail
  import opened KernelSleep

  // ---------- Looking for a process ----------

  /** Some process, alive or not, has this id. */
  ghost predicate HasPid(k: K, pid: int) {
    exists p: nat :: p < |k.procs| && k.procs[p].pid == pid
  }

  lemma FoundIff(k: K, pid: int)
    ensures FindPid(k.procs, pid) < |k.procs| <==> HasPid(k, pid)
  {
    if p: nat :| p < |k.procs| && k.procs[p].pid == pid {
      assert FindPid(k.procs, pid) <= p;
    }
  }

  /** do_waitpid returns 1 if and only if some process has the id, other than the ids 0 and 1; otherwise it returns 0
      and changes nothing. */
  lemma WaitPidResult(k: K, c: nat, pid: int)
    requires Inv(k) && Enabled(k, DoWaitPid(c, pid))
    ensures Runs(k, c) && |k.procs| <= MAX_TASK
    ensures var r := WaitPid(k, c, pid);
      (r.1 == 1 <==> pid != 0 && pid != 1 && HasPid(k, pid)) && (r.1 != 1 ==> r == (k, 0))
  {
    hide Inv, BlockOn, HasPid;
    InvRuns(k, c);
    ShellPid(k);
    FoundIff(k, pid);
  }

  /** do_kill returns 1 under the same condition, so also for a process that has been killed before, and it has ended
      then; otherwise it returns 0 and changes nothing. */
  lemma KillResult(k: K, c: nat, pid: int)
    requires Inv(k) && Fit(k) && Enabled(k, DoKill(c, pid))
    ensures var r := Kill(k, c, pid);
      (r.1 == 1 <==> pid != 0 && pid != 1 && HasPid(k, pid)) && (r.1 != 1 ==> r == (k, 0)) &&
      (r.1 == 1 ==> exists p: nat :: p < |k.procs| && k.procs[p].pid == pid && Dead(r.0, p))
  {
    hide Inv, Fit, HasPid, FindPid, Reap, Schedule;
    InvFit(k);
    FoundIff(k, pid);
    FindRange(k.procs, pid);
    if pid != 0 && pid != 1 && FindPid(k.procs, pid) < |k.procs| {
      KillMoves(k, c, pid);
      assert Dead(Kill(k, c, pid).0, FindPid(k.procs, pid));
    }
  }

  // ---------- A new process ----------

  /** do_exec: the new process is the last in the line of ready ones, under an id that no other process has, so that it
      is the one found by it. */
  lemma ExecBegins(k: K, mode: Mode)
    requires Inv(k) && Enabled(k, DoExec(mode))
    ensures var p, r := |k.procs|, Apply(k, DoExec(mode));
      Inv(r) && |r.procs| == p + 1 && r.procs[..p] == k.procs && r.procs[p].status == Ready && r.procs[p].mode == mode &&
      r.procs[p].locks == [] && r.procs[p].call == NoCall && r.procs[p].pid == k.nextPid && !HasPid(k, k.nextPid) &&
      FindPid(r.procs, k.nextPid) == p && |k.q| == QUEUES && |r.q| == QUEUES && r.q[READY] == k.q[READY] + [p] &&
      (forall h: nat :: h < QUEUES && h != READY ==> r.q[h] == k.q[h]) && r.q[WaitQ(p)] == []
  {
    ApplyKeeps(k, DoExec(mode));
    InvFit(k);
    InvRuns(k, 0);
    var p, r := |k.procs|, Apply(k, DoExec(mode));
    FoundIff(k, k.nextPid);
    PidsNew(k);
    FindNew(k.procs, r.procs[p], k.nextPid);
  }

  lemma PidsNew(k: K)
    requires Inv(k)
    ensures !HasPid(k, k.nextPid) && (|k.procs| < MAX_TASK ==> |k.q| == QUEUES && k.q[WaitQ(|k.procs|)] == [])
  {
  }

  lemma {:induction false} FindNew(procs: seq<Proc>, x: Proc, pid: int)
    requires x.pid == pid && forall p: nat :: p < |procs| ==> procs[p].pid != pid
    ensures FindPid(procs + [x], pid) == |procs|
  {
    if procs != [] {
      assert (procs + [x])[0] == procs[0] && (procs + [x])[1..] == procs[1..] + [x];
      FindNew(procs[1..], x, pid);
    }
  }

  lemma {:induction false} ModeStays(k: K, es: seq<Event>, p: nat)
    requires Inv(k) && p < |k.procs|
    ensures p < |Run(k, es).procs| && Run(k, es).procs[p].mode == k.procs[p].mode
    decreases |es|
  {
    hide Inv, Apply;
    if es != [] {
      ApplyKeeps(k, es[0]);
      OnlyActor(k, es[0]);
      ModeStays(Apply(k, es[0]), es[1..], p);
    }
  }

  /** The mode given to do_exec decides how the process ends, whatever happens before: by do_exit it becomes a zombie if
      and only if it was made with EnterZombieOnExit. */
  lemma ModeDecides(k: K, mode: Mode, es: seq<Event>, c: nat)
    requires Inv(k) && Enabled(k, DoExec(mode)) && Inv(Apply(k, DoExec(mode)))
    requires var k1 := Run(Apply(k, DoExec(mode)), es); Enabled(k1, DoExit(c)) && k1.cur[c].p == |k.procs|
    ensures var p, r := |k.procs|, Apply(Run(Apply(k, DoExec(mode)), es), DoExit(c));
      p < |r.procs| && r.procs[p].status == (if mode == EnterZombieOnExit then Zombie else Exited)
  {
    hide Inv, Fit, Exit, Run, Enabled;
    var p, k0 := |k.procs|, Apply(k, DoExec(mode));
    ExecBegins(k, mode);
    ModeStays(k0, es, p);
    var k1 := Run(k0, es);
    InvFit(k1);
    ExitEnds(k1, c);
  }

  lemma ExitEnds(k: K, c: nat)
    requires Inv(k) && Fit(k) && Enabled(k, DoExit(c))
    ensures k.cur[c].p < |k.procs| && k.cur[c].p < |Apply(k, DoExit(c)).procs|
    ensures Apply(k, DoExit(c)).procs[k.cur[c].p].status == (if k.procs[k.cur[c].p].mode == AutoCleanupOnExit then Exited else Zombie)
  {
    hide Inv, Fit, Exit;
    ExitMoves(k, c);
  }

  // ---------- Semaphores and mailboxes ----------

  lemma InitBegins(k: K, i: nat, val: int)
    requires Inv(k) && Enabled(k, DoSemInit(i, val))
    ensures var r := Apply(k, DoSemInit(i, val));
      Inv(r) && SemSound(k, i) && SemSound(r, i) && r.sems[i].s == val && r.sems[i].busy && r.q[SemQ(i)] == [] && r.q == k.q &&
      forall j: nat :: j < MAX_SEM && j != i ==> r.sems[j] == k.sems[j]
  {
    ApplyKeeps(k, DoSemInit(i, val));
    InvFit(k);
    InvSem(k, i);
  }

  /** A semaphore initialised to val: over every run of downs and ups, downs that completed and the count make val and the
      ups; while the count is positive nobody waits; and nobody waits who came before one that was let through. */
  lemma SemFromInit(k: K, i: nat, val: nat, es: seq<Event>)
    requires Inv(k) && Enabled(k, DoSemInit(i, val)) && AllFair(es, i)
    ensures Inv(Apply(k, DoSemInit(i, val)))
    ensures var k1 := Apply(k, DoSemInit(i, val)); var acts, r := Acts(k1, es, i), Run(k1, es);
      SemSound(r, i) && SemSafe(r, i) && Completed(acts) + r.sems[i].s == val + Raised(acts) &&
      Served(acts) + r.q[SemQ(i)] == Arrived(acts)
  {
    hide Inv, Apply, Run, Acts, Fair, Enabled;
    InitBegins(k, i, val);
    var k1 := Apply(k, DoSemInit(i, val));
    SemRunSafe(k1, es, i);
    SemRunBalances(k1, es, i);
    SemRunFifo(k1, es, i);
    NoneBefore(Arrived(Acts(k1, es, i)));
  }

  /** Is semaphore i taken by e? */
  predicate Takes(k: K, e: Event, i: nat) {
    Enabled(k, e) && match e case DoSemInit(j, _) => j == i case DoBarrierInit(j, _) => j == i case _ => false
  }

  lemma {:induction false} ReleaseBusy(k: K, locks: seq<nat>, n: nat, i: nat)
    requires Sound(k) && n <= |locks| && AllBelow(locks, MAX_SEM) && i < MAX_SEM
    ensures ReleaseFrom(k, locks, n).sems[i].busy == k.sems[i].busy
    decreases |locks| - n
  {
    if n < |locks| {
      var l := locks[n];
      var k1 := if k.q[SemQ(l)] != [] then Wake(k, SemQ(l)) else k.(sems := k.sems[l := k.sems[l].(s := 1)]);
      ReleaseBusy(k1, locks, n + 1, i);
    }
  }

  lemma KillBusy(k: K, c: nat, pid: int, i: nat)
    requires Inv(k) && Fit(k) && c < CORES && i < MAX_SEM
    ensures |Kill(k, c, pid).0.sems| == MAX_SEM && Kill(k, c, pid).0.sems[i].busy == k.sems[i].busy
  {
    hide Inv, Schedule, Wake, WakeAll, ReleaseFrom, FindPid, Below;
    var p := FindPid(k.procs, pid);
    FindRange(k.procs, pid);
    if pid != 0 && pid != 1 && p < |k.procs| {
      var s := k.procs[p].status;
      SoundRemove(k.q, p, |k.procs|);
      var k1 := if s == Ready || s == Blocked then k.(q := Remove(k.q, p)) else k;
      ReleaseBusy(k1, k1.procs[p].locks, 0, i);
      ReleaseCore(k1, k1.procs[p].locks, 0);
      WakeAllCore(ReleaseFrom(k1, k1.procs[p].locks, 0), WaitQ(p));
      DispatchSound(Reap(k, p), c);
      if k.cur[c] == Task(p) {
        ScheduleCore(Reap(k, p), c);
      }
    }
  }

  lemma SchedBusy(k: K, e: Event, i: nat)
    requires Inv(k) && Fit(k) && Enabled(k, e) && OfSched(e) && i < MAX_SEM
    ensures |DoSched(k, e).sems| == MAX_SEM && DoSched(k, e).sems[i].busy == k.sems[i].busy
  {
    hide Inv, Fit, Kill, DoSched;
    InvSem(k, i);
    if e.DoKill? {
      InvFit(k);
      KillBusy(k, e.c, e.pid, i);
      KillIsSched(k, e);
    } else {
      BoxUntouched(k, e);
      SchedElsewhere(k, e, FullQ(0));
    }
  }

  lemma BoxUntouched(k: K, e: Event)
    requires Fit(k) && Enabled(k, e) && OfSched(e) && !e.DoKill?
    ensures FullQ(0) < QUEUES && FullQ(0) != READY && !Touches(k, e, FullQ(0))
  {
  }

  lemma KillIsSched(k: K, e: Event)
    requires Fit(k) && Enabled(k, e) && e.DoKill?
    ensures DoSched(k, e) == Kill(k, e.c, e.pid).0
  {
  }

  lemma SyncBusy(k: K, e: Event, i: nat)
    requires Inv(k) && Fit(k) && Enabled(k, e) && !OfSched(e) && i < MAX_SEM && e != DoSemDestroy(i)
    ensures |DoSync(k, e).sems| == MAX_SEM && (DoSync(k, e).sems[i].busy <==> k.sems[i].busy || Takes(k, e, i))
  {
    hide Inv, Fit, SemUp, SemDown, Acquire, Release, BarrierWait, Send, Recv, SemDestroy;
    InvSem(k, i);
    InvFit(k);
    match e
    case DoSemInit(j, val) =>
    case DoSemUp(j) => UpMoves(k, j);
    case DoSemDown(c, j) => DownMoves(k, c, j);
    case DoAcquire(c, j) =>
      AcquireMoves(k, c, j);
      DownMoves(WithLocks(k, c, k.procs[k.cur[c].p].locks + [j]), c, j);
    case DoRelease(c, j) =>
      UpMoves(k, j);
      ReleaseKeeps(k, c, j);
      ReleaseSems(k, c, j);
    case DoSemDestroy(j) => DestroyMoves(k, j);
    case DoBarrierInit(j, count) =>
    case DoBarrierWait(c, j) => BarrierMoves(k, c, j);
    case DoBoxOpen(m) =>
    case DoSend(c, m, msg) => SendMoves(k, c, m, msg);
    case DoRecv(c, m, want) => RecvMoves(k, c, m, want);
  }

  lemma ReleaseSems(k: K, c: nat, i: nat)
    requires Runs(k, c) && i < MAX_SEM && k.procs[k.cur[c].p].locks != [] && k.cur[c].p !in k.q[SemQ(i)]
    ensures Release(k, c, i).sems == SemUp(k, i).sems
  {
    hide SemUp;
  }

  /** A semaphore is in use from its initialisation to its destruction. */
  lemma BusyStep(k: K, e: Event, i: nat)
    requires Inv(k) && i < MAX_SEM && e != DoSemDestroy(i)
    ensures |k.sems| == MAX_SEM && |Apply(k, e).sems| == MAX_SEM && (Apply(k, e).sems[i].busy <==> k.sems[i].busy || Takes(k, e, i))
  {
    hide Inv, Fit, DoSched, DoSync;
    InvSem(k, i);
    InvFit(k);
    if Enabled(k, e) {
      if OfSched(e) {
        SchedBusy(k, e, i);
      } else {
        SyncBusy(k, e, i);
      }
    }
  }

  lemma {:induction false} BusyRun(k: K, es: seq<Event>, i: nat)
    requires Inv(k) && i < MAX_SEM && DoSemDestroy(i) !in es && |k.sems| == MAX_SEM && k.sems[i].busy
    ensures |Run(k, es).sems| == MAX_SEM && Run(k, es).sems[i].busy
    decreases |es|
  {
    hide Inv, Apply, Takes;
    if es != [] {
      BusyStep(k, es[0], i);
      ApplyKeeps(k, es[0]);
      BusyRun(Apply(k, es[0]), es[1..], i);
    }
  }

  /** While a semaphore is in use do_sem_init cannot take it, whatever else happens; do_sem_destroy makes it free to be
      taken again. */
  lemma SemInUse(k: K, i: nat, val: int, es: seq<Event>, again: int)
    requires Inv(k) && Enabled(k, DoSemInit(i, val)) && DoSemDestroy(i) !in es
    ensures Inv(Apply(k, DoSemInit(i, val)))
    ensures var r := Run(Apply(k, DoSemInit(i, val)), es);
      !Enabled(r, DoSemInit(i, again)) && (Enabled(r, DoSemDestroy(i)) ==> Enabled(Apply(r, DoSemDestroy(i)), DoSemInit(i, again)))
  {
    hide Inv, Run;
    InitBegins(k, i, val);
    InvSem(Apply(k, DoSemInit(i, val)), i);
    BusyRun(Apply(k, DoSemInit(i, val)), es, i);
    var r := Run(Apply(k, DoSemInit(i, val)), es);
    InvFit(r);
    if Enabled(r, DoSemDestroy(i)) {
      DestroyMoves(r, i);
    }
  }

  lemma OpenBegins(k: K, m: nat)
    requires Inv(k) && Enabled(k, DoBoxOpen(m))
    ensures var r := Apply(k, DoBoxOpen(m));
      Inv(r) && m < MAX_MBOX && |k.boxes| == MAX_MBOX && |r.boxes| == MAX_MBOX && r.boxes[m] == Box([], 0, 0) &&
      !Enabled(r, DoBoxOpen(m)) && (forall x: nat :: x < MAX_MBOX && x != m ==> r.boxes[x] == k.boxes[x])
  {
    ApplyKeeps(k, DoBoxOpen(m));
    InvFit(k);
    InvBelow(k);
  }

  /** A mailbox just opened: whatever is received from it, in order, is the front of what was sent to it. */
  lemma StreamFromOpen(k: K, m: nat, es: seq<Event>)
    requires Inv(k) && Enabled(k, DoBoxOpen(m)) && DoBoxOpen(m) !in es
    ensures Inv(Apply(k, DoBoxOpen(m)))
    ensures var k1 := Apply(k, DoBoxOpen(m)); Got(k1, es, m) <= Sent(k1, es, m)
  {
    hide Inv, Apply, Run, Got, Sent, Enabled;
    OpenBegins(k, m);
    var k1 := Apply(k, DoBoxOpen(m));
    MailboxIsStream(k1, es, m);
    assert [] + Sent(k1, es, m) == Sent(k1, es, m);
  }

  /** Does e make a sender wait at mailbox m? */
  predicate SenderBlocks(k: K, e: Event, m: nat)
    requires |k.boxes| == MAX_MBOX
  {
    e.DoSend? && e.m == m && Enabled(k, e) && |k.boxes[m].buf| + |e.msg| > MBOX_SIZE
  }

  predicate ReceiverBlocks(k: K, e: Event, m: nat)
    requires |k.boxes| == MAX_MBOX
  {
    e.DoRecv? && e.m == m && Enabled(k, e) && |k.boxes[m].buf| < e.want
  }

  ghost function SendersBlocked(k: K, es: seq<Event>, m: nat): nat
    requires Inv(k)
    decreases |es|
  {
    if es == [] then 0
    else (InvBelow(k); ApplyKeeps(k, es[0]); (if SenderBlocks(k, es[0], m) then 1 else 0) + SendersBlocked(Apply(k, es[0]), es[1..], m))
  }

  ghost function ReceiversBlocked(k: K, es: seq<Event>, m: nat): nat
    requires Inv(k)
    decreases |es|
  {
    if es == [] then 0
    else (InvBelow(k); ApplyKeeps(k, es[0]); (if ReceiverBlocks(k, es[0], m) then 1 else 0) + ReceiversBlocked(Apply(k, es[0]), es[1..], m))
  }

  lemma CountStep(k: K, e: Event, m: nat)
    requires Inv(k) && m < MAX_MBOX && !(e == DoBoxOpen(m))
    ensures Inv(Apply(k, e)) && |k.boxes| == MAX_MBOX && |Apply(k, e).boxes| == MAX_MBOX
    ensures Apply(k, e).boxes[m].fullCount == k.boxes[m].fullCount + (if SenderBlocks(k, e, m) then 1 else 0)
    ensures Apply(k, e).boxes[m].emptyCount == k.boxes[m].emptyCount + (if ReceiverBlocks(k, e, m) then 1 else 0)
  {
    hide Inv, DoSched, Send, Recv, Below, Fewer, Fit;
    InvFit(k);
    InvBelow(k);
    ApplyKeeps(k, e);
    InvBelow(Apply(k, e));
    if Enabled(k, e) {
      if OfSched(e) {
        SchedFewer(k, e);
        FewerBoxes(k, Apply(k, e));
      } else if !OfBox(e) {
        SyncFewer(k, e);
        FewerBoxes(k, Apply(k, e));
      } else {
        FitSound(k);
        match e
        case DoBoxOpen(x) =>
        case DoSend(c, x, msg) => SendMoves(k, c, x, msg);
        case DoRecv(c, x, want) => RecvMoves(k, c, x, want);
      }
    }
  }

  /** The counts that the mailbox calls return say how often a sender and how often a receiver has had to wait since the
      mailbox was opened. */
  lemma {:induction false} CountsBlocked(k: K, es: seq<Event>, m: nat)
    requires Inv(k) && m < MAX_MBOX && DoBoxOpen(m) !in es
    ensures |k.boxes| == MAX_MBOX && |Run(k, es).boxes| == MAX_MBOX
    ensures Run(k, es).boxes[m].fullCount == k.boxes[m].fullCount + SendersBlocked(k, es, m)
    ensures Run(k, es).boxes[m].emptyCount == k.boxes[m].emptyCount + ReceiversBlocked(k, es, m)
    decreases |es|
  {
    hide Inv, Apply, SenderBlocks, ReceiverBlocks;
    InvBelow(k);
    if es != [] {
      CountStep(k, es[0], m);
      CountsBlocked(Apply(k, es[0]), es[1..], m);
    }
  }
}
