/** The kernel's process management as it is coded: PCBs and queues changed in place. */
module Kernel {
  import opened Lists
  import opened Queues
  import opened KernelState
  import opened KernelSched
  import opened KernelInv
  import opened KernelLocks
  import opened KernelEffects
  import opened KernelRuns

  class Kernel {
    var procs: seq<Proc>
    var cur: seq<Task>
    var nextPid: nat
    var sems: seq<Sem>
    const lists: Queues
    /** The byte arrays of the mailboxes, and how many bytes of each are in use. */
    const msg: array2<byte>
    var index: seq<nat>
    var fullCount: seq<nat>
    var emptyCount: seq<nat>

    ghost predicate BoxShape()
      reads this`index, this`fullCount, this`emptyCount, msg
    {
      && msg.Length0 == MAX_MBOX && msg.Length1 == MBOX_SIZE
      && |index| == |fullCount| == |emptyCount| == MAX_MBOX
      && forall m :: 0 <= m < MAX_MBOX ==> index[m] <= MBOX_SIZE
    }

    /** The first n bytes of mailbox m. */
    ghost function Bytes(m: nat, n: nat): (r: seq<byte>)
      requires m < msg.Length0 && n <= msg.Length1
      reads msg
      ensures |r| == n && forall i :: 0 <= i < n ==> r[i] == msg[m, i]
    {
      if n == 0 then [] else Bytes(m, n - 1) + [msg[m, n - 1]]
    }

    ghost function BoxesTo(n: nat): (r: seq<Box>)
      requires BoxShape() && n <= MAX_MBOX
      reads this`index, this`fullCount, this`emptyCount, msg
      ensures |r| == n && forall m :: 0 <= m < n ==> r[m] == Box(Bytes(m, index[m]), fullCount[m], emptyCount[m])
    {
      if n == 0 then [] else BoxesTo(n - 1) + [Box(Bytes(n - 1, index[n - 1]), fullCount[n - 1], emptyCount[n - 1])]
    }

    ghost function Boxes(): (r: seq<Box>)
      requires BoxShape()
      reads this`index, this`fullCount, this`emptyCount, msg
      ensures |r| == MAX_MBOX
      ensures forall m :: 0 <= m < MAX_MBOX ==> r[m] == Box(Bytes(m, index[m]), fullCount[m], emptyCount[m])
    {
      BoxesTo(MAX_MBOX)
    }

    ghost function State(): K
      requires BoxShape()
      reads this, lists, msg
    {
      K(procs, lists.q, lists.made, cur, nextPid, sems, Boxes())
    }

    /** The heap lists are well formed and the tables have their sizes. */
    ghost predicate Shape()
      reads this, lists, lists.pcb, lists.heads, msg
    {
      && BoxShape() && lists.Valid() && |lists.pcb| == MAX_TASK && |lists.heads| == QUEUES
      && |procs| <= MAX_TASK && Sound(State())
    }

    ghost predicate Valid()
      reads this, lists, lists.pcb, lists.heads, msg
    {
      Shape() && Inv(State())
    }

    /** After boot. */
    constructor ()
      ensures Valid() && State() == Boot() && fresh(lists) && fresh(lists.pcb) && fresh(lists.heads) && fresh(msg)
    {
      hide Inv, Queues.Valid, Once, Below, Sited, Placed, Nowhere, Add, Remove, Bytes;
      procs := [Proc(1, Running, AutoCleanupOnExit, 0, [], NoCall)];
      cur := [Task(0), Idle];
      nextPid := 2;
      sems := seq(MAX_SEM, _ => Sem(0, false));
      lists := new Queues(MAX_TASK, QUEUES);
      msg := new byte[MAX_MBOX, MBOX_SIZE];
      index, fullCount, emptyCount := seq(MAX_MBOX, _ => 0), seq(MAX_MBOX, _ => 0), seq(MAX_MBOX, _ => 0);
      new;
      lists.Init(READY);
      lists.Init(TIMERS);
      BootInv();
      assert Boxes() == Boot().boxes;
      assert sems == Boot().sems;
      assert State() == Boot();
      InvSited(State());
    }

    /** The first half of do_scheduler: the running process lines up, unless it cannot run on. */
    method LineUp(c: nat)
      requires Shape() && c < CORES && READY in lists.made
      requires cur[c].Task? && Live(procs[cur[c].p].status) && procs[cur[c].p].status != Blocked ==> Nowhere(lists.q, cur[c].p)
      modifies this`procs, lists`q, lists.pcb, lists.heads
      ensures Shape() && Schedulable(old(State()), c) && State() == PutBack(old(State()), c)
    {
      hide Queues.Valid, BoxShape, Boxes, Below, Once, Nowhere;
      DispatchSound(State(), c);
      if cur[c].Task? {
        var p := cur[c].p;
        SoundAdd(lists.q, READY, p, |procs|);
        if procs[p].status != Blocked && procs[p].status != Exited && procs[p].status != Zombie {
          procs := WithStatus(procs, p, Ready);
          if procs[p].pid != 0 {
            lists.AddTail(p, READY);
          }
        }
      }
    }

    /** The second half: the core takes the first ready process, or idles. */
    method TakeNext(c: nat)
      requires Shape() && c < CORES && READY in lists.made
      modifies this`procs, this`cur, lists`q, lists.pcb, lists.heads
      ensures Shape() && Schedulable(old(State()), c) && State() == Dispatch(old(State()), c)
    {
      hide Queues.Valid, BoxShape, Boxes, Below, Once, Nowhere, Remove, Without, WithStatus, PutBack, Schedule;
      DispatchSound(State(), c);
      var e := lists.Empty(READY);
      if !e {
        var next := lists.First(READY);
        SoundRemove(lists.q, next, |procs|);
        lists.Del(next, READY, 0);
        procs := WithStatus(procs, next, Running);
        cur := cur[c := Task(next)];
      } else {
        cur := cur[c := Idle];
      }
    }

    /** do_scheduler */
    method DoScheduler(c: nat)
      requires Shape() && c < CORES && READY in lists.made
      requires cur[c].Task? && Live(procs[cur[c].p].status) && procs[cur[c].p].status != Blocked ==> Nowhere(lists.q, cur[c].p)
      modifies this`procs, this`cur, lists`q, lists.pcb, lists.heads
      ensures Shape() && Schedulable(old(State()), c) && State() == Schedule(old(State()), c)
    {
      hide Shape, PutBack, Dispatch, Nowhere;
      LineUp(c);
      TakeNext(c);
    }

    /** The first waiter of queue h is woken. */
    method WakeFirst(h: nat)
      requires Shape() && h < QUEUES && h != READY && h in lists.made && READY in lists.made && lists.q[h] != []
      modifies this`procs, lists`q, lists.pcb, lists.heads
      ensures Shape() && State() == Wake(old(State()), h)
    {
      hide Queues.Valid, BoxShape, Boxes, Below, Once, Nowhere, Remove, Without;
      var p := lists.First(h);
      assert p < |procs| by { FirstBelow(lists.q, h, |procs|); }
      MoveReadySound(State(), p);
      RemoveGone(lists.q, p);
      procs := WithStatus(procs, p, Ready);
      lists.Del(p, h, 0);
      lists.AddTail(p, READY);
    }

    /** The loops that let all waiters of queue h go. */
    method WakeEvery(h: nat)
      requires Shape() && h < QUEUES && h != READY && h in lists.made && READY in lists.made
      modifies this`procs, lists`q, lists.pcb, lists.heads
      ensures Shape() && State() == WakeAll(old(State()), h)
    {
      hide Queues.Valid, BoxShape, Boxes, Below, Wake;
      ghost var k := State();
      var e := lists.Empty(h);
      while !e
        invariant Shape() && WakeAll(State(), h) == WakeAll(k, h) && lists.made == k.made
        invariant e <==> lists.q[h] == []
        decreases |lists.q[h]|
      {
        WakeFirst(h);
        e := lists.Empty(h);
      }
    }

    /** The running process of core c waits on queue h. */
    method BlockHere(c: nat, h: nat)
      requires Shape() && Runs(State(), c) && Nowhere(lists.q, cur[c].p)
      requires h < QUEUES && h != READY && h in lists.made && READY in lists.made
      modifies this`procs, this`cur, lists`q, lists.pcb, lists.heads
      ensures Shape() && State() == BlockOn(old(State()), c, h)
    {
      hide Queues.Valid, BoxShape, Boxes, Below, Once, Nowhere, Schedule, Remove, Without;
      var p := cur[c].p;
      SoundAdd(lists.q, h, p, |procs|);
      procs := WithStatus(procs, p, Blocked);
      lists.AddTail(p, h);
      DoScheduler(c);
    }

    /** One step of timer_check, at the sleeper whose list node is given. */
    method CheckOne(now: nat, node: ListNode, ghost i: nat) returns (ghost j: nat, next: ListNode)
      requires Shape() && Sited(State()) && READY in lists.made && TIMERS in lists.made && i < |lists.q[TIMERS]|
      requires node == At(lists.heads[TIMERS], lists.Nodes(lists.q[TIMERS]), i + 1)
      modifies this`procs, lists`q, lists.pcb, lists.heads
      ensures Shape() && Sited(State()) && j <= |lists.q[TIMERS]| && |lists.q[TIMERS]| - j < |old(lists.q[TIMERS])| - i
      ensures next == At(lists.heads[TIMERS], lists.Nodes(lists.q[TIMERS]), j + 1)
      ensures CheckFrom(State(), j, now) == CheckFrom(old(State()), i, now)
    {
      hide BoxShape, Boxes, Once, Placed, Sited, Queues.Rings, Queues.Loose, Queues.Nodes, At, Nowhere, CheckFrom, Cut, MoveReady;
      lists.Walk(TIMERS, i);
      var p := lists.Entry(node);
      assert p == lists.q[TIMERS][i] by { lists.SameEntry(p, lists.q[TIMERS][i]); }
      assert p < |procs| by { MemberBelow(lists.q, TIMERS, i, |procs|); }
      next := lists.Next(node, TIMERS, i + 1);
      if procs[p].wake <= now {
        CheckDue(State(), i, now);
        lists.WalkCut(TIMERS, lists.q[TIMERS], i);
        MoveDue(p, i);
        j := i;
      } else {
        CheckSkip(State(), i, now);
        j := i + 1;
      }
    }

    /** A sleeper is made ready. */
    method MoveDue(p: nat, ghost i: nat)
      requires Shape() && READY in lists.made && TIMERS in lists.made && i < |lists.q[TIMERS]| && p == lists.q[TIMERS][i] && p < |procs|
      modifies this`procs, lists`q, lists.pcb, lists.heads
      ensures Shape() && State() == MoveReady(old(State()), p)
    {
      hide BoxShape, Boxes, Once, Queues.Rings, Queues.Loose, Remove, Without, Nowhere;
      RemoveGone(lists.q, p);
      MoveReadySound(State(), p);
      procs := WithStatus(procs, p, Ready);
      lists.Del(p, TIMERS, i);
      lists.AddTail(p, READY);
    }

    /** timer_check */
    method CheckTimers(now: nat)
      requires Valid()
      modifies this`procs, lists`q, lists.pcb, lists.heads
      ensures Valid() && State() == TimerCheck(old(State()), now)
    {
      hide Inv, Sited, Shape, CheckFrom;
      ValidParts();
      InvSited(State());
      SitedMade(State());
      TimerCheckKeeps(State(), now);
      CheckAll(now);
    }

    lemma ValidParts()
      requires Valid()
      ensures Shape() && BoxShape() && Sound(State())
    {
      hide Inv;
    }

    /** Its loop: a walk along the sleepers, each due one moved as it is passed. */
    method CheckAll(now: nat)
      requires Shape() && Sited(State()) && READY in lists.made && TIMERS in lists.made
      modifies this`procs, lists`q, lists.pcb, lists.heads
      ensures Shape() && State() == CheckFrom(old(State()), 0, now)
    {
      hide BoxShape, Boxes, Once, Sited, Queues.Rings, Queues.Loose, Queues.Nodes, At, CheckFrom;
      ghost var k := State();
      var node := lists.Front(TIMERS);
      ghost var i: nat := 0;
      var e := lists.Empty(TIMERS);
      lists.Walk(TIMERS, 0);
      while !e && node != lists.heads[TIMERS]
        invariant Shape() && Sited(State()) && i <= |lists.q[TIMERS]| && lists.made == k.made
        invariant node == At(lists.heads[TIMERS], lists.Nodes(lists.q[TIMERS]), i + 1)
        invariant node == lists.heads[TIMERS] <==> i == |lists.q[TIMERS]|
        invariant e <==> lists.q[TIMERS] == []
        invariant CheckFrom(State(), i, now) == CheckFrom(k, 0, now)
        decreases |lists.q[TIMERS]| - i
      {
        i, node := CheckOne(now, node, i);
        lists.Walk(TIMERS, i);
        e := lists.Empty(TIMERS);
      }
      CheckDone(State(), now);
    }

    /** do_sleep */
    method DoSleep(c: nat, t: nat, base: nat, now: nat)
      requires Valid() && c < CORES && cur[c].Task?
      modifies this`procs, this`cur, lists`q, lists.pcb, lists.heads
      ensures Runs(old(State()), c) && State() == Sleep(old(State()), c, t, base, now) && Valid()
    {
      hide Inv, BoxShape, Boxes, Below, Queues.Valid, BlockOn, Nowhere, Remove;
      InvSited(State());
      SitedMade(State());
      SleepKeeps(State(), c, t, base, now);
      var p := cur[c].p;
      assert Nowhere(lists.q, p) by { SitedSound(State()); }
      procs := procs[p := procs[p].(wake := U64(now + U64(t * base)))];
      lists.DelLoose(p);
      BlockHere(c, TIMERS);
    }

    /** The search of the process table in do_waitpid and do_kill. */
    method FindPcb(pid: int) returns (i: nat)
      ensures i == FindPid(procs, pid)
    {
      i := 0;
      while i < |procs|
        invariant i <= |procs| && forall j :: 0 <= j < i ==> procs[j].pid != pid
      {
        if procs[i].pid == pid {
          break;
        }
        i := i + 1;
      }
      FindUnique(procs, pid, i);
    }

    /** do_waitpid */
    method DoWaitPid(c: nat, pid: int) returns (ret: int)
      requires Valid() && c < CORES && cur[c].Task?
      modifies this`procs, this`cur, lists`q, lists.pcb, lists.heads
      ensures Runs(old(State()), c) && (State(), ret) == WaitPid(old(State()), c, pid) && Valid()
    {
      hide Inv, BoxShape, Boxes, Below, Queues.Valid, BlockOn, Nowhere, FindPid;
      InvSited(State());
      SitedMade(State());
      ShellPid(State());
      WaitPidKeeps(State(), c, pid);
      if pid == 1 || pid == 0 {
        return 0;
      }
      var i := FindPcb(pid);
      FindSound(procs, pid);
      if i == |procs| {
        return 0;
      }
      assert Nowhere(lists.q, cur[c].p) by { SitedSound(State()); }
      BlockHere(c, WaitQ(i));
      ret := 1;
    }

    /** The loop over a wait list, which only takes off blocked processes: it ends because all of them are. */
    method WakeWaiters(h: nat)
      requires Shape() && AllBlocked(State(), h) && h < QUEUES && h != READY && h in lists.made && READY in lists.made
      modifies this`procs, lists`q, lists.pcb, lists.heads
      ensures Shape() && State() == WakeAll(old(State()), h)
    {
      hide Queues.Valid, BoxShape, Boxes, Below, Wake, AllBlocked;
      ghost var k := State();
      var e := lists.Empty(h);
      while !e
        invariant Shape() && AllBlocked(State(), h) && WakeAll(State(), h) == WakeAll(k, h) && lists.made == k.made
        invariant e <==> lists.q[h] == []
        decreases |lists.q[h]|
      {
        var p := lists.First(h);
        WakeBlocked(State(), h);
        if procs[p].status == Blocked {
          WakeFirst(h);
        }
        e := lists.Empty(h);
      }
    }

    /** do_exit, without giving the pages back. */
    method DoExit(c: nat)
      requires Valid() && c < CORES && cur[c].Task? && cur[c].p != 0
      modifies this`procs, this`cur, lists`q, lists.pcb, lists.heads
      ensures Runs(old(State()), c) && |old(State()).procs| <= MAX_TASK && State() == Exit(old(State()), c) && Valid()
    {
      hide Inv, Sited, BoxShape, Boxes, Below, Queues.Valid, WakeAll, Schedule, Nowhere;
      InvSited(State());
      SitedMade(State());
      ExitKeeps(State(), c);
      ghost var k := State();
      var p := cur[c].p;
      PidZeroSited(k, p);
      procs := procs[p := procs[p].(pid := 0)];
      WakeAllCore(State(), WaitQ(p));
      SitedBlocked(State(), WaitQ(p));
      WakeWaiters(WaitQ(p));
      if procs[p].mode == AutoCleanupOnExit {
        procs := WithStatus(procs, p, Exited);
      } else {
        procs := WithStatus(procs, p, Zombie);
      }
      DoScheduler(c);
    }

    /** do_exec, as far as processes and queues go. */
    method DoExec(mode: Mode) returns (pid: nat)
      requires Valid() && |procs| < MAX_TASK
      modifies this`procs, this`nextPid, lists`q, lists`made, lists.pcb, lists.heads
      ensures Sound(old(State())) && State() == Exec(old(State()), mode) && Valid() && pid == old(nextPid)
    {
      hide Inv, BoxShape, Boxes, Below, Queues.Valid, Nowhere, Once;
      InvSited(State());
      SitedMade(State());
      ExecKeeps(State(), mode);
      ghost var k := State();
      var p := |procs|;
      NewFits(k);
      procs := procs + [Proc(nextPid, Ready, mode, 0, [], NoCall)];
      nextPid := nextPid + 1;
      lists.Init(WaitQ(p));
      lists.AddTail(p, READY);
      InvSited(Exec(k, mode));
      pid := procs[p].pid;
    }

    /** list_del of a process that is on some queue. */
    method Unlink(p: nat)
      requires Shape() && Sited(State()) && p < |procs| && (procs[p].status == Ready || procs[p].status == Blocked)
      modifies lists`q, lists.pcb, lists.heads
      ensures Shape() && State() == old(State()).(q := Remove(old(lists.q), p))
    {
      hide Queues.Valid, BoxShape, Boxes, Below, Once, Placed, Remove;
      SoundRemove(lists.q, p, |procs|);
      ghost var h, i := StandsAt(State(), p);
      lists.Del(p, h, i);
    }

    /** The loop of do_kill over the recorded locks. */
    method ReleaseLocks(p: nat)
      requires Shape() && p < |procs| && READY in lists.made && |procs[p].locks| <= MAX_LOCK
      requires forall i :: 0 <= i < |procs[p].locks| ==> procs[p].locks[i] < MAX_SEM && SemQ(procs[p].locks[i]) in lists.made
      modifies this`procs, this`sems, lists`q, lists.pcb, lists.heads
      ensures Shape() && State() == ReleaseFrom(old(State()), old(procs[p].locks), 0)
    {
      hide Queues.Valid, BoxShape, Boxes, Below, Wake;
      ghost var k := State();
      ghost var locks := procs[p].locks;
      for i := 0 to |procs[p].locks|
        invariant Shape() && p < |procs| && procs[p].locks == locks && lists.made == k.made
        invariant ReleaseFrom(State(), locks, i) == ReleaseFrom(k, locks, 0)
      {
        var l := procs[p].locks[i];
        var e := lists.Empty(SemQ(l));
        ghost var k1 := State();
        if !e {
          WakeIds(k1, SemQ(l));
          WakeFirst(SemQ(l));
        } else {
          sems := sems[l := sems[l].(s := 1)];
        }
        assert State() == ReleaseOne(k1, l);
      }
    }

    /** do_kill of a whole process, without giving the pages back. */
    method DoKill(c: nat, pid: int) returns (ret: int)
      requires Valid() && c < CORES && cur[1 - c] != Task(FindPid(procs, pid))
      modifies this`procs, this`cur, this`sems, lists`q, lists.pcb, lists.heads
      ensures Fit(old(State())) && (State(), ret) == Kill(old(State()), c, pid) && Valid()
    {
      hide Inv, Sited, BoxShape, Boxes, Below, Queues.Valid, Schedule, Nowhere, FindPid, Reap;
      InvFit(State());
      InvSited(State());
      SitedMade(State());
      KillKeeps(State(), c, pid);
      ShellPid(State());
      if pid == 0 || pid == 1 {
        return 0;
      }
      var p := FindPcb(pid);
      FindSound(procs, pid);
      if p == |procs| {
        return 0;
      }
      KillOne(c, p);
      if cur[c] == Task(p) {
        DoScheduler(c);
      }
      ret := 1;
    }

    /** The victim leaves the queue it is on. */
    method TakeOff(p: nat)
      requires Shape() && Sited(State()) && p < |procs|
      modifies lists`q, lists.pcb, lists.heads
      ensures Shape() && State() == Unlinked(old(State()), p)
    {
      hide Queues.Valid, BoxShape, Boxes, Below, Once, Placed, Remove;
      if procs[p].status == Ready || procs[p].status == Blocked {
        Unlink(p);
      }
    }

    /** What do_kill does to the process it found. */
    method KillOne(c: nat, p: nat)
      requires Valid() && c < CORES && 1 <= p < |procs| && cur[1 - c] != Task(p)
      modifies this`procs, this`sems, lists`q, lists.pcb, lists.heads
      ensures Fit(old(State())) && Shape() && State() == Reap(old(State()), p)
      ensures lists.made == old(lists.made) && procs[p].status == Exited
    {
      hide Inv, Sited, BoxShape, Boxes, Below, Queues.Valid, Nowhere, Remove, WakeAll, ReleaseFrom, Placed, Reap, Unlinked;
      ghost var k := State();
      InvFit(k);
      InvSited(k);
      SitedMade(k);
      LocksMade(k, p);
      KillBlocked(k, c, p);
      ReapSteps(k, p);
      TakeOff(p);
      ReleaseCore(State(), procs[p].locks, 0);
      ReleaseLocks(p);
      WakeAllCore(State(), WaitQ(p));
      WakeWaiters(WaitQ(p));
      procs := WithStatus(procs, p, Exited);
    }

    // ---------- Semaphores, mutexes, barriers ----------

    /** do_sem_init of semaphore i. */
    method DoSemInit(i: nat, val: int)
      requires Valid() && SemIdle(State(), i)
      modifies this`sems, lists`made, lists.heads[SemQ(i)]
      ensures Fit(old(State())) && State() == SemInit(old(State()), i, val) && Valid()
    {
      hide Inv, BoxShape, Boxes, Below, Queues.Valid;
      InvFit(State());
      SemInitKeeps(State(), i, val);
      lists.Init(SemQ(i));
      sems := sems[i := Sem(val, true)];
    }

    /** do_sem_up */
    method DoSemUp(i: nat)
      requires Valid() && SemReady(State(), i)
      modifies this`procs, this`sems, lists`q, lists.pcb, lists.heads
      ensures Fit(old(State())) && State() == SemUp(old(State()), i) && Valid()
    {
      hide Inv, BoxShape, Boxes, Below, Queues.Valid, Wake;
      InvSited(State());
      InvFit(State());
      SitedMade(State());
      SemUpKeeps(State(), i);
      var e := lists.Empty(SemQ(i));
      if !e {
        WakeFirst(SemQ(i));
      } else {
        sems := sems[i := sems[i].(s := sems[i].s + 1)];
      }
    }

    /** do_sem_down */
    method DoSemDown(c: nat, i: nat)
      requires Valid() && c < CORES && cur[c].Task? && SemReady(State(), i)
      modifies this`procs, this`cur, this`sems, lists`q, lists.pcb, lists.heads
      ensures Runs(old(State()), c) && State() == SemDown(old(State()), c, i) && Valid()
    {
      hide Inv, BoxShape, Boxes, Below, Queues.Valid, BlockOn, Nowhere;
      InvRuns(State(), c);
      InvSited(State());
      SitedMade(State());
      SemDownKeeps(State(), c, i);
      if sems[i].s > 0 {
        sems := sems[i := sems[i].(s := sems[i].s - 1)];
      } else {
        BlockHere(c, SemQ(i));
      }
    }

    /** do_mutex_lock_acquire */
    method DoAcquire(c: nat, i: nat)
      requires Valid() && c < CORES && cur[c].Task? && SemReady(State(), i) && |procs[cur[c].p].locks| < MAX_LOCK
      modifies this`procs, this`cur, this`sems, lists`q, lists.pcb, lists.heads
      ensures Runs(old(State()), c) && State() == Acquire(old(State()), c, i) && Valid()
    {
      hide Inv, BoxShape, Boxes, Below, Queues.Valid, SemDown;
      InvRuns(State(), c);
      LocksOf(State(), c);
      var p := cur[c].p;
      LocksKeep(State(), c, procs[p].locks + [i]);
      procs := procs[p := procs[p].(locks := procs[p].locks + [i])];
      DoSemDown(c, i);
    }

    /** do_mutex_lock_release */
    method DoRelease(c: nat, i: nat)
      requires Valid() && c < CORES && cur[c].Task? && SemReady(State(), i) && procs[cur[c].p].locks != []
      modifies this`procs, this`sems, lists`q, lists.pcb, lists.heads
      ensures Runs(old(State()), c) && cur[c].p !in old(lists.q)[SemQ(i)] && State() == Release(old(State()), c, i) && Valid()
    {
      hide Inv, BoxShape, Boxes, Below, Queues.Valid, SemUp;
      ghost var k := State();
      InvRuns(k, c);
      ReleaseKeeps(k, c, i);
      SemUpCore(k, c, i);
      DoSemUp(i);
      var p := cur[c].p;
      procs := procs[p := procs[p].(locks := procs[p].locks[..|procs[p].locks| - 1])];
    }

    /** do_sem_destroy */
    method DoSemDestroy(i: nat)
      requires Valid() && SemReady(State(), i)
      modifies this`procs, this`sems, lists`q, lists.pcb, lists.heads
      ensures Fit(old(State())) && State() == SemDestroy(old(State()), i) && Valid()
    {
      hide Inv, BoxShape, Boxes, Below, Queues.Valid, WakeAll;
      InvSited(State());
      InvFit(State());
      SitedMade(State());
      SemDestroyKeeps(State(), i);
      WakeAllCore(State(), SemQ(i));
      WakeEvery(SemQ(i));
      sems := sems[i := sems[i].(busy := false)];
    }

    /** do_barrier_init */
    method DoBarrierInit(i: nat, count: nat)
      requires Valid() && SemIdle(State(), i)
      modifies this`sems, lists`made, lists.heads[SemQ(i)]
      ensures Fit(old(State())) && State() == BarrierInit(old(State()), i, count) && Valid()
    {
      DoSemInit(i, count);
    }

    /** do_barrier_wait: the last to arrive counts everybody back in as it wakes them. */
    method DoBarrierWait(c: nat, i: nat)
      requires Valid() && c < CORES && cur[c].Task? && SemReady(State(), i)
      modifies this`procs, this`cur, this`sems, lists`q, lists.pcb, lists.heads
      ensures Runs(old(State()), c) && State() == BarrierWait(old(State()), c, i) && Valid()
    {
      hide Inv, BoxShape, Boxes, Below, Queues.Valid, BlockOn, Nowhere, WakeAll, Wake;
      ghost var k := State();
      InvRuns(k, c);
      InvSited(k);
      SitedMade(k);
      BarrierWaitKeeps(k, c, i);
      if sems[i].s > 1 {
        sems := sems[i := sems[i].(s := sems[i].s - 1)];
        BlockHere(c, SemQ(i));
      } else {
        LetAllGo(i);
      }
    }

    /** One round of the loop of do_barrier_wait. */
    method LetOneGo(i: nat, ghost total: int)
      requires Shape() && i < MAX_SEM && SemQ(i) in lists.made && READY in lists.made && lists.q[SemQ(i)] != []
      requires sems[i].s + |lists.q[SemQ(i)]| == total && Sited(WithSem(State(), i, total))
      modifies this`procs, this`sems, lists`q, lists.pcb, lists.heads
      ensures Shape() && lists.made == old(lists.made) && sems[i].s + |lists.q[SemQ(i)]| == total
      ensures Sited(WithSem(State(), i, total)) && |lists.q[SemQ(i)]| < |old(lists.q)[SemQ(i)]|
      ensures WithSem(State(), i, total) == Wake(WithSem(old(State()), i, total), SemQ(i))
    {
      hide Queues.Valid, BoxShape, Boxes, Below, Wake, Sited;
      ghost var k1 := State();
      WakeWithSem(k1, i, total);
      WakeFirst(SemQ(i));
      sems := sems[i := sems[i].(s := sems[i].s + 1)];
      assert WithSem(State(), i, total) == Wake(WithSem(k1, i, total), SemQ(i));
    }

    /** The loop of do_barrier_wait. */
    method LetAllGo(i: nat)
      requires Valid() && SemReady(State(), i)
      modifies this`procs, this`sems, lists`q, lists.pcb, lists.heads
      ensures Fit(old(State()))
      ensures State() == WakeAll(WithSem(old(State()), i, old(sems)[i].s + |old(lists.q)[SemQ(i)]|), SemQ(i)) && Shape()
    {
      hide Inv, BoxShape, Boxes, Below, Queues.Valid, Wake, Nowhere, Once, Sited, Fit, SemReady;
      ghost var k := State();
      InvFit(k);
      InvSited(k);
      SitedMade(k);
      SemReadyMeans(k, i);
      ghost var total := sems[i].s + |lists.q[SemQ(i)]|;
      SemsKeep(k, k.sems[i := k.sems[i].(s := total)], k.boxes);
      InvSited(WithSem(k, i, total));
      var e := lists.Empty(SemQ(i));
      while !e
        invariant Shape() && lists.made == k.made && sems[i].s + |lists.q[SemQ(i)]| == total
        invariant Sited(WithSem(State(), i, total))
        invariant WakeAll(WithSem(State(), i, total), SemQ(i)) == WakeAll(WithSem(k, i, total), SemQ(i))
        invariant e <==> lists.q[SemQ(i)] == []
        decreases |lists.q[SemQ(i)]|
      {
        LetOneGo(i, total);
        e := lists.Empty(SemQ(i));
      }
      SameSem(State(), i);
      NoneToWake(State(), SemQ(i));
    }

    // ---------- Mailboxes ----------

    /** do_mbox_open of mailbox m, when it was not in use. */
    method DoBoxOpen(m: nat)
      requires Valid() && m < MAX_MBOX && FullQ(m) !in lists.made && EmptyQ(m) !in lists.made
      modifies this`index, this`fullCount, this`emptyCount, lists`made, lists.heads
      ensures Valid() && Fit(old(State())) && State() == BoxOpen(old(State()), m)
    {
      hide Inv, Below, Queues.Valid, Once, Sited, Placed, Nowhere, Bytes, Fit;
      InvFit(State());
      InvSited(State());
      BoxOpenKeeps(State(), m);
      assert lists.q[FullQ(m)] == [] && lists.q[EmptyQ(m)] == [] by { Unmade(State()); }
      ghost var k := State();
      lists.Init(EmptyQ(m));
      lists.Init(FullQ(m));
      index, fullCount, emptyCount := index[m := 0], fullCount[m := 0], emptyCount[m := 0];
      assert lists.made == k.made + {FullQ(m), EmptyQ(m)};
      assert Boxes() == k.boxes[m := Box([], 0, 0)];
    }

    /** The copy loop of do_mbox_send. */
    method PutBytes(m: nat, data: seq<byte>)
      requires BoxShape() && m < MAX_MBOX && index[m] + |data| <= MBOX_SIZE
      modifies this`index, msg
      ensures BoxShape() && Boxes() == old(Boxes())[m := old(Boxes())[m].(buf := old(Boxes())[m].buf + data)]
    {
      hide Boxes, Bytes;
      for i := 0 to |data|
        invariant BoxShape() && index == old(index)[m := old(index)[m] + i]
        invariant forall x: nat, j: nat :: x < MAX_MBOX && j < MBOX_SIZE && (x != m || j < old(index)[m]) ==> msg[x, j] == old(msg[x, j])
        invariant forall j :: 0 <= j < i ==> msg[m, old(index)[m] + j] == data[j]
      {
        msg[m, index[m]] := data[i];
        index := index[m := index[m] + 1];
      }
      SameRows(m);
      assert Bytes(m, index[m]) == old(Bytes(m, index[m])) + data;
    }

    /** Rows other than m hold what they held. */
    twostate lemma SameRows(m: nat)
      requires old(BoxShape()) && BoxShape() && m < MAX_MBOX && index == old(index)[m := index[m]]
      requires fullCount == old(fullCount) && emptyCount == old(emptyCount)
      requires forall x: nat, j: nat {:trigger msg[x, j]} :: x < MAX_MBOX && j < MBOX_SIZE && x != m ==> msg[x, j] == old(msg[x, j])
      ensures forall x: nat :: x < MAX_MBOX && x != m ==> Boxes()[x] == old(Boxes())[x]
    {
      forall x: nat | x < MAX_MBOX && x != m
        ensures Bytes(x, index[x]) == old(Bytes(x, index[x]))
      {
      }
    }

    /** The copy loop of do_mbox_recv. */
    method CopyOut(m: nat, want: nat, dst: array<byte>)
      requires BoxShape() && m < MAX_MBOX && want <= index[m] && want <= dst.Length
      modifies dst
      ensures dst[..want] == Boxes()[m].buf[..want]
      ensures forall j :: want <= j < dst.Length ==> dst[j] == old(dst[j])
    {
      for i := 0 to want
        invariant forall j :: 0 <= j < i ==> dst[j] == msg[m, j]
        invariant forall j :: want <= j < dst.Length ==> dst[j] == old(dst[j])
      {
        dst[i] := msg[m, i];
      }
    }

    /** The loop of do_mbox_recv that shifts what is left to the front. */
    method ShiftRow(m: nat, want: nat, ghost row: seq<byte>)
      requires BoxShape() && m < MAX_MBOX && want <= index[m] && row == Bytes(m, MBOX_SIZE)
      modifies msg
      ensures forall j: nat :: j < index[m] - want ==> msg[m, j] == row[j + want]
      ensures forall x: nat, j: nat {:trigger msg[x, j]} :: x < MAX_MBOX && j < MBOX_SIZE && x != m ==> msg[x, j] == old(msg[x, j])
    {
      hide Bytes;
      for i := want to index[m]
        invariant forall x: nat, j: nat {:trigger msg[x, j]} :: x < MAX_MBOX && j < MBOX_SIZE && x != m ==> msg[x, j] == old(msg[x, j])
        invariant forall j: nat :: i - want <= j < MBOX_SIZE ==> msg[m, j] == row[j]
        invariant forall j: nat :: j < i - want ==> msg[m, j] == row[j + want]
      {
        msg[m, i - want] := msg[m, i];
      }
    }

    method ShiftDown(m: nat, want: nat)
      requires BoxShape() && m < MAX_MBOX && want <= index[m]
      modifies this`index, msg
      ensures BoxShape() && Boxes() == old(Boxes())[m := old(Boxes())[m].(buf := old(Boxes())[m].buf[want..])]
    {
      hide Boxes, Bytes;
      ghost var row, before := Bytes(m, MBOX_SIZE), Bytes(m, index[m]);
      ShiftRow(m, want, row);
      index := index[m := index[m] - want];
      SameRows(m);
      assert Bytes(m, index[m]) == before[want..];
    }

    /** do_mbox_send, from its loop test to its return or its next do_scheduler; done says that it has returned,
        with the count of senders that have been blocked. */
    method DoSend(c: nat, m: nat, data: seq<byte>) returns (done: bool, ret: nat)
      requires Valid() && m < MAX_MBOX && Enabled(State(), KernelRuns.DoSend(c, m, data))
      modifies this`procs, this`cur, this`index, this`fullCount, msg, lists`q, lists.pcb, lists.heads
      ensures Valid() && Runs(old(State()), c) && State() == Send(old(State()), c, m, data)
      ensures done <==> |old(Boxes())[m].buf| + |data| <= MBOX_SIZE
      ensures done ==> ret == old(Boxes())[m].fullCount
    {
      hide Inv, Boxes, Bytes, Below, Queues.Valid, BlockOn, WakeAll, Nowhere, Sited, Once, Placed, WithBox, WithCall;
      ghost var k := State();
      InvRuns(k, c);
      InvSited(k);
      SitedMade(k);
      SendKeeps(k, c, m, data);
      done, ret := index[m] + |data| <= MBOX_SIZE, fullCount[m];
      if !done {
        SendBlocks(c, m, data);
      } else {
        SendPuts(c, m, data);
      }
    }

    method SendBlocks(c: nat, m: nat, data: seq<byte>)
      requires Shape() && Runs(State(), c) && Nowhere(lists.q, cur[c].p) && m < MAX_MBOX && FullQ(m) in lists.made && READY in lists.made
      modifies this`procs, this`cur, this`fullCount, lists`q, lists.pcb, lists.heads
      ensures Shape() && var k := old(State()); var b := k.boxes[m];
        Runs(k, c) && State() == BlockOn(WithBox(WithCall(k, c, Sending(m, data)), m, b.(fullCount := b.fullCount + 1)), c, FullQ(m))
    {
      hide Boxes, Bytes, Below, Queues.Valid, BlockOn, Nowhere;
      var p := cur[c].p;
      procs := procs[p := procs[p].(call := Sending(m, data))];
      CountFull(m);
      BlockHere(c, FullQ(m));
    }

    method SendPuts(c: nat, m: nat, data: seq<byte>)
      requires Shape() && Runs(State(), c) && m < MAX_MBOX && EmptyQ(m) in lists.made && READY in lists.made && index[m] + |data| <= MBOX_SIZE
      modifies this`procs, this`index, msg, lists`q, lists.pcb, lists.heads
      ensures Shape() && var k := old(State()); var b := k.boxes[m];
        Runs(k, c) && State() == WakeAll(WithBox(WithCall(k, c, NoCall), m, b.(buf := b.buf + data)), EmptyQ(m))
    {
      hide Boxes, Bytes, Below, Queues.Valid, WakeAll, Nowhere;
      var p := cur[c].p;
      procs := procs[p := procs[p].(call := NoCall)];
      PutBytes(m, data);
      WakeEvery(EmptyQ(m));
    }

    method CountFull(m: nat)
      requires BoxShape() && m < MAX_MBOX
      modifies this`fullCount
      ensures BoxShape() && Boxes() == old(Boxes())[m := old(Boxes())[m].(fullCount := old(Boxes())[m].fullCount + 1)]
    {
      fullCount := fullCount[m := fullCount[m] + 1];
    }

    method CountEmpty(m: nat)
      requires BoxShape() && m < MAX_MBOX
      modifies this`emptyCount
      ensures BoxShape() && Boxes() == old(Boxes())[m := old(Boxes())[m].(emptyCount := old(Boxes())[m].emptyCount + 1)]
    {
      emptyCount := emptyCount[m := emptyCount[m] + 1];
    }

    /** do_mbox_recv, likewise; done says that it has returned, with the oldest bytes in dst. */
    method DoRecv(c: nat, m: nat, want: nat, dst: array<byte>) returns (done: bool, ret: nat)
      requires Valid() && m < MAX_MBOX && Enabled(State(), KernelRuns.DoRecv(c, m, want)) && want <= dst.Length
      modifies this`procs, this`cur, this`index, this`emptyCount, msg, dst, lists`q, lists.pcb, lists.heads
      ensures Valid() && Runs(old(State()), c) && State() == Recv(old(State()), c, m, want)
      ensures done <==> want <= |old(Boxes())[m].buf|
      ensures done ==> ret == old(Boxes())[m].emptyCount
      ensures done ==> dst[..want] == old(Boxes())[m].buf[..want]
      ensures forall j :: (if done then want else 0) <= j < dst.Length ==> dst[j] == old(dst[j])
    {
      hide Inv, Boxes, Bytes, Below, Queues.Valid, BlockOn, WakeAll, Nowhere, Sited, Once, Placed, WithBox, WithCall;
      ghost var k := State();
      InvRuns(k, c);
      InvSited(k);
      SitedMade(k);
      RecvKeeps(k, c, m, want);
      done, ret := index[m] >= want, emptyCount[m];
      if !done {
        RecvBlocks(c, m, want);
      } else {
        RecvTakes(c, m, want, dst);
      }
    }

    method RecvBlocks(c: nat, m: nat, want: nat)
      requires Shape() && Runs(State(), c) && Nowhere(lists.q, cur[c].p) && m < MAX_MBOX && EmptyQ(m) in lists.made && READY in lists.made
      modifies this`procs, this`cur, this`emptyCount, lists`q, lists.pcb, lists.heads
      ensures Shape() && var k := old(State()); var b := k.boxes[m];
        Runs(k, c) && State() == BlockOn(WithBox(WithCall(k, c, Receiving(m, want)), m, b.(emptyCount := b.emptyCount + 1)), c, EmptyQ(m))
    {
      hide Boxes, Bytes, Below, Queues.Valid, BlockOn, Nowhere;
      var p := cur[c].p;
      procs := procs[p := procs[p].(call := Receiving(m, want))];
      CountEmpty(m);
      BlockHere(c, EmptyQ(m));
    }

    method RecvTakes(c: nat, m: nat, want: nat, dst: array<byte>)
      requires Shape() && Runs(State(), c) && m < MAX_MBOX && FullQ(m) in lists.made && READY in lists.made && want <= index[m] && want <= dst.Length
      modifies this`procs, this`index, msg, dst, lists`q, lists.pcb, lists.heads
      ensures Shape() && var k := old(State()); var b := k.boxes[m];
        Runs(k, c) && want <= |b.buf| && State() == WakeAll(WithBox(WithCall(k, c, NoCall), m, b.(buf := b.buf[want..])), FullQ(m))
      ensures dst[..want] == old(Boxes())[m].buf[..want]
      ensures forall j :: want <= j < dst.Length ==> dst[j] == old(dst[j])
    {
      hide Boxes, Bytes, Below, Queues.Valid, WakeAll, Nowhere;
      var p := cur[c].p;
      procs := procs[p := procs[p].(call := NoCall)];
      TakeOut(m, want, dst);
      WakeEvery(FullQ(m));
    }

    /** The part of do_mbox_recv that takes the bytes. */
    method TakeOut(m: nat, want: nat, dst: array<byte>)
      requires BoxShape() && m < MAX_MBOX && want <= index[m] && want <= dst.Length
      modifies this`index, msg, dst
      ensures BoxShape() && Boxes() == old(Boxes())[m := old(Boxes())[m].(buf := old(Boxes())[m].buf[want..])]
      ensures dst[..want] == old(Boxes())[m].buf[..want]
      ensures forall j :: want <= j < dst.Length ==> dst[j] == old(dst[j])
    {
      hide Boxes, Bytes;
      CopyOut(m, want, dst);
      ShiftDown(m, want);
    }
  }

  lemma CheckDone(k: K, now: nat)
    requires Sound(k)
    ensures CheckFrom(k, |k.q[TIMERS]|, now) == k
  {
  }

  /** Waking one waiter of a barrier, with its count set aside. */
  lemma WakeWithSem(k: K, i: nat, total: int)
    requires Sound(k) && i < MAX_SEM && k.q[SemQ(i)] != [] && Sited(WithSem(k, i, total))
    ensures Wake(WithSem(k, i, total), SemQ(i)) == WithSem(Wake(k, SemQ(i)), i, total)
    ensures Sited(Wake(WithSem(k, i, total), SemQ(i))) && |Wake(k, SemQ(i)).q[SemQ(i)]| == |k.q[SemQ(i)]| - 1
    ensures Wake(k, SemQ(i)).sems == k.sems && Wake(k, SemQ(i)).made == k.made
  {
    WakeSited(WithSem(k, i, total), SemQ(i));
    WakeMoves(WithSem(k, i, total), SemQ(i));
  }

  lemma SemReadyMeans(k: K, i: nat)
    requires SemReady(k, i)
    ensures i < MAX_SEM && SemQ(i) in k.made
  {
  }

  lemma NoneToWake(k: K, h: nat)
    requires Sound(k) && h < QUEUES && h != READY && k.q[h] == []
    ensures WakeAll(k, h) == k
  {
  }

  lemma SameSem(k: K, i: nat)
    requires Sound(k) && i < MAX_SEM
    ensures WithSem(k, i, k.sems[i].s) == k
  {
    assert k.sems[i := k.sems[i].(s := k.sems[i].s)] == k.sems;
  }

  lemma Unmade(k: K)
    requires Inv(k)
    ensures |k.q| == QUEUES && forall h: nat :: h < QUEUES && h !in k.made ==> k.q[h] == []
  {
  }

  lemma StandsAt(k: K, p: nat) returns (h: nat, i: nat)
    requires Sited(k) && p < |k.procs| && (k.procs[p].status == Ready || k.procs[p].status == Blocked)
    ensures h < |k.q| && i < |k.q[h]| && k.q[h][i] == p
  {
    if k.procs[p].status == Ready {
      h := READY;
    } else {
      h :| h < |k.q| && h != READY && p in k.q[h];
    }
    i :| i < |k.q[h]| && k.q[h][i] == p;
  }

  lemma WakeIds(k: K, h: nat)
    requires Sound(k) && h < QUEUES && h != READY && k.q[h] != []
    ensures SameIds(k.procs, Wake(k, h).procs) && Wake(k, h).made == k.made
  {
  }

  lemma LocksMade(k: K, p: nat)
    requires Inv(k) && p < |k.procs|
    ensures |k.procs[p].locks| <= MAX_LOCK
    ensures forall i :: 0 <= i < |k.procs[p].locks| ==> k.procs[p].locks[i] < MAX_SEM && SemQ(k.procs[p].locks[i]) in k.made
  {
  }

  /** The state of do_kill once the victim is off its queue. */
  function Unlinked(k: K, p: nat): K
    requires p < |k.procs|
  {
    if k.procs[p].status == Ready || k.procs[p].status == Blocked then k.(q := Remove(k.q, p)) else k
  }

  lemma ReapSteps(k: K, p: nat)
    requires Sound(k) && |k.procs| <= MAX_TASK && p < |k.procs| && AllBelow(k.procs[p].locks, MAX_SEM)
    ensures Sound(Unlinked(k, p)) && var k2 := ReleaseFrom(Unlinked(k, p), k.procs[p].locks, 0);
      |k2.procs| == |k.procs| && |WakeAll(k2, WaitQ(p)).procs| == |k.procs| &&
      Reap(k, p) == WakeAll(k2, WaitQ(p)).(procs := WithStatus(WakeAll(k2, WaitQ(p)).procs, p, Exited))
  {
    hide ReleaseFrom, WakeAll, Remove;
    SoundRemove(k.q, p, |k.procs|);
    ReleaseCore(Unlinked(k, p), k.procs[p].locks, 0);
    WakeAllCore(ReleaseFrom(Unlinked(k, p), k.procs[p].locks, 0), WaitQ(p));
  }

  /** Those who wait for the victim are blocked when do_kill comes to them. */
  lemma KillBlocked(k: K, c: nat, p: nat)
    requires Inv(k) && c < CORES && p < |k.procs| && k.cur[1 - c] != Task(p) && AllBelow(k.procs[p].locks, MAX_SEM)
    ensures Sound(Unlinked(k, p)) && AllBlocked(ReleaseFrom(Unlinked(k, p), k.procs[p].locks, 0), WaitQ(p))
  {
    hide Inv, Sited, Placed, WakeAll, ReleaseFrom, Wake, Remove;
    InvSited(k);
    SoundRemove(k.q, p, |k.procs|);
    var locks := k.procs[p].locks;
    if k.cur[c] == Task(p) {
      ReleaseSited(k, locks, 0);
      SitedBlocked(ReleaseFrom(k, locks, 0), WaitQ(p));
    } else {
      NotRunning(k, p, c);
      DroppedSited(k, p);
      ReleaseSited(Dropped(k, p), locks, 0);
      SitedBlocked(ReleaseFrom(Dropped(k, p), locks, 0), WaitQ(p));
      UnlinkedNowhere(k, p);
      EndedRelease(Unlinked(k, p), locks, 0, p);
      EndedBlocked(ReleaseFrom(Unlinked(k, p), locks, 0), p, WaitQ(p));
    }
  }

  lemma UnlinkedNowhere(k: K, p: nat)
    requires Sited(k) && p < |k.procs|
    ensures Nowhere(Unlinked(k, p).q, p) && Ended(Unlinked(k, p), p, Exited) == Dropped(k, p)
  {
    RemoveGone(k.q, p);
    if k.procs[p].status != Ready && k.procs[p].status != Blocked {
      PlacedNowhere(k.procs, k.q, k.cur, p);
      RemoveNowhere(k.q, p);
    }
  }

  lemma EndedBlocked(k: K, p: nat, h: nat)
    requires p < |k.procs| && AllBlocked(Ended(k, p, Exited), h) && h < |k.q| && p !in k.q[h]
    ensures AllBlocked(k, h)
  {
  }

  lemma FindUnique(procs: seq<Proc>, pid: int, i: nat)
    requires i <= |procs| && (i < |procs| ==> procs[i].pid == pid)
    requires forall j :: 0 <= j < i ==> procs[j].pid != pid
    ensures FindPid(procs, pid) == i
  {
  }

  lemma FindSound(procs: seq<Proc>, pid: int)
    ensures FindPid(procs, pid) <= |procs|
    ensures FindPid(procs, pid) < |procs| ==> procs[FindPid(procs, pid)].pid == pid
  {
  }

  /** Everybody on queue h is blocked. */
  ghost predicate AllBlocked(k: K, h: nat) {
    h < |k.q| && forall x :: x in k.q[h] ==> x < |k.procs| && k.procs[x].status == Blocked
  }

  lemma WakeBlocked(k: K, h: nat)
    requires Sound(k) && AllBlocked(k, h) && h < QUEUES && h != READY && k.q[h] != []
    ensures k.q[h][0] < |k.procs| && k.procs[k.q[h][0]].status == Blocked && AllBlocked(Wake(k, h), h)
  {
    var x := k.q[h][0];
    assert x in k.q[h];
    MoveReadySound(k, x);
  }

  lemma SitedBlocked(k: K, h: nat)
    requires Sited(k) && h < QUEUES && h != READY
    ensures AllBlocked(k, h)
  {
    SitedSound(k);
  }

  /** The next PCB is on no queue, and its wait list is empty. */
  lemma NewFits(k: K)
    requires Inv(k) && |k.procs| < MAX_TASK
    ensures |k.q| == QUEUES && Nowhere(k.q, |k.procs|) && k.q[WaitQ(|k.procs|)] == [] && Below(k.q, |k.procs| + 1)
  {
    SitedSound(k);
    NewPlaced(k.procs, k.q, k.cur, Proc(0, Ready, AutoCleanupOnExit, 0, [], NoCall));
    BelowMore(k.q, |k.procs|, |k.procs| + 1);
  }

  lemma CheckSkip(k: K, i: nat, now: nat)
    requires Sound(k) && i < |k.q[TIMERS]| && k.procs[k.q[TIMERS][i]].wake > now
    ensures CheckFrom(k, i, now) == CheckFrom(k, i + 1, now)
  {
  }

  lemma MemberBelow(q: seq<seq<nat>>, h: nat, i: nat, n: nat)
    requires Below(q, n) && h < |q| && i < |q[h]|
    ensures q[h][i] < n
  {
  }

  lemma FirstBelow(q: seq<seq<nat>>, h: nat, n: nat)
    requires Below(q, n) && h < |q| && q[h] != []
    ensures q[h][0] < n
  {
  }
}
