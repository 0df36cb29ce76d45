/** The locks a process has on record, and what a kill gives up. */
module KernelHeld {
  import opened Lists
  import opened Queues
  import opened KernelState
  import opened KernelSched
  import opened KernelInv
  import opened KernelLocks
  import opened KernelEffects
  import opened KernelRuns
  import opened KernelSync
  import opened KernelWait
  import opened KernelSleep

  // ---------- The record ----------

  datatype LockCall = Got(i: nat) | Gave(i: nat)

  /** The lock call of process p that an event is, if it is one. */
  function LockCallOf(k: K, e: Event, p: nat): seq<LockCall> {
    if !Enabled(k, e) then []
    else if e.DoAcquire? && k.cur[e.c] == Task(p) then [Got(e.i)]
    else if e.DoRelease? && k.cur[e.c] == Task(p) then [Gave(e.i)]
    else []
  }

  /** The lock calls of process p during a run, in order. */
  ghost function LockCalls(k: K, es: seq<Event>, p: nat): seq<LockCall>
    requires Inv(k)
    decreases |es|
  {
    if es == [] then [] else (ApplyKeeps(k, es[0]); LockCallOf(k, es[0], p) + LockCalls(Apply(k, es[0]), es[1..], p))
  }

  /** A stack of locks after some lock calls: whatever is given, the last one got is dropped. */
  function Stacked(s: seq<nat>, cs: seq<LockCall>): seq<nat>
    decreases |cs|
  {
    if cs == [] then s
    else Stacked(match cs[0] case Got(i) => s + [i] case Gave(_) => if s == [] then [] else s[..|s| - 1], cs[1..])
  }

  lemma {:induction false} StackedJoin(s: seq<nat>, a: seq<LockCall>, b: seq<LockCall>)
    ensures Stacked(s, a + b) == Stacked(Stacked(s, a), b)
    decreases |a|
  {
    if a == [] {
      assert a + b == b;
    } else {
      assert (a + b)[0] == a[0] && (a + b)[1..] == a[1..] + b;
      StackedJoin(match a[0] case Got(i) => s + [i] case Gave(_) => if s == [] then [] else s[..|s| - 1], a[1..], b);
    }
  }

  lemma NotActor(k: K, e: Event, p: nat)
    requires Inv(k) && Enabled(k, e) && p in Actor(k, e) && !e.DoAcquire? && !e.DoRelease?
    ensures p < |k.procs| && p < |Apply(k, e).procs| && Apply(k, e).procs[p].locks == k.procs[p].locks
  {
    hide Inv, Fit, Sited, Schedule, WakeAll, BlockOn, Below, Placed, Send, Recv, Exit, Same, Alike, Schedulable;
    InvFit(k);
    InvSited(k);
    InvRuns(k, e.c);
    match e
    case DoSleep(c, t, base, now) =>
      var procs1 := k.procs[p := k.procs[p].(wake := U64(now + U64(t * base)))];
      FieldsKeep(k, procs1);
      var k1 := k.(procs := procs1);
      InvSited(k1);
      ReadyMade(k1);
      BlockOnSited(k1, c, TIMERS);
      SameMeans(procs1, BlockOn(k1, c, TIMERS).procs);
    case DoExit(c) => ExitLocks(k, c);
    case DoSend(c, m, msg) => SendLocks(k, c, m, msg);
    case DoRecv(c, m, want) => RecvLocks(k, c, m, want);
  }

  lemma ExitLocks(k: K, c: nat)
    requires Inv(k) && c < CORES && k.cur[c].Task? && k.cur[c].p != 0
    ensures Runs(k, c) && |k.procs| <= MAX_TASK && k.cur[c].p < |Exit(k, c).procs|
    ensures Exit(k, c).procs[k.cur[c].p].locks == k.procs[k.cur[c].p].locks
  {
    hide Inv, Sited, WakeAll, Schedule, Below, Same, Alike;
    InvSited(k);
    var p := k.cur[c].p;
    var k0 := k.(procs := k.procs[p := k.procs[p].(pid := 0)]);
    PidZeroSited(k, p);
    WakeAllSited(k0, WaitQ(p));
    WakeAllCore(k0, WaitQ(p));
    var k1 := WakeAll(k0, WaitQ(p));
    QuitSited(k1, c, if k1.procs[p].mode == AutoCleanupOnExit then Exited else Zombie);
    SameMeans(k1.procs, Exit(k, c).procs);
  }

  lemma SendLocks(k: K, c: nat, m: nat, msg: seq<byte>)
    requires Inv(k) && Fit(k) && Enabled(k, DoSend(c, m, msg))
    ensures k.cur[c].p < |Send(k, c, m, msg).procs| && Send(k, c, m, msg).procs[k.cur[c].p].locks == k.procs[k.cur[c].p].locks
  {
    hide Inv, Send, WakeAll, BlockOn, Below, Same, Alike;
    SendMoves(k, c, m, msg);
    var k1 := SendMid(k, c, m, msg);
    InvSited(k1);
    if |k.boxes[m].buf| + |msg| > MBOX_SIZE {
      BlockOnSited(k1, c, FullQ(m));
      SameMeans(k1.procs, BlockOn(k1, c, FullQ(m)).procs);
    } else {
      WakeAllCore(k1, EmptyQ(m));
    }
  }

  lemma RecvLocks(k: K, c: nat, m: nat, want: nat)
    requires Inv(k) && Fit(k) && Enabled(k, DoRecv(c, m, want))
    ensures k.cur[c].p < |Recv(k, c, m, want).procs| && Recv(k, c, m, want).procs[k.cur[c].p].locks == k.procs[k.cur[c].p].locks
  {
    hide Inv, Recv, WakeAll, BlockOn, Below, Same, Alike;
    RecvMoves(k, c, m, want);
    var k1 := RecvMid(k, c, m, want);
    InvSited(k1);
    if |k.boxes[m].buf| < want {
      BlockOnSited(k1, c, EmptyQ(m));
      SameMeans(k1.procs, BlockOn(k1, c, EmptyQ(m)).procs);
    } else {
      WakeAllCore(k1, FullQ(m));
    }
  }

  lemma StackedOne(s: seq<nat>, i: nat)
    ensures Stacked(s, []) == s && Stacked(s, [Got(i)]) == s + [i]
    ensures s != [] ==> Stacked(s, [Gave(i)]) == s[..|s| - 1]
  {
    assert [Got(i)][1..] == [] && [Gave(i)][1..] == [];
    StackedNone(s + [i]);
    if s != [] {
      StackedNone(s[..|s| - 1]);
    }
  }

  lemma RecordStep(k: K, e: Event, p: nat)
    requires Inv(k) && p < |k.procs|
    ensures p < |Apply(k, e).procs| && Apply(k, e).procs[p].locks == Stacked(k.procs[p].locks, LockCallOf(k, e, p))
  {
    hide Inv, Fit, DoSched, Acquire, Release, Stacked;
    InvFit(k);
    OnlyActor(k, e);
    StackedOne(k.procs[p].locks, 0);
    if Enabled(k, e) {
      if e.DoAcquire? {
        StackedOne(k.procs[p].locks, e.i);
        AcquireOnly(k, e.c, e.i);
      } else if e.DoRelease? {
        StackedOne(k.procs[p].locks, e.i);
        ReleaseOnly(k, e.c, e.i);
      } else if p in Actor(k, e) {
        NotActor(k, e, p);
      }
    }
  }

  /** Over every run, whatever else goes on, a process has on record what its own lock calls leave on a stack. */
  lemma {:induction false} RecordIsStack(k: K, es: seq<Event>, p: nat)
    requires Inv(k) && p < |k.procs|
    ensures p < |Run(k, es).procs| && Run(k, es).procs[p].locks == Stacked(k.procs[p].locks, LockCalls(k, es, p))
    decreases |es|
  {
    hide Inv, Apply, LockCallOf, Stacked;
    if es == [] {
      assert Stacked(k.procs[p].locks, []) == k.procs[p].locks by { StackedNone(k.procs[p].locks); }
    } else {
      ApplyKeeps(k, es[0]);
      RecordStep(k, es[0], p);
      var k1 := Apply(k, es[0]);
      RecordIsStack(k1, es[1..], p);
      StackedJoin(k.procs[p].locks, LockCallOf(k, es[0], p), LockCalls(k1, es[1..], p));
    }
  }

  lemma StackedNone(s: seq<nat>)
    ensures Stacked(s, []) == s
  {
  }

  /** When no lock is recorded twice, a release takes the lock it lets go off the record if and only if that was the last
      one recorded, or it was not on record. */
  lemma ReleaseForgetsIff(k: K, c: nat, i: nat)
    requires Inv(k) && Enabled(k, DoRelease(c, i)) && k.cur[c].p < |k.procs| && NoDup(k.procs[k.cur[c].p].locks)
    ensures var p := k.cur[c].p; var s := k.procs[p].locks;
      p < |Apply(k, DoRelease(c, i)).procs| && s != [] &&
      (i !in Apply(k, DoRelease(c, i)).procs[p].locks <==> i == s[|s| - 1] || i !in s)
  {
    hide Inv, Fit, Release;
    InvFit(k);
    ReleaseOnly(k, c, i);
    var s := k.procs[k.cur[c].p].locks;
    assert s == s[..|s| - 1] + [s[|s| - 1]];
    assert s[|s| - 1] !in s[..|s| - 1];
  }

  // ---------- do_kill ----------

  /** Semaphore l is as it was, less p among its waiters. */
  predicate Kept(k: K, k1: K, l: nat, p: nat)
    requires SemSound(k, l) && SemSound(k1, l)
  {
    k1.sems[l] == k.sems[l] && k1.q[SemQ(l)] == Without(k.q[SemQ(l)], p)
  }

  /** Lock l has gone to its first waiter other than p, or is free for one process. */
  predicate GivenUp(k: K, k1: K, l: nat, p: nat)
    requires SemSound(k, l) && SemSound(k1, l)
  {
    var w := Without(k.q[SemQ(l)], p);
    if w == [] then k1.sems[l] == k.sems[l].(s := 1) && k1.q[SemQ(l)] == []
    else k1.sems[l] == k.sems[l] && k1.q[SemQ(l)] == w[1..] && Awake(k1, w[0])
  }

  lemma {:induction false} ReleaseOthers(k: K, locks: seq<nat>, i: nat, l: nat)
    requires Sited(k) && i <= |locks| && AllBelow(locks, MAX_SEM) && l < MAX_SEM && l !in locks[i..]
    ensures Sound(k) && ReleaseFrom(k, locks, i).sems[l] == k.sems[l] && ReleaseFrom(k, locks, i).q[SemQ(l)] == k.q[SemQ(l)]
    decreases |locks| - i
  {
    hide Sited, Wake, Below;
    SitedSound(k);
    if i < |locks| {
      assert locks[i..][0] == locks[i] && locks[i..][1..] == locks[i + 1..];
      ReleaseOneSited(k, locks[i]);
      ReleaseOneMoves(k, locks[i]);
      ReleaseOthers(ReleaseOne(k, locks[i]), locks, i + 1, l);
    }
  }

  lemma {:induction false} ReleaseAwake(k: K, locks: seq<nat>, i: nat, x: nat)
    requires Sited(k) && i <= |locks| && AllBelow(locks, MAX_SEM) && Awake(k, x)
    ensures Sound(k) && Awake(ReleaseFrom(k, locks, i), x)
    decreases |locks| - i
  {
    hide Sited, Wake, Below;
    SitedSound(k);
    if i < |locks| {
      ReleaseOneSited(k, locks[i]);
      OneAwake(k, locks[i], x);
      ReleaseAwake(ReleaseOne(k, locks[i]), locks, i + 1, x);
    }
  }

  lemma OneAwake(k: K, l: nat, x: nat)
    requires Sited(k) && l < MAX_SEM && Awake(k, x)
    ensures Sound(k) && Awake(ReleaseOne(k, l), x)
  {
    hide Sited, Below;
    SitedSound(k);
  }

  lemma {:induction false} ReleaseMine(k: K, locks: seq<nat>, i: nat, l: nat)
    requires Sited(k) && i <= |locks| && AllBelow(locks, MAX_SEM) && NoDup(locks) && l in locks[i..]
    ensures Sound(k) && l < MAX_SEM
    ensures var r, w := ReleaseFrom(k, locks, i), k.q[SemQ(l)];
      if w == [] then r.sems[l] == k.sems[l].(s := 1) && r.q[SemQ(l)] == []
      else r.sems[l] == k.sems[l] && r.q[SemQ(l)] == w[1..] && Awake(r, w[0])
    decreases |locks| - i
  {
    hide Sited, Wake, Below, Awake;
    SitedSound(k);
    assert locks[i..][0] == locks[i] && locks[i..][1..] == locks[i + 1..] && locks[i..] == [locks[i]] + locks[i + 1..];
    var k1 := ReleaseOne(k, locks[i]);
    ReleaseOneSited(k, locks[i]);
    ReleaseOneMoves(k, locks[i]);
    if l == locks[i] {
      assert l !in locks[i + 1..];
      ReleaseOthers(k1, locks, i + 1, l);
      if k.q[SemQ(l)] != [] {
        ReleaseAwake(k1, locks, i + 1, k.q[SemQ(l)][0]);
      }
    } else {
      ReleaseMine(k1, locks, i + 1, l);
    }
  }

  lemma WakeAllAwakes(k: K, h: nat, x: nat)
    requires Sited(k) && h < QUEUES && h != READY && Awake(k, x)
    ensures Sound(k) && Awake(WakeAll(k, h), x)
  {
    hide Sited, WakeAll;
    WakeAllMoves(k, h);
  }

  /** The state of do_kill when the locks have been given up. */
  lemma GivesUp(k: K, p: nat, l: nat)
    requires Sited(k) && p < |k.procs| && AllBelow(k.procs[p].locks, MAX_SEM) && |k.procs| <= MAX_TASK && l < MAX_SEM
    requires SemSound(k, l)
    ensures Sound(k)
    ensures var k1 := WakeAll(ReleaseFrom(k, k.procs[p].locks, 0), WaitQ(p)); var s, w := k.procs[p].locks, k.q[SemQ(l)];
      SemSound(k1, l) &&
      (l !in s ==> k1.sems[l] == k.sems[l] && k1.q[SemQ(l)] == w) &&
      (l in s && NoDup(s) ==>
        if w == [] then k1.sems[l] == k.sems[l].(s := 1) && k1.q[SemQ(l)] == []
        else k1.sems[l] == k.sems[l] && k1.q[SemQ(l)] == w[1..] && Awake(k1, w[0]))
  {
    hide Sited, WakeAll, ReleaseFrom, Awake, Below;
    SitedSound(k);
    var s := k.procs[p].locks;
    assert s[0..] == s;
    ReleaseSited(k, s, 0);
    var k2 := ReleaseFrom(k, s, 0);
    WakeAllMoves(k2, WaitQ(p));
    WakeAllCore(k2, WaitQ(p));
    if l !in s {
      ReleaseOthers(k, s, 0, l);
    } else if NoDup(s) {
      ReleaseMine(k, s, 0, l);
      if k.q[SemQ(l)] != [] {
        WakeAllAwakes(k2, WaitQ(p), k.q[SemQ(l)][0]);
      }
    }
  }

  /** do_kill gives up the locks on record and no others: one that is recorded once goes to its first waiter or becomes
      free, and every other semaphore keeps its count and its waiters. */
  lemma KillGivesUp(k: K, c: nat, pid: int, l: nat)
    requires Inv(k) && Enabled(k, DoKill(c, pid)) && l < MAX_SEM
    requires pid != 0 && pid != 1 && FindPid(k.procs, pid) < |k.procs|
    ensures SemSound(k, l) && SemSound(Apply(k, DoKill(c, pid)), l)
    ensures var p, r := FindPid(k.procs, pid), Apply(k, DoKill(c, pid));
      (l !in k.procs[p].locks ==> Kept(k, r, l, p)) &&
      (l in k.procs[p].locks && NoDup(k.procs[p].locks) ==> GivenUp(k, r, l, p))
  {
    hide Inv, Fit, Sited, Reap, Schedule, WakeAll, ReleaseFrom, Placed, Below, Awake, Same, Alike, FindPid;
    InvFit(k);
    InvSited(k);
    InvSem(k, l);
    FindRange(k.procs, pid);
    LocksFit(k);
    var p := FindPid(k.procs, pid);
    if k.cur[c] == Task(p) {
      SelfGivesUp(k, c, p, l);
    } else {
      NotRunning(k, p, c);
      OtherGivesUp(k, p, l);
    }
  }

  lemma LocksFit(k: K)
    requires Fit(k)
    ensures |k.procs| <= MAX_TASK && forall p: nat :: p < |k.procs| ==> AllBelow(k.procs[p].locks, MAX_SEM)
  {
  }

  lemma SelfGivesUp(k: K, c: nat, p: nat, l: nat)
    requires Inv(k) && c < CORES && k.cur[c] == Task(p) && p < |k.procs| && |k.procs| <= MAX_TASK
    requires AllBelow(k.procs[p].locks, MAX_SEM) && l < MAX_SEM && SemSound(k, l)
    ensures Sound(k) && Schedulable(Reap(k, p), c)
    ensures var r := Schedule(Reap(k, p), c);
      SemSound(r, l) && (l !in k.procs[p].locks ==> Kept(k, r, l, p)) &&
      (l in k.procs[p].locks && NoDup(k.procs[p].locks) ==> GivenUp(k, r, l, p))
  {
    hide Inv, Sited, Reap, Schedule, WakeAll, ReleaseFrom, Placed, Below, Awake, Same, Alike;
    InvSited(k);
    SelfReap(k, c);
    GivesUp(k, p, l);
    RunnerNowhere(k, c, p, SemQ(l));
    var k1, w := WakeAll(ReleaseFrom(k, k.procs[p].locks, 0), WaitQ(p)), k.q[SemQ(l)];
    QuitMoves(k1, c, Exited);
    QuitSited(k1, c, Exited);
    ScheduleCore(Ended(k1, p, Exited), c);
    if w != [] && l in k.procs[p].locks && NoDup(k.procs[p].locks) {
      NotSelf(k, c, w[0], SemQ(l));
      EndedAwake(k1, p, Exited, w[0]);
      ScheduleAwake(Ended(k1, p, Exited), c, w[0]);
    }
  }

  lemma OtherGivesUp(k: K, p: nat, l: nat)
    requires Sited(k) && p < |k.procs| && |k.procs| <= MAX_TASK && k.procs[p].status != Running
    requires AllBelow(k.procs[p].locks, MAX_SEM) && l < MAX_SEM && SemSound(k, l)
    ensures Sound(k)
    ensures var r := Reap(k, p);
      SemSound(r, l) && (l !in k.procs[p].locks ==> Kept(k, r, l, p)) &&
      (l in k.procs[p].locks && NoDup(k.procs[p].locks) ==> GivenUp(k, r, l, p))
  {
    hide Sited, Reap, WakeAll, ReleaseFrom, Placed, Below, Awake, Same, Alike;
    SitedSound(k);
    ReapDropped(k, p);
    DroppedSited(k, p);
    DroppedAt(k, p);
    GivesUp(Dropped(k, p), p, l);
  }

  /** Acquire a, acquire b, release b, whatever others do in between, then be killed: of the two exactly a is given
      up. */
  lemma NestedLocks(k: K, es: seq<Event>, p: nat, a: nat, b: nat, c: nat, pid: int)
    requires Inv(k) && p < |k.procs| && k.procs[p].locks == [] && a != b && a < MAX_SEM && b < MAX_SEM
    requires LockCalls(k, es, p) == [Got(a), Got(b), Gave(b)]
    requires var k1 := Run(k, es); Enabled(k1, DoKill(c, pid)) && pid != 0 && pid != 1 && FindPid(k1.procs, pid) == p
    ensures var k1 := Run(k, es); var r := Apply(k1, DoKill(c, pid));
      SemSound(k1, a) && SemSound(k1, b) && SemSound(r, a) && SemSound(r, b) && GivenUp(k1, r, a, p) && Kept(k1, r, b, p)
  {
    hide Inv, Run, Apply, FindPid, Kept, GivenUp, LockCalls, Enabled;
    RecordIsStack(k, es, p);
    assert [a, b][..1] == [a];
    assert Stacked([], [Got(a), Got(b), Gave(b)]) == [a] by { StackedThree(a, b); }
    var k1 := Run(k, es);
    assert k1.procs[p].locks == [a];
    KillGivesUp(k1, c, pid, a);
    KillGivesUp(k1, c, pid, b);
  }

  lemma StackedThree(a: nat, b: nat)
    ensures Stacked([], [Got(a), Got(b), Gave(b)]) == [a]
  {
    var cs := [Got(a), Got(b), Gave(b)];
    assert cs[1..] == [Got(b), Gave(b)] && cs[1..][1..] == [Gave(b)] && cs[1..][1..][1..] == [];
    assert [] + [a] == [a] && [a] + [b] == [a, b] && [a, b][..1] == [a];
    assert Stacked([a, b], [Gave(b)]) == Stacked([a], []);
    assert Stacked([a], [Got(b), Gave(b)]) == Stacked([a, b], [Gave(b)]);
    assert Stacked([], cs) == Stacked([a], [Got(b), Gave(b)]);
  }
}
