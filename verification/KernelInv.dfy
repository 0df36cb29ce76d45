/** Every operation of the scheduler keeps every process in exactly one place. */
module KernelInv {
  import opened Queues
  import opened KernelState
  import opened KernelSched

  ghost predicate Sited(k: K) {
    && 1 <= |k.procs| <= MAX_TASK && |k.sems| == MAX_SEM && |k.boxes| == MAX_MBOX
    && Placed(k.procs, k.q, k.cur) && Made(k)
  }

  lemma SitedSound(k: K)
    requires Sited(k)
    ensures Sound(k)
    ensures forall c :: 0 <= c < CORES && k.cur[c].Task? ==> Runs(k, c)
    ensures forall c :: 0 <= c < CORES && k.cur[c].Task? ==> Nowhere(k.q, k.cur[c].p)
    ensures forall h: nat, p :: h < QUEUES && h != READY && p in k.q[h] ==> p < |k.procs| && k.procs[p].status == Blocked
  {
    forall c | 0 <= c < CORES && k.cur[c].Task?
      ensures k.procs[k.cur[c].p].status == Running && Nowhere(k.q, k.cur[c].p)
    {
      assert OnCore(k.cur, k.cur[c].p);
      PlacedNowhere(k.procs, k.q, k.cur, k.cur[c].p);
    }
    forall h: nat, p | h < QUEUES && h != READY && p in k.q[h]
      ensures p < |k.procs| && k.procs[p].status == Blocked
    {
      var i: nat :| i < |k.q[h]| && k.q[h][i] == p;
      assert Waiting(k.q, p);
    }
  }

  /** procs1 is procs except for statuses, and no dead process came alive. */
  ghost predicate Same(procs: seq<Proc>, procs1: seq<Proc>) {
    && SameIds(procs, procs1)
    && forall p: nat :: p < |procs| && Live(procs1[p].status) ==> Live(procs[p].status)
  }

  lemma SameTrans(a: seq<Proc>, b: seq<Proc>, c: seq<Proc>)
    requires Same(a, b) && Same(b, c)
    ensures Same(a, c)
  {
  }

  /** procs1 is procs except for statuses, and exactly the processes of d have died. */
  ghost predicate Alike(procs: seq<Proc>, procs1: seq<Proc>, d: set<nat>) {
    && SameIds(procs, procs1)
    && forall p: nat :: p < |procs| ==> (Live(procs1[p].status) <==> Live(procs[p].status) && p !in d)
  }

  lemma AlikeTrans(a: seq<Proc>, b: seq<Proc>, c: seq<Proc>, d: set<nat>, e: set<nat>)
    requires Alike(a, b, d) && Alike(b, c, e)
    ensures Alike(a, c, d + e) && Same(a, c)
  {
  }

  lemma SameInv(k: K, k1: K)
    requires Inv(k) && Sited(k1) && Same(k.procs, k1.procs) && k1.made == k.made && k1.nextPid == k.nextPid
    ensures Inv(k1)
  {
    hide Placed, Made;
    forall p: nat | p < |k1.procs|
      ensures k1.procs[p].pid == k.procs[p].pid && k1.procs[p].locks == k.procs[p].locks
    {
    }
  }

  lemma MadeSame(k: K, k1: K)
    requires Made(k) && k1.made == k.made && |k1.procs| == |k.procs| && |k1.q| == |k.q|
    requires forall h: nat :: h < |k.q| && h !in k.made ==> k1.q[h] == []
    ensures Made(k1)
  {
  }

  lemma MoveReadySited(k: K, p: nat)
    requires Sited(k) && p < |k.procs| && k.procs[p].status == Blocked
    ensures Sited(MoveReady(k, p)) && Same(k.procs, MoveReady(k, p).procs) && Alike(k.procs, MoveReady(k, p).procs, {})
  {
    hide Placed;
    SitedSound(k);
    MoveReadyPlaced(k, p);
    var k1 := MoveReady(k, p);
    MadeSame(k, k1);
  }

  lemma WakeSited(k: K, h: nat)
    requires Sited(k) && h < QUEUES && h != READY && k.q[h] != []
    ensures Sound(k) && Sited(Wake(k, h)) && Same(k.procs, Wake(k, h).procs) && Alike(k.procs, Wake(k, h).procs, {})
  {
    SitedSound(k);
    assert k.q[h][0] in k.q[h];
    MoveReadySited(k, k.q[h][0]);
  }

  lemma {:induction false} WakeAllSited(k: K, h: nat)
    requires Sited(k) && h < QUEUES && h != READY
    ensures Sound(k) && Sited(WakeAll(k, h)) && Same(k.procs, WakeAll(k, h).procs) && Alike(k.procs, WakeAll(k, h).procs, {})
    decreases if Sound(k) then |k.q[h]| else 0
  {
    hide Sited, Wake;
    SitedSound(k);
    if k.q[h] != [] {
      WakeSited(k, h);
      WakeAllSited(Wake(k, h), h);
      AlikeTrans(k.procs, Wake(k, h).procs, WakeAll(k, h).procs, {}, {});
    }
  }

  lemma {:induction false} CheckSited(k: K, i: nat, now: nat)
    requires Sited(k) && Sound(k) && i <= |k.q[TIMERS]|
    ensures Sited(CheckFrom(k, i, now)) && Same(k.procs, CheckFrom(k, i, now).procs) && Alike(k.procs, CheckFrom(k, i, now).procs, {})
    decreases |k.q[TIMERS]| - i
  {
    hide Sited, MoveReady;
    if i < |k.q[TIMERS]| {
      var p := k.q[TIMERS][i];
      assert p in k.q[TIMERS];
      SitedSound(k);
      if k.procs[p].wake <= now {
        MoveReadySited(k, p);
        MoveReadySound(k, p);
        WithoutShorter(k.q[TIMERS], p);
        var r := MoveReady(k, p);
        if i <= |r.q[TIMERS]| {
          CheckSited(r, i, now);
          AlikeTrans(k.procs, r.procs, CheckFrom(k, i, now).procs, {}, {});
        }
      } else {
        CheckSited(k, i + 1, now);
      }
    }
  }

  /** Dispatch writes all of cur[c], so what stood there does not matter. */
  lemma DispatchClears(k: K, c: nat)
    requires Sound(k) && c < CORES
    ensures var k1 := k.(cur := k.cur[c := Idle]); Schedulable(k, c) && Schedulable(k1, c) && Dispatch(k, c) == Dispatch(k1, c)
  {
  }

  lemma DispatchSited(k: K, c: nat)
    requires Sited(k) && c < CORES && k.cur[c] == Idle
    ensures Schedulable(k, c) && Sited(Dispatch(k, c)) && Same(k.procs, Dispatch(k, c).procs) && Alike(k.procs, Dispatch(k, c).procs, {})
  {
    hide Placed;
    SitedSound(k);
    DispatchPlaced(k, c);
    var k1 := Dispatch(k, c);
    MadeSame(k, k1);
    if k.q[READY] != [] {
      assert k.q[READY][0] in k.q[READY] && k.procs[k.q[READY][0]].status == Ready by { ReadyFirst(k); }
    }
  }

  lemma ReadyFirst(k: K)
    requires Placed(k.procs, k.q, k.cur) && k.q[READY] != []
    ensures k.q[READY][0] < |k.procs| && k.procs[k.q[READY][0]].status == Ready
  {
    assert k.q[READY][0] in k.q[READY];
  }

  /** What is left once the running process of core c has been put on queue h. */
  function Parked(k: K, c: nat, h: nat): K
    requires Sound(k) && c < CORES && k.cur[c].Task? && h < QUEUES
  {
    var p := k.cur[c].p;
    k.(procs := WithStatus(k.procs, p, if h == READY then Ready else Blocked), q := Add(k.q, h, p), cur := k.cur[c := Idle])
  }

  lemma ParkedSited(k: K, c: nat, h: nat)
    requires Sited(k) && c < CORES && k.cur[c].Task? && h < QUEUES && h in k.made
    ensures Sound(k) && Sited(Parked(k, c, h)) && Same(k.procs, Parked(k, c, h).procs) && Alike(k.procs, Parked(k, c, h).procs, {})
  {
    hide Placed;
    SitedSound(k);
    ParkPlaced(k.procs, k.q, k.cur, c, h);
    MadeSame(k, Parked(k, c, h));
  }

  /** do_scheduler, on any core. */
  lemma ScheduleSited(k: K, c: nat)
    requires Sited(k) && c < CORES && (k.cur[c].Task? ==> k.procs[k.cur[c].p].pid != 0)
    ensures Schedulable(k, c) && Sited(Schedule(k, c)) && Same(k.procs, Schedule(k, c).procs) && Alike(k.procs, Schedule(k, c).procs, {})
    ensures Schedule(k, c) == if k.cur[c].Task? then Dispatch(Parked(k, c, READY), c) else Dispatch(k, c)
  {
    hide Placed, Sited;
    SitedSound(k);
    if k.cur[c].Task? {
      assert READY in k.made by { SitedMade(k); }
      ParkedSited(k, c, READY);
      DispatchSound(k, c);
      var k1 := PutBack(k, c);
      assert k1.(cur := k1.cur[c := Idle]) == Parked(k, c, READY);
      assert Sound(k1) by { SoundAdd(k.q, READY, k.cur[c].p, |k.procs|); }
      DispatchClears(k1, c);
      DispatchSited(Parked(k, c, READY), c);
      AlikeTrans(k.procs, Parked(k, c, READY).procs, Schedule(k, c).procs, {}, {});
    } else {
      DispatchSited(k, c);
    }
  }

  lemma SitedMade(k: K)
    requires Sited(k)
    ensures READY in k.made && TIMERS in k.made && forall p: nat :: 1 <= p < |k.procs| ==> WaitQ(p) in k.made
  {
  }

  lemma BlockOnSited(k: K, c: nat, h: nat)
    requires Sited(k) && c < CORES && k.cur[c].Task? && h < QUEUES && h != READY && h in k.made
    ensures Runs(k, c) && BlockOn(k, c, h) == Dispatch(Parked(k, c, h), c)
    ensures Sited(BlockOn(k, c, h)) && Same(k.procs, BlockOn(k, c, h).procs) && Alike(k.procs, BlockOn(k, c, h).procs, {})
  {
    hide Placed, Sited;
    SitedSound(k);
    var p := k.cur[c].p;
    ParkedSited(k, c, h);
    var k1 := k.(procs := WithStatus(k.procs, p, Blocked), q := Add(k.q, h, p));
    SoundAdd(k.q, h, p, |k.procs|);
    assert k1.(cur := k1.cur[c := Idle]) == Parked(k, c, h);
    DispatchClears(k1, c);
    DispatchSited(Parked(k, c, h), c);
    AlikeTrans(k.procs, Parked(k, c, h).procs, BlockOn(k, c, h).procs, {}, {});
  }

  // ---------- Ending a process ----------

  function Ended(k: K, p: nat, s: Status): K
    requires p < |k.procs|
  {
    k.(procs := WithStatus(k.procs, p, s))
  }

  /** The running process of core c ends and the core schedules. */
  lemma QuitSited(k: K, c: nat, s: Status)
    requires Sited(k) && c < CORES && k.cur[c].Task? && (s == Exited || s == Zombie)
    ensures var k1 := Ended(k, k.cur[c].p, s);
      Schedulable(k1, c) && Sited(Schedule(k1, c)) && Same(k.procs, Schedule(k1, c).procs) && Alike(k.procs, Schedule(k1, c).procs, {k.cur[c].p}) &&
      Schedule(k1, c).procs[k.cur[c].p].status == s
  {
    SitedSound(k);
    var p := k.cur[c].p;
    var k1 := Ended(k, p, s);
    var k2 := k1.(cur := k.cur[c := Idle]);
    QuitPlaced(k.procs, k.q, k.cur, c, s);
    MadeSame(k, k2);
    DispatchSound(k1, c);
    DispatchClears(k1, c);
    assert Sited(k2);
    if k2.q[READY] != [] {
      ReadyFirst(k2);
    }
    assert Dispatch(k2, c).procs[p].status == s;
    DispatchSited(k2, c);
    AlikeTrans(k.procs, k2.procs, Schedule(k1, c).procs, {p}, {});
  }

  lemma PidZeroSited(k: K, p: nat)
    requires Sited(k) && p < |k.procs|
    ensures Sited(k.(procs := k.procs[p := k.procs[p].(pid := 0)]))
  {
    hide Placed;
    var k1 := k.(procs := k.procs[p := k.procs[p].(pid := 0)]);
    SamePlaced(k.procs, k.q, k.cur, k1.procs);
    assert |k1.q| == |k.q|;
  }

  lemma ExitKeeps(k: K, c: nat)
    requires Inv(k) && c < CORES && k.cur[c].Task? && k.cur[c].p != 0
    ensures Runs(k, c) && Inv(Exit(k, c))
  {
    hide Placed, Made, Below, Schedule, Pids, Locks, WakeAll, SameIds;
    assert Sited(k);
    SitedSound(k);
    var p := k.cur[c].p;
    var k0 := k.(procs := k.procs[p := k.procs[p].(pid := 0)]);
    PidZeroSited(k, p);
    WakeAllSited(k0, WaitQ(p));
    WakeAllCore(k0, WaitQ(p));
    var k1 := WakeAll(k0, WaitQ(p));
    var s := if k1.procs[p].mode == AutoCleanupOnExit then Exited else Zombie;
    QuitSited(k1, c, s);
    var r := Exit(k, c);
    SameTrans(k0.procs, k1.procs, r.procs);
    assert r == Schedule(Ended(k1, p, s), c);
    ScheduleCore(Ended(k1, p, s), c);
    ExitPids(k, k0, r, p);
  }

  lemma ExitPids(k: K, k0: K, r: K, p: nat)
    requires Inv(k) && 1 <= p < |k.procs| && k0 == k.(procs := k.procs[p := k.procs[p].(pid := 0)])
    requires Sited(r) && Same(k0.procs, r.procs) && !Live(r.procs[p].status)
    requires r.made == k.made && r.nextPid == k.nextPid
    ensures Inv(r)
  {
    hide Placed, Made;
    forall x: nat | x < |r.procs|
      ensures r.procs[x].pid == if x == p then 0 else k.procs[x].pid
      ensures r.procs[x].locks == k.procs[x].locks
    {
    }
  }

  lemma ScheduleCore(k: K, c: nat)
    requires Schedulable(k, c)
    ensures var r := Schedule(k, c); r.made == k.made && r.nextPid == k.nextPid && r.sems == k.sems && r.boxes == k.boxes
  {
  }

  // ---------- do_kill ----------

  /** Ending p commutes with waking others: p is on no queue. */
  lemma EndedWake(k: K, h: nat, p: nat)
    requires Sound(k) && h < QUEUES && h != READY && k.q[h] != [] && p < |k.procs| && Nowhere(k.q, p)
    ensures Sound(Ended(k, p, Exited)) && Wake(Ended(k, p, Exited), h) == Ended(Wake(k, h), p, Exited)
    ensures Nowhere(Wake(k, h).q, p) && |Wake(k, h).procs| == |k.procs|
  {
    var x := k.q[h][0];
    assert x in k.q[h] && x != p;
    var a, b := Wake(Ended(k, p, Exited), h), Ended(Wake(k, h), p, Exited);
    assert a.procs == b.procs;
  }

  lemma {:induction false} EndedWakeAll(k: K, h: nat, p: nat)
    requires Sound(k) && h < QUEUES && h != READY && p < |k.procs| && Nowhere(k.q, p)
    ensures Sound(Ended(k, p, Exited)) && p < |WakeAll(k, h).procs|
    ensures WakeAll(Ended(k, p, Exited), h) == Ended(WakeAll(k, h), p, Exited)
    decreases |k.q[h]|
  {
    hide Wake;
    if k.q[h] != [] {
      EndedWake(k, h, p);
      EndedWakeAll(Wake(k, h), h, p);
    }
  }

  function ReleaseOne(k: K, l: nat): (r: K)
    requires Sound(k) && l < MAX_SEM
    ensures Sound(r)
  {
    if k.q[SemQ(l)] != [] then Wake(k, SemQ(l)) else k.(sems := k.sems[l := k.sems[l].(s := 1)])
  }

  lemma EndedReleaseOne(k: K, l: nat, p: nat)
    requires Sound(k) && l < MAX_SEM && p < |k.procs| && Nowhere(k.q, p)
    ensures Sound(Ended(k, p, Exited)) && p < |ReleaseOne(k, l).procs| && Nowhere(ReleaseOne(k, l).q, p)
    ensures ReleaseOne(Ended(k, p, Exited), l) == Ended(ReleaseOne(k, l), p, Exited)
  {
    hide Wake;
    if k.q[SemQ(l)] != [] {
      EndedWake(k, SemQ(l), p);
    }
  }

  lemma {:induction false} EndedRelease(k: K, locks: seq<nat>, i: nat, p: nat)
    requires Sound(k) && i <= |locks| && AllBelow(locks, MAX_SEM) && p < |k.procs| && Nowhere(k.q, p)
    ensures Sound(Ended(k, p, Exited)) && p < |ReleaseFrom(k, locks, i).procs| && Nowhere(ReleaseFrom(k, locks, i).q, p)
    ensures ReleaseFrom(Ended(k, p, Exited), locks, i) == Ended(ReleaseFrom(k, locks, i), p, Exited)
    decreases |locks| - i
  {
    hide Wake, Nowhere, Ended;
    if i < |locks| {
      EndedReleaseOne(k, locks[i], p);
      EndedRelease(ReleaseOne(k, locks[i]), locks, i + 1, p);
    } else {
      EndedSound(k, p);
    }
  }

  lemma EndedSound(k: K, p: nat)
    requires Sound(k) && p < |k.procs|
    ensures Sound(Ended(k, p, Exited))
  {
  }

  lemma ReleaseOneSited(k: K, l: nat)
    requires Sited(k) && l < MAX_SEM
    ensures Sound(k) && Sited(ReleaseOne(k, l)) && Same(k.procs, ReleaseOne(k, l).procs) && Alike(k.procs, ReleaseOne(k, l).procs, {})
  {
    hide Wake;
    SitedSound(k);
    if k.q[SemQ(l)] != [] {
      WakeSited(k, SemQ(l));
    } else {
      hide Placed;
      assert Made(ReleaseOne(k, l));
    }
  }

  lemma {:induction false} ReleaseSited(k: K, locks: seq<nat>, i: nat)
    requires Sited(k) && i <= |locks| && AllBelow(locks, MAX_SEM)
    ensures Sound(k) && Sited(ReleaseFrom(k, locks, i)) && Same(k.procs, ReleaseFrom(k, locks, i).procs) && Alike(k.procs, ReleaseFrom(k, locks, i).procs, {})
    decreases |locks| - i
  {
    hide Wake, Sited;
    SitedSound(k);
    if i < |locks| {
      ReleaseOneSited(k, locks[i]);
      var k1 := ReleaseOne(k, locks[i]);
      ReleaseSited(k1, locks, i + 1);
      AlikeTrans(k.procs, k1.procs, ReleaseFrom(k, locks, i).procs, {}, {});
    }
  }

  /** PCB p ended and taken off its queue. */
  function Dropped(k: K, p: nat): K
    requires p < |k.procs|
  {
    k.(procs := WithStatus(k.procs, p, Exited), q := Remove(k.q, p))
  }

  lemma DroppedSited(k: K, p: nat)
    requires Sited(k) && p < |k.procs| && k.procs[p].status != Running
    ensures Sited(Dropped(k, p)) && Same(k.procs, Dropped(k, p).procs) && Alike(k.procs, Dropped(k, p).procs, {p}) && Nowhere(Dropped(k, p).q, p)
  {
    hide Placed;
    SitedSound(k);
    DropPlaced(k.procs, k.q, k.cur, p);
    MadeSame(k, Dropped(k, p));
    RemoveGone(k.q, p);
  }

  lemma RemoveGone(q: seq<seq<nat>>, p: nat)
    ensures Nowhere(Remove(q, p), p)
  {
  }

  /** Killing a process that is not running. */
  lemma ReapDropped(k: K, p: nat)
    requires Sited(k) && p < |k.procs| && k.procs[p].status != Running && AllBelow(k.procs[p].locks, MAX_SEM)
    ensures Sound(k) && Sound(Dropped(k, p))
    ensures Reap(k, p) == WakeAll(ReleaseFrom(Dropped(k, p), k.procs[p].locks, 0), WaitQ(p))
  {
    SitedSound(k);
    SoundRemove(k.q, p, |k.procs|);
    var s, locks := k.procs[p].status, k.procs[p].locks;
    var k1 := if s == Ready || s == Blocked then k.(q := Remove(k.q, p)) else k;
    if s != Ready && s != Blocked {
      PlacedNowhere(k.procs, k.q, k.cur, p);
      RemoveNowhere(k.q, p);
    }
    RemoveGone(k.q, p);
    assert Ended(k1, p, Exited) == Dropped(k, p);
    EndedRelease(k1, locks, 0, p);
    var k2 := ReleaseFrom(k1, locks, 0);
    ReleaseCore(k1, locks, 0);
    EndedWakeAll(k2, WaitQ(p), p);
  }

  lemma ReapSited(k: K, p: nat)
    requires Sited(k) && p < |k.procs| && k.procs[p].status != Running && AllBelow(k.procs[p].locks, MAX_SEM)
    ensures Sound(k) && Sited(Reap(k, p)) && Same(k.procs, Reap(k, p).procs) && Alike(k.procs, Reap(k, p).procs, {p})
    ensures Reap(k, p).made == k.made && Reap(k, p).nextPid == k.nextPid
  {
    SitedSound(k);
    ReapDropped(k, p);
    DroppedSited(k, p);
    var k1, locks := Dropped(k, p), k.procs[p].locks;
    ReleaseSited(k1, locks, 0);
    ReleaseCore(k1, locks, 0);
    var k2 := ReleaseFrom(k1, locks, 0);
    WakeAllSited(k2, WaitQ(p));
    WakeAllCore(k2, WaitQ(p));
    AlikeTrans(k1.procs, k2.procs, Reap(k, p).procs, {}, {});
    AlikeTrans(k.procs, k1.procs, Reap(k, p).procs, {p}, {} + {});
  }

  /** The two loops of do_kill, run by the killed process itself. */
  lemma SelfReap(k: K, c: nat)
    requires Sited(k) && c < CORES && k.cur[c].Task? && AllBelow(k.procs[k.cur[c].p].locks, MAX_SEM)
    ensures var p := k.cur[c].p; var k1 := WakeAll(ReleaseFrom(k, k.procs[p].locks, 0), WaitQ(p));
      Sound(k) && Sited(k1) && Same(k.procs, k1.procs) && Alike(k.procs, k1.procs, {}) && k1.cur == k.cur && k1.made == k.made && k1.nextPid == k.nextPid &&
      Reap(k, p) == Ended(k1, p, Exited)
  {
    SitedSound(k);
    var p := k.cur[c].p;
    var locks := k.procs[p].locks;
    ReleaseSited(k, locks, 0);
    ReleaseCore(k, locks, 0);
    var k2 := ReleaseFrom(k, locks, 0);
    WakeAllSited(k2, WaitQ(p));
    WakeAllCore(k2, WaitQ(p));
    AlikeTrans(k.procs, k2.procs, WakeAll(k2, WaitQ(p)).procs, {}, {});
  }

  lemma InvSited(k: K)
    requires Inv(k)
    ensures Sited(k) && Sound(k) && 1 <= |k.procs| <= MAX_TASK
    ensures forall c :: 0 <= c < CORES && k.cur[c].Task? ==> Runs(k, c)
  {
    assert Sited(k);
    SitedSound(k);
  }

  lemma LocksBelow(k: K)
    requires Inv(k)
    ensures forall p: nat :: p < |k.procs| ==> AllBelow(k.procs[p].locks, MAX_SEM)
  {
  }

  /** do_kill, of any process but one running on the other core. */
  lemma KillKeeps(k: K, c: nat, pid: int)
    requires Inv(k) && c < CORES && k.cur[1 - c] != Task(FindPid(k.procs, pid))
    ensures Sound(k) && (forall p: nat :: p < |k.procs| ==> AllBelow(k.procs[p].locks, MAX_SEM)) && Inv(Kill(k, c, pid).0)
  {
    hide Inv, Sited, Placed, Reap, Wake, Schedule, WakeAll, ReleaseFrom, Same;
    InvSited(k);
    LocksBelow(k);
    var p := FindPid(k.procs, pid);
    if pid != 0 && pid != 1 && p < |k.procs| {
      var r := Kill(k, c, pid).0;
      if k.cur[c] == Task(p) {
        SelfReap(k, c);
        var k1 := WakeAll(ReleaseFrom(k, k.procs[p].locks, 0), WaitQ(p));
        QuitSited(k1, c, Exited);
        ScheduleCore(Ended(k1, p, Exited), c);
        SameTrans(k.procs, k1.procs, r.procs);
      } else {
        assert k.procs[p].status != Running by { NotRunning(k, p, c); }
        ReapSited(k, p);
      }
      SameInv(k, r);
    }
  }

  lemma NotRunning(k: K, p: nat, c: nat)
    requires Sited(k) && p < |k.procs| && c < CORES && k.cur[c] != Task(p) && k.cur[1 - c] != Task(p)
    ensures k.procs[p].status != Running
  {
    assert k.cur[0] != Task(p) && k.cur[1] != Task(p);
    assert !OnCore(k.cur, p);
  }

  // ---------- The other calls ----------

  lemma {:induction false} CheckCore(k: K, i: nat, now: nat)
    requires Sound(k) && i <= |k.q[TIMERS]|
    ensures var r := CheckFrom(k, i, now);
      r.cur == k.cur && r.made == k.made && r.nextPid == k.nextPid && r.sems == k.sems && r.boxes == k.boxes
    decreases |k.q[TIMERS]| - i
  {
    if i < |k.q[TIMERS]| {
      var p := k.q[TIMERS][i];
      if k.procs[p].wake <= now {
        MoveReadySound(k, p);
        WithoutShorter(k.q[TIMERS], p);
        var r := MoveReady(k, p);
        if i <= |r.q[TIMERS]| {
          CheckCore(r, i, now);
        }
      } else {
        CheckCore(k, i + 1, now);
      }
    }
  }

  lemma TimerCheckKeeps(k: K, now: nat)
    requires Inv(k)
    ensures Sound(k) && Inv(TimerCheck(k, now))
  {
    assert Sited(k);
    SitedSound(k);
    CheckSited(k, 0, now);
    CheckCore(k, 0, now);
    SameInv(k, TimerCheck(k, now));
  }

  lemma LivePid(k: K, c: nat)
    requires Inv(k) && c < CORES && k.cur[c].Task?
    ensures k.procs[k.cur[c].p].pid != 0
  {
    SitedSound(k);
  }

  lemma ScheduleKeeps(k: K, c: nat)
    requires Inv(k) && c < CORES
    ensures Schedulable(k, c) && Inv(Schedule(k, c))
  {
    assert Sited(k);
    if k.cur[c].Task? {
      LivePid(k, c);
    }
    ScheduleSited(k, c);
    ScheduleCore(k, c);
    SameInv(k, Schedule(k, c));
  }

  lemma BlockOnCore(k: K, c: nat, h: nat)
    requires Runs(k, c) && h < QUEUES && h != READY
    ensures var r := BlockOn(k, c, h); r.made == k.made && r.nextPid == k.nextPid && r.sems == k.sems && r.boxes == k.boxes
  {
  }

  /** Any blocking call, on any initialised queue. */
  lemma BlockOnKeeps(k: K, c: nat, h: nat)
    requires Inv(k) && c < CORES && k.cur[c].Task? && h < QUEUES && h != READY && h in k.made
    ensures Runs(k, c) && Inv(BlockOn(k, c, h))
  {
    assert Sited(k);
    SitedSound(k);
    BlockOnSited(k, c, h);
    BlockOnCore(k, c, h);
    SameInv(k, BlockOn(k, c, h));
  }

  /** Only the fields that nothing else depends on change. */
  lemma FieldsKeep(k: K, procs1: seq<Proc>)
    requires Inv(k) && |procs1| == |k.procs|
    requires forall p: nat :: p < |k.procs| ==>
      procs1[p].pid == k.procs[p].pid && procs1[p].status == k.procs[p].status && procs1[p].locks == k.procs[p].locks
    ensures Inv(k.(procs := procs1))
  {
    hide Placed;
    SamePlaced(k.procs, k.q, k.cur, procs1);
    assert Made(k.(procs := procs1));
  }

  lemma SleepKeeps(k: K, c: nat, t: nat, base: nat, now: nat)
    requires Inv(k) && c < CORES && k.cur[c].Task?
    ensures Runs(k, c) && Inv(Sleep(k, c, t, base, now))
  {
    SitedSound(k);
    SitedMade(k);
    var p := k.cur[c].p;
    var procs1 := k.procs[p := k.procs[p].(wake := U64(now + U64(t * base)))];
    FieldsKeep(k, procs1);
    BlockOnKeeps(k.(procs := procs1), c, TIMERS);
  }

  lemma WaitPidKeeps(k: K, c: nat, pid: int)
    requires Inv(k) && c < CORES && k.cur[c].Task?
    ensures Runs(k, c) && |k.procs| <= MAX_TASK && Inv(WaitPid(k, c, pid).0)
  {
    SitedSound(k);
    SitedMade(k);
    ShellPid(k);
    var i := FindPid(k.procs, pid);
    if pid != 1 && pid != 0 && i < |k.procs| {
      BlockOnKeeps(k, c, WaitQ(i));
    }
  }

  lemma ShellPid(k: K)
    requires Inv(k)
    ensures 1 <= |k.procs| <= MAX_TASK && k.procs[0].pid == 1
  {
  }

  lemma ExecKeeps(k: K, mode: Mode)
    requires Inv(k) && |k.procs| < MAX_TASK
    ensures Sound(k) && Inv(Exec(k, mode))
  {
    hide Placed;
    assert Sited(k);
    SitedSound(k);
    var r, p := Exec(k, mode), |k.procs|;
    NewPlaced(k.procs, k.q, k.cur, r.procs[p]);
    ExecMade(k, mode);
    assert Pids(r);
    assert Locks(r);
  }

  lemma ExecMade(k: K, mode: Mode)
    requires Made(k) && Sound(k) && |k.procs| < MAX_TASK
    ensures Made(Exec(k, mode))
  {
    var r := Exec(k, mode);
    forall h: nat | h < |r.q| && h !in r.made
      ensures r.q[h] == []
    {
      assert h !in k.made && h != READY;
    }
  }
}
