/** Semaphores, mutexes, barriers and mailboxes, as functions on the kernel state. */
module KernelLocks {
  import opened Queues
  import opened KernelState
  import opened KernelSched
  import opened KernelInv

  // ---------- Semaphores and mutexes ----------

  function WithSem(k: K, i: nat, s: int): K
    requires Sound(k) && i < MAX_SEM
  {
    k.(sems := k.sems[i := k.sems[i].(s := s)])
  }

  /** do_sem_init, for a free semaphore that nobody waits on. */
  function SemInit(k: K, i: nat, val: int): (r: K)
    requires Sound(k) && i < MAX_SEM
  {
    k.(sems := k.sems[i := Sem(val, true)], made := k.made + {SemQ(i)})
  }

  /** do_sem_up: the first waiter is let through, or the count grows. */
  function SemUp(k: K, i: nat): (r: K)
    requires Sound(k) && i < MAX_SEM
    ensures Sound(r)
  {
    if k.q[SemQ(i)] != [] then Wake(k, SemQ(i)) else WithSem(k, i, k.sems[i].s + 1)
  }

  /** do_sem_down */
  function SemDown(k: K, c: nat, i: nat): (r: K)
    requires Runs(k, c) && i < MAX_SEM
    ensures Sound(r)
  {
    if k.sems[i].s > 0 then WithSem(k, i, k.sems[i].s - 1) else BlockOn(k, c, SemQ(i))
  }

  /** The process of core c with other recorded locks. */
  function WithLocks(k: K, c: nat, locks: seq<nat>): (r: K)
    requires Runs(k, c)
    ensures Runs(r, c)
  {
    k.(procs := k.procs[k.cur[c].p := k.procs[k.cur[c].p].(locks := locks)])
  }

  /** do_mutex_lock_acquire: the lock is recorded before it is got. */
  function Acquire(k: K, c: nat, i: nat): (r: K)
    requires Runs(k, c) && i < MAX_SEM
    ensures Sound(r)
  {
    SemDown(WithLocks(k, c, k.procs[k.cur[c].p].locks + [i]), c, i)
  }

  lemma WakeKeepsCore(k: K, h: nat, c: nat)
    requires Runs(k, c) && h < QUEUES && h != READY && k.q[h] != [] && k.q[h][0] != k.cur[c].p
    ensures Runs(Wake(k, h), c) && Wake(k, h).cur == k.cur && Wake(k, h).procs[k.cur[c].p] == k.procs[k.cur[c].p]
  {
  }

  /** do_mutex_lock_release: the last recorded lock is forgotten, whichever is released. */
  function Release(k: K, c: nat, i: nat): (r: K)
    requires Runs(k, c) && i < MAX_SEM && k.procs[k.cur[c].p].locks != [] && k.cur[c].p !in k.q[SemQ(i)]
    ensures Sound(r)
  {
    var k1 := SemUp(k, i);
    if k.q[SemQ(i)] != [] then
      WakeKeepsCore(k, SemQ(i), c);
      var locks := k1.procs[k1.cur[c].p].locks;
      WithLocks(k1, c, locks[..|locks| - 1])
    else
      var locks := k1.procs[k1.cur[c].p].locks;
      WithLocks(k1, c, locks[..|locks| - 1])
  }

  /** do_sem_destroy */
  function SemDestroy(k: K, i: nat): (r: K)
    requires Sound(k) && i < MAX_SEM
    ensures Sound(r)
  {
    var k1 := WakeAll(k, SemQ(i));
    k1.(sems := k1.sems[i := k1.sems[i].(busy := false)])
  }

  // ---------- Barriers ----------

  /** do_barrier_init, when nobody waits. */
  function BarrierInit(k: K, i: nat, count: nat): K
    requires Sound(k) && i < MAX_SEM
  {
    SemInit(k, i, count)
  }

  /** do_barrier_wait: all but the last wait; the last lets all of them go and counts them back in. */
  function BarrierWait(k: K, c: nat, i: nat): (r: K)
    requires Runs(k, c) && i < MAX_SEM
    ensures Sound(r)
  {
    if k.sems[i].s > 1 then BlockOn(WithSem(k, i, k.sems[i].s - 1), c, SemQ(i))
    else WakeAll(WithSem(k, i, k.sems[i].s + |k.q[SemQ(i)]|), SemQ(i))
  }

  // ---------- Mailboxes ----------

  function WithCall(k: K, c: nat, call: Call): (r: K)
    requires Runs(k, c)
    ensures Runs(r, c)
  {
    k.(procs := k.procs[k.cur[c].p := k.procs[k.cur[c].p].(call := call)])
  }

  function WithBox(k: K, m: nat, b: Box): K
    requires Sound(k) && m < MAX_MBOX
  {
    k.(boxes := k.boxes[m := b])
  }

  /** do_mbox_open of a mailbox that was not in use. */
  function BoxOpen(k: K, m: nat): K
    requires Sound(k) && m < MAX_MBOX
  {
    k.(boxes := k.boxes[m := Box([], 0, 0)], made := k.made + {FullQ(m), EmptyQ(m)})
  }

  /** do_mbox_send, from its loop test to its return or its next do_scheduler. */
  function Send(k: K, c: nat, m: nat, msg: seq<byte>): (r: K)
    requires Runs(k, c) && m < MAX_MBOX
    ensures Sound(r)
  {
    var b := k.boxes[m];
    if |b.buf| + |msg| > MBOX_SIZE then
      BlockOn(WithBox(WithCall(k, c, Sending(m, msg)), m, b.(fullCount := b.fullCount + 1)), c, FullQ(m))
    else WakeAll(WithBox(WithCall(k, c, NoCall), m, b.(buf := b.buf + msg)), EmptyQ(m))
  }

  /** do_mbox_recv, likewise; a receive that returns takes the oldest bytes. */
  function Recv(k: K, c: nat, m: nat, want: nat): (r: K)
    requires Runs(k, c) && m < MAX_MBOX
    ensures Sound(r)
  {
    var b := k.boxes[m];
    if |b.buf| < want then
      BlockOn(WithBox(WithCall(k, c, Receiving(m, want)), m, b.(emptyCount := b.emptyCount + 1)), c, EmptyQ(m))
    else WakeAll(WithBox(WithCall(k, c, NoCall), m, b.(buf := b.buf[want..])), FullQ(m))
  }

  // ---------- One place for every process, still ----------

  lemma WakeKeeps(k: K, h: nat)
    requires Inv(k) && h < QUEUES && h != READY && k.q[h] != []
    ensures Sound(k) && Inv(Wake(k, h))
  {
    assert Sited(k);
    WakeSited(k, h);
    SameInv(k, Wake(k, h));
  }

  lemma WakeAllKeeps(k: K, h: nat)
    requires Inv(k) && h < QUEUES && h != READY
    ensures Sound(k) && Inv(WakeAll(k, h))
  {
    assert Sited(k);
    WakeAllSited(k, h);
    WakeAllCore(k, h);
    SameInv(k, WakeAll(k, h));
  }

  lemma SemsKeep(k: K, sems: seq<Sem>, boxes: seq<Box>)
    requires Inv(k) && |sems| == MAX_SEM && |boxes| == MAX_MBOX
    ensures Inv(k.(sems := sems, boxes := boxes))
  {
    hide Placed;
    assert Made(k.(sems := sems, boxes := boxes));
  }

  /** Another queue head is initialised. */
  lemma MadeKeeps(k: K, more: set<nat>)
    requires Inv(k) && forall h :: h in more ==> SemQ(0) <= h < QUEUES
    ensures Inv(k.(made := k.made + more))
  {
    hide Placed;
    var r := k.(made := k.made + more);
    assert Made(r);
  }

  lemma InvRuns(k: K, c: nat)
    requires Inv(k)
    ensures Sound(k)
    ensures c < CORES && k.cur[c].Task? ==> Runs(k, c) && Nowhere(k.q, k.cur[c].p) && k.cur[c].p < |k.procs|
  {
    SitedSound(k);
  }

  lemma SemInitKeeps(k: K, i: nat, val: int)
    requires Inv(k) && i < MAX_SEM
    ensures Sound(k) && Inv(SemInit(k, i, val))
  {
    hide Inv;
    InvRuns(k, 0);
    var k1 := k.(made := k.made + {SemQ(i)});
    MadeKeeps(k, {SemQ(i)});
    SemsKeep(k1, k.sems[i := Sem(val, true)], k.boxes);
  }

  lemma SemUpKeeps(k: K, i: nat)
    requires Inv(k) && i < MAX_SEM
    ensures Sound(k) && Inv(SemUp(k, i))
  {
    hide Inv, Wake;
    InvRuns(k, 0);
    if k.q[SemQ(i)] != [] {
      WakeKeeps(k, SemQ(i));
    } else {
      SemsKeep(k, k.sems[i := k.sems[i].(s := k.sems[i].s + 1)], k.boxes);
    }
  }

  lemma SemDownKeeps(k: K, c: nat, i: nat)
    requires Inv(k) && c < CORES && k.cur[c].Task? && i < MAX_SEM && SemQ(i) in k.made
    ensures Runs(k, c) && Inv(SemDown(k, c, i))
  {
    hide Inv, BlockOn;
    InvRuns(k, c);
    if k.sems[i].s > 0 {
      SemsKeep(k, k.sems[i := k.sems[i].(s := k.sems[i].s - 1)], k.boxes);
    } else {
      BlockOnKeeps(k, c, SemQ(i));
    }
  }

  lemma LocksKeep(k: K, c: nat, locks: seq<nat>)
    requires Inv(k) && c < CORES && k.cur[c].Task? && |locks| <= MAX_LOCK
    requires forall i :: 0 <= i < |locks| ==> locks[i] < MAX_SEM && SemQ(locks[i]) in k.made
    ensures Runs(k, c) && Inv(WithLocks(k, c, locks))
  {
    hide Placed;
    InvRuns(k, c);
    var r := WithLocks(k, c, locks);
    SamePlaced(k.procs, k.q, k.cur, r.procs);
    assert Made(r);
  }

  lemma LocksOf(k: K, c: nat)
    requires Inv(k) && c < CORES && k.cur[c].Task?
    ensures k.cur[c].p < |k.procs|
    ensures var locks := k.procs[k.cur[c].p].locks;
      |locks| <= MAX_LOCK && forall i :: 0 <= i < |locks| ==> locks[i] < MAX_SEM && SemQ(locks[i]) in k.made
  {
  }

  lemma AcquireKeeps(k: K, c: nat, i: nat)
    requires Inv(k) && c < CORES && k.cur[c].Task? && i < MAX_SEM && SemQ(i) in k.made && k.cur[c].p < |k.procs|
    requires |k.procs[k.cur[c].p].locks| < MAX_LOCK
    ensures Runs(k, c) && Inv(Acquire(k, c, i))
  {
    hide Inv, SemDown;
    InvRuns(k, c);
    LocksOf(k, c);
    LocksKeep(k, c, k.procs[k.cur[c].p].locks + [i]);
    SemDownKeeps(WithLocks(k, c, k.procs[k.cur[c].p].locks + [i]), c, i);
  }

  lemma SemUpCore(k: K, c: nat, i: nat)
    requires Runs(k, c) && i < MAX_SEM && k.cur[c].p !in k.q[SemQ(i)]
    ensures SemUp(k, i).cur == k.cur && Runs(SemUp(k, i), c) && SemUp(k, i).procs[k.cur[c].p] == k.procs[k.cur[c].p]
  {
    if k.q[SemQ(i)] != [] {
      WakeKeepsCore(k, SemQ(i), c);
    }
  }

  lemma ReleaseKeeps(k: K, c: nat, i: nat)
    requires Inv(k) && c < CORES && k.cur[c].Task? && i < MAX_SEM && k.cur[c].p < |k.procs|
    requires k.procs[k.cur[c].p].locks != []
    ensures Runs(k, c) && k.cur[c].p !in k.q[SemQ(i)] && Inv(Release(k, c, i))
  {
    hide Inv, SemUp, Wake;
    InvRuns(k, c);
    SemUpKeeps(k, i);
    SemUpCore(k, c, i);
    var k1 := SemUp(k, i);
    LocksOf(k1, c);
    var locks := k1.procs[k1.cur[c].p].locks;
    LocksKeep(k1, c, locks[..|locks| - 1]);
  }

  lemma SemDestroyKeeps(k: K, i: nat)
    requires Inv(k) && i < MAX_SEM
    ensures Sound(k) && Inv(SemDestroy(k, i))
  {
    hide Inv, WakeAll;
    WakeAllKeeps(k, SemQ(i));
    var k1 := WakeAll(k, SemQ(i));
    SemsKeep(k1, k1.sems[i := k1.sems[i].(busy := false)], k1.boxes);
  }

  lemma BarrierWaitKeeps(k: K, c: nat, i: nat)
    requires Inv(k) && c < CORES && k.cur[c].Task? && i < MAX_SEM && SemQ(i) in k.made
    ensures Runs(k, c) && Inv(BarrierWait(k, c, i))
  {
    hide Inv, WakeAll, BlockOn, Below, WithStatus, Wake;
    InvRuns(k, c);
    var s := if k.sems[i].s > 1 then k.sems[i].s - 1 else k.sems[i].s + |k.q[SemQ(i)]|;
    SemsKeep(k, k.sems[i := k.sems[i].(s := s)], k.boxes);
    if k.sems[i].s > 1 {
      BlockOnKeeps(WithSem(k, i, s), c, SemQ(i));
    } else {
      WakeAllKeeps(WithSem(k, i, s), SemQ(i));
    }
  }

  lemma CallKeeps(k: K, c: nat, call: Call)
    requires Inv(k) && c < CORES && k.cur[c].Task?
    ensures Runs(k, c) && Inv(WithCall(k, c, call))
  {
    hide Inv;
    InvRuns(k, c);
    FieldsKeep(k, WithCall(k, c, call).procs);
  }

  lemma BoxOpenKeeps(k: K, m: nat)
    requires Inv(k) && m < MAX_MBOX
    ensures Sound(k) && Inv(BoxOpen(k, m))
  {
    hide Inv;
    InvRuns(k, 0);
    MadeKeeps(k, {FullQ(m), EmptyQ(m)});
    SemsKeep(k.(made := k.made + {FullQ(m), EmptyQ(m)}), k.sems, k.boxes[m := Box([], 0, 0)]);
  }

  lemma SendKeeps(k: K, c: nat, m: nat, msg: seq<byte>)
    requires Inv(k) && c < CORES && k.cur[c].Task? && m < MAX_MBOX && FullQ(m) in k.made
    ensures Runs(k, c) && Inv(Send(k, c, m, msg))
  {
    hide Inv, WakeAll, BlockOn, Below, WithStatus, Wake;
    InvRuns(k, c);
    var b := k.boxes[m];
    if |b.buf| + |msg| > MBOX_SIZE {
      CallKeeps(k, c, Sending(m, msg));
      var k1 := WithCall(k, c, Sending(m, msg));
      SemsKeep(k1, k1.sems, k1.boxes[m := b.(fullCount := b.fullCount + 1)]);
      BlockOnKeeps(WithBox(k1, m, b.(fullCount := b.fullCount + 1)), c, FullQ(m));
    } else {
      CallKeeps(k, c, NoCall);
      var k1 := WithCall(k, c, NoCall);
      SemsKeep(k1, k1.sems, k1.boxes[m := b.(buf := b.buf + msg)]);
      WakeAllKeeps(WithBox(k1, m, b.(buf := b.buf + msg)), EmptyQ(m));
    }
  }

  lemma RecvKeeps(k: K, c: nat, m: nat, want: nat)
    requires Inv(k) && c < CORES && k.cur[c].Task? && m < MAX_MBOX && EmptyQ(m) in k.made
    ensures Runs(k, c) && Inv(Recv(k, c, m, want))
  {
    hide Inv, WakeAll, BlockOn, Below, WithStatus, Wake;
    InvRuns(k, c);
    var b := k.boxes[m];
    if |b.buf| < want {
      CallKeeps(k, c, Receiving(m, want));
      var k1 := WithCall(k, c, Receiving(m, want));
      SemsKeep(k1, k1.sems, k1.boxes[m := b.(emptyCount := b.emptyCount + 1)]);
      BlockOnKeeps(WithBox(k1, m, b.(emptyCount := b.emptyCount + 1)), c, EmptyQ(m));
    } else {
      CallKeeps(k, c, NoCall);
      var k1 := WithCall(k, c, NoCall);
      SemsKeep(k1, k1.sems, k1.boxes[m := b.(buf := b.buf[want..])]);
      WakeAllKeeps(WithBox(k1, m, b.(buf := b.buf[want..])), FullQ(m));
    }
  }
}
