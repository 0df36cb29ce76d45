/** Scheduling, sleeping, waiting, exit and kill, as functions on the kernel state. */
module KernelSched {
  import opened Queues
  import opened KernelState

  /** What the operations need to be defined at all. */
  predicate Sound(k: K) {
    && |k.q| == QUEUES && |k.cur| == CORES && Below(k.q, |k.procs|)
    && (forall c :: 0 <= c < |k.cur| && k.cur[c].Task? ==> k.cur[c].p < |k.procs|)
    && |k.sems| == MAX_SEM && |k.boxes| == MAX_MBOX
  }

  lemma SoundAdd(q: seq<seq<nat>>, h: nat, p: nat, n: nat)
    requires h < |q| && Below(q, n) && p < n
    ensures Below(Add(q, h, p), n)
  {
  }

  lemma SoundRemove(q: seq<seq<nat>>, p: nat, n: nat)
    requires Below(q, n)
    ensures Below(Remove(q, p), n)
  {
    var r := Remove(q, p);
    forall h: nat | h < |r|
      ensures AllBelow(r[h], n)
    {
      forall i | 0 <= i < |r[h]|
        ensures r[h][i] < n
      {
        assert r[h][i] in r[h];
      }
    }
  }

  lemma {:induction false} WithoutShorter(s: seq<nat>, p: nat)
    ensures |Without(s, p)| <= |s| && (p in s ==> |Without(s, p)| < |s|)
  {
    if s != [] {
      WithoutShorter(s[1..], p);
    }
  }

  /** The lists seen through MoveReady. */
  lemma MoveReadySound(k: K, p: nat)
    requires Sound(k) && p < |k.procs|
    ensures Sound(MoveReady(k, p))
    ensures forall h: nat :: h < QUEUES && h != READY ==> MoveReady(k, p).q[h] == Without(k.q[h], p)
    ensures MoveReady(k, p).q[READY] == Without(k.q[READY], p) + [p]
  {
    SoundRemove(k.q, p, |k.procs|);
    SoundAdd(Remove(k.q, p), READY, p, |k.procs|);
  }

  /** The first waiter on queue h is made ready. */
  function Wake(k: K, h: nat): (r: K)
    requires Sound(k) && h < QUEUES && h != READY && k.q[h] != []
    ensures Sound(r) && |r.q[h]| < |k.q[h]|
  {
    var p := k.q[h][0];
    MoveReadySound(k, p);
    WithoutShorter(k.q[h], p);
    MoveReady(k, p)
  }

  /** All waiters on queue h are made ready, first come first. */
  function WakeAll(k: K, h: nat): (r: K)
    requires Sound(k) && h < QUEUES && h != READY
    ensures Sound(r) && r.q[h] == []
    decreases |k.q[h]|
  {
    if k.q[h] == [] then k else WakeAll(Wake(k, h), h)
  }

  /** timer_check from the i-th sleeper on. */
  function CheckFrom(k: K, i: nat, now: nat): (r: K)
    requires Sound(k) && i <= |k.q[TIMERS]|
    ensures Sound(r)
    decreases |k.q[TIMERS]| - i
  {
    if i == |k.q[TIMERS]| then k
    else
      var p := k.q[TIMERS][i];
      if k.procs[p].wake <= now then
        MoveReadySound(k, p);
        WithoutShorter(k.q[TIMERS], p);
        var r := MoveReady(k, p);
        if i <= |r.q[TIMERS]| then CheckFrom(r, i, now) else r
      else CheckFrom(k, i + 1, now)
  }

  /** timer_check */
  function TimerCheck(k: K, now: nat): (r: K)
    requires Sound(k)
    ensures Sound(r)
  {
    CheckFrom(k, 0, now)
  }

  function U64(x: int): nat {
    x % 0x1_0000_0000_0000_0000
  }

  /** The process that runs on core c, if there is one. */
  predicate Runs(k: K, c: nat) {
    Sound(k) && c < CORES && k.cur[c].Task? && k.procs[k.cur[c].p].status == Running
  }

  /** The running process of core c is blocked on queue h and the core schedules. */
  function BlockOn(k: K, c: nat, h: nat): (r: K)
    requires Runs(k, c) && h < QUEUES && h != READY
    ensures Sound(r)
  {
    var p := k.cur[c].p;
    SoundAdd(k.q, h, p, |k.procs|);
    var k1 := k.(procs := WithStatus(k.procs, p, Blocked), q := Add(k.q, h, p));
    DispatchSound(k1, c);
    Schedule(k1, c)
  }

  lemma DispatchSound(k: K, c: nat)
    requires Sound(k) && c < CORES
    ensures Schedulable(k, c) && Sound(Schedule(k, c))
  {
    var k1 := PutBack(k, c);
    if k.cur[c].Task? {
      SoundAdd(k.q, READY, k.cur[c].p, |k.procs|);
    }
    if k1.q[READY] != [] {
      SoundRemove(k1.q, k1.q[READY][0], |k1.procs|);
    }
  }

  /** do_sleep: until now + t time bases, in 64 bits. */
  function Sleep(k: K, c: nat, t: nat, base: nat, now: nat): K
    requires Runs(k, c)
  {
    var p := k.cur[c].p;
    BlockOn(k.(procs := k.procs[p := k.procs[p].(wake := U64(now + U64(t * base)))]), c, TIMERS)
  }

  /** The first PCB with this process id, or |procs|. */
  function FindPid(procs: seq<Proc>, pid: int): (i: nat)
    ensures i <= |procs|
    ensures i < |procs| ==> procs[i].pid == pid
    ensures forall j :: 0 <= j < i ==> procs[j].pid != pid
    decreases |procs|
  {
    if procs == [] then 0 else if procs[0].pid == pid then 0 else 1 + FindPid(procs[1..], pid)
  }

  /** do_waitpid */
  function WaitPid(k: K, c: nat, pid: int): (K, int)
    requires Runs(k, c) && |k.procs| <= MAX_TASK
  {
    if pid == 1 || pid == 0 then (k, 0)
    else
      var i := FindPid(k.procs, pid);
      if i == |k.procs| then (k, 0) else (BlockOn(k, c, WaitQ(i)), 1)
  }

  /** do_exit; the shell, which has no wait list, does not exit. */
  function Exit(k: K, c: nat): (r: K)
    requires Runs(k, c) && |k.procs| <= MAX_TASK
    ensures Sound(r)
  {
    var p := k.cur[c].p;
    var k1 := WakeAll(k.(procs := k.procs[p := k.procs[p].(pid := 0)]), WaitQ(p));
    WakeAllCore(k.(procs := k.procs[p := k.procs[p].(pid := 0)]), WaitQ(p));
    var s := if k1.procs[p].mode == AutoCleanupOnExit then Exited else Zombie;
    var k2 := k1.(procs := WithStatus(k1.procs, p, s));
    DispatchSound(k2, c);
    Schedule(k2, c)
  }

  lemma {:induction false} WakeAllCore(k: K, h: nat)
    requires Sound(k) && h < QUEUES && h != READY
    ensures var r := WakeAll(k, h);
      r.cur == k.cur && r.made == k.made && r.nextPid == k.nextPid && r.sems == k.sems && r.boxes == k.boxes &&
      SameIds(k.procs, r.procs)
    decreases |k.q[h]|
  {
    if k.q[h] != [] {
      WakeAllCore(Wake(k, h), h);
    }
  }

  /** Only statuses differ. */
  predicate SameIds(procs: seq<Proc>, procs1: seq<Proc>) {
    |procs1| == |procs| && forall p: nat :: p < |procs| ==> procs1[p] == procs[p].(status := procs1[p].status)
  }

  /** do_kill gives up every recorded lock from the i-th on: to the first waiter, or by setting the count to 1. */
  function ReleaseFrom(k: K, locks: seq<nat>, i: nat): (r: K)
    requires Sound(k) && i <= |locks| && AllBelow(locks, MAX_SEM)
    ensures Sound(r)
    decreases |locks| - i
  {
    if i == |locks| then k
    else
      var l := locks[i];
      var k1 := if k.q[SemQ(l)] != [] then Wake(k, SemQ(l)) else k.(sems := k.sems[l := k.sems[l].(s := 1)]);
      ReleaseFrom(k1, locks, i + 1)
  }

  lemma {:induction false} ReleaseCore(k: K, locks: seq<nat>, i: nat)
    requires Sound(k) && i <= |locks| && AllBelow(locks, MAX_SEM)
    ensures var r := ReleaseFrom(k, locks, i);
      r.cur == k.cur && r.made == k.made && r.nextPid == k.nextPid && r.boxes == k.boxes && SameIds(k.procs, r.procs)
    decreases |locks| - i
  {
    if i < |locks| {
      var l := locks[i];
      var k1 := if k.q[SemQ(l)] != [] then Wake(k, SemQ(l)) else k.(sems := k.sems[l := k.sems[l].(s := 1)]);
      ReleaseCore(k1, locks, i + 1);
    }
  }

  /** What do_kill does to PCB p before it schedules. */
  function Reap(k: K, p: nat): (r: K)
    requires Sound(k) && |k.procs| <= MAX_TASK && p < |k.procs| && AllBelow(k.procs[p].locks, MAX_SEM)
    ensures Sound(r) && r.cur == k.cur && |r.procs| == |k.procs|
  {
    var s := k.procs[p].status;
    SoundRemove(k.q, p, |k.procs|);
    var k1 := if s == Ready || s == Blocked then k.(q := Remove(k.q, p)) else k;
    var k2 := ReleaseFrom(k1, k1.procs[p].locks, 0);
    ReleaseCore(k1, k1.procs[p].locks, 0);
    var k3 := WakeAll(k2, WaitQ(p));
    WakeAllCore(k2, WaitQ(p));
    k3.(procs := WithStatus(k3.procs, p, Exited))
  }

  /** do_kill of a whole process (tid 0), called on core c. */
  function Kill(k: K, c: nat, pid: int): (K, int)
    requires Sound(k) && c < CORES && |k.procs| <= MAX_TASK
    requires forall p: nat :: p < |k.procs| ==> AllBelow(k.procs[p].locks, MAX_SEM)
  {
    if pid == 0 || pid == 1 then (k, 0)
    else
      var p := FindPid(k.procs, pid);
      if p == |k.procs| then (k, 0)
      else
        var k1 := Reap(k, p);
        if k.cur[c] == Task(p) then
          DispatchSound(k1, c);
          (Schedule(k1, c), 1)
        else (k1, 1)
  }

  /** What do_exec does to the process table and the queues. */
  function Exec(k: K, mode: Mode): (r: K)
    requires Sound(k)
  {
    var p := |k.procs|;
    k.(procs := k.procs + [Proc(k.nextPid, Ready, mode, 0, [], NoCall)], q := Add(k.q, READY, p),
       made := k.made + {WaitQ(p)}, nextPid := k.nextPid + 1)
  }
}
