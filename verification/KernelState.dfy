/** The process side of the kernel as a value: process table, queues, what runs on each core,
    semaphores and mailboxes; and the one place every process is in. */
module KernelState {
  import opened Queues

  const MAX_TASK := 50
  const MAX_LOCK := 20
  const MAX_SEM := 100
  const MAX_MBOX := 15
  const MBOX_SIZE := 64
  const CORES := 2

  // ---------- The queues, numbered ----------

  const READY := 0
  const TIMERS := 1
  const QUEUES := 182

  /** The wait_list of PCB p. */
  function WaitQ(p: nat): nat { 2 + p }

  /** The wait_queue of semaphore i. */
  function SemQ(i: nat): nat { 52 + i }

  /** Senders waiting for room in mailbox m. */
  function FullQ(m: nat): nat { 152 + m }

  /** Receivers waiting for data in mailbox m. */
  function EmptyQ(m: nat): nat { 167 + m }

  // ---------- The state ----------

  type byte = bv8

  datatype Status = Blocked | Running | Ready | Zombie | Exited
  datatype Mode = EnterZombieOnExit | AutoCleanupOnExit

  /** The mailbox call a process is inside of, while it is blocked there or has just been woken. */
  datatype Call = NoCall | Sending(box: nat, msg: seq<byte>) | Receiving(box: nat, want: nat)

  datatype Proc = Proc(pid: nat, status: Status, mode: Mode, wake: nat, locks: seq<nat>, call: Call)
  datatype Task = Idle | Task(p: nat)
  datatype Sem = Sem(s: int, busy: bool)
  datatype Box = Box(buf: seq<byte>, fullCount: nat, emptyCount: nat)

  datatype K = K(procs: seq<Proc>, q: seq<seq<nat>>, made: set<nat>, cur: seq<Task>, nextPid: nat,
                 sems: seq<Sem>, boxes: seq<Box>)

  // ---------- Every process is in exactly one place ----------

  predicate OnCore(cur: seq<Task>, p: nat) {
    Task(p) in cur
  }

  /** p waits on some queue other than the ready queue. */
  ghost predicate Waiting(q: seq<seq<nat>>, p: nat) {
    exists h: nat :: h < |q| && h != READY && p in q[h]
  }

  /** Running processes are on one core and on no queue, ready ones on the ready queue, blocked ones on
      exactly one other queue, and exited ones and zombies nowhere. */
  ghost predicate Placed(procs: seq<Proc>, q: seq<seq<nat>>, cur: seq<Task>) {
    && |q| == QUEUES && |cur| == CORES
    && Once(q) && Below(q, |procs|)
    && (cur[0] == cur[1] ==> cur[0] == Idle)
    && (forall c :: 0 <= c < |cur| && cur[c].Task? ==> cur[c].p < |procs|)
    && (forall p: nat :: p < |procs| ==> (procs[p].status == Running <==> OnCore(cur, p)))
    && (forall p: nat :: p < |procs| ==> (procs[p].status == Ready <==> p in q[READY]))
    && (forall p: nat :: p < |procs| ==> (procs[p].status == Blocked <==> Waiting(q, p)))
  }

  /** Queues in use have been initialised; a process has a wait list unless it is the shell, and a PCB not yet
      in use has none. */
  ghost predicate Made(k: K) {
    && READY in k.made && TIMERS in k.made
    && (forall h: nat :: h < |k.q| && h !in k.made ==> k.q[h] == [])
    && (forall p: nat :: 1 <= p < |k.procs| ==> WaitQ(p) in k.made)
    && (forall p: nat :: |k.procs| <= p < MAX_TASK ==> WaitQ(p) !in k.made)
    && (forall h :: h in k.made ==> h < QUEUES)
  }

  predicate Live(s: Status) {
    s == Running || s == Ready || s == Blocked
  }

  /** Process ids are given out once, and a process keeps its own until it exits. */
  ghost predicate Pids(k: K) {
    && k.nextPid >= 2 && |k.procs| > 0 && k.procs[0].pid == 1
    && (forall p: nat :: p < |k.procs| ==> k.procs[p].pid < k.nextPid)
    && (forall p: nat :: p < |k.procs| && Live(k.procs[p].status) ==> k.procs[p].pid != 0)
    && (forall p: nat :: 1 <= p < |k.procs| ==> k.procs[p].pid != 1)
    && (forall p: nat, r: nat :: p < r < |k.procs| && k.procs[p].pid == k.procs[r].pid ==> k.procs[p].pid == 0)
  }

  /** Recorded locks are semaphores that were initialised. */
  ghost predicate Locks(k: K) {
    forall p: nat :: p < |k.procs| ==>
      |k.procs[p].locks| <= MAX_LOCK &&
      forall i :: 0 <= i < |k.procs[p].locks| ==> k.procs[p].locks[i] < MAX_SEM && SemQ(k.procs[p].locks[i]) in k.made
  }

  ghost predicate Inv(k: K) {
    && 1 <= |k.procs| <= MAX_TASK && |k.sems| == MAX_SEM && |k.boxes| == MAX_MBOX
    && Placed(k.procs, k.q, k.cur) && Made(k) && Pids(k) && Locks(k)
  }

  // ---------- Moves of one process ----------

  function WithStatus(procs: seq<Proc>, p: nat, s: Status): (r: seq<Proc>)
    requires p < |procs|
    ensures |r| == |procs|
    ensures forall i :: 0 <= i < |r| ==> r[i] == if i == p then procs[p].(status := s) else procs[i]
  {
    procs[p := procs[p].(status := s)]
  }

  /** p is taken off its queue and made the last ready process. */
  function MoveReady(k: K, p: nat): K
    requires p < |k.procs| && |k.q| == QUEUES
  {
    k.(procs := WithStatus(k.procs, p, Ready), q := Add(Remove(k.q, p), READY, p))
  }

  /** The running process of core c goes to the end of the ready queue, unless it cannot run on. */
  function PutBack(k: K, c: nat): K
    requires |k.q| == QUEUES && c < |k.cur| && (k.cur[c].Task? ==> k.cur[c].p < |k.procs|)
  {
    match k.cur[c]
    case Idle => k
    case Task(p) =>
      var s := k.procs[p].status;
      if s == Blocked || s == Exited || s == Zombie then k
      else
        var procs := WithStatus(k.procs, p, Ready);
        if procs[p].pid != 0 then k.(procs := procs, q := Add(k.q, READY, p)) else k.(procs := procs)
  }

  /** Core c takes the first ready process, or idles. */
  function Dispatch(k: K, c: nat): K
    requires |k.q| == QUEUES && c < |k.cur|
    requires k.q[READY] != [] ==> k.q[READY][0] < |k.procs|
  {
    if k.q[READY] == [] then k.(cur := k.cur[c := Idle])
    else
      var p := k.q[READY][0];
      k.(procs := WithStatus(k.procs, p, Running), q := Remove(k.q, p), cur := k.cur[c := Task(p)])
  }

  predicate Schedulable(k: K, c: nat) {
    && |k.q| == QUEUES && c < |k.cur| && (k.cur[c].Task? ==> k.cur[c].p < |k.procs|)
    && AllBelow(k.q[READY], |k.procs|)
  }

  /** do_scheduler */
  function Schedule(k: K, c: nat): K
    requires Schedulable(k, c)
  {
    Dispatch(PutBack(k, c), c)
  }

  // ---------- What each move keeps ----------

  lemma AddIn(q: seq<seq<nat>>, h: nat, p: nat)
    requires h < |q|
    ensures |Add(q, h, p)| == |q|
    ensures forall g: nat, x :: g < |q| ==> (x in Add(q, h, p)[g] <==> x in q[g] || (g == h && x == p))
  {
  }

  lemma RemoveIn(q: seq<seq<nat>>, p: nat)
    ensures |Remove(q, p)| == |q|
    ensures forall g: nat, x :: g < |q| ==> (x in Remove(q, p)[g] <==> x in q[g] && x != p)
  {
  }

  /** Taking p off its queue. */
  lemma RemoveAny(q: seq<seq<nat>>, p: nat, n: nat)
    requires Once(q) && Below(q, n)
    ensures Once(Remove(q, p)) && Below(Remove(q, p), n) && Nowhere(Remove(q, p), p)
  {
    if h: nat :| h < |q| && p in q[h] {
      var i: nat :| i < |q[h]| && q[h][i] == p;
      RemoveOnce(q, h, i, n);
    } else {
      RemoveNowhere(q, p);
    }
  }

  /** A process that is not blocked, ready or running stands nowhere. */
  lemma PlacedNowhere(procs: seq<Proc>, q: seq<seq<nat>>, cur: seq<Task>, p: nat)
    requires Placed(procs, q, cur) && p < |procs|
    ensures Nowhere(q, p) <==> procs[p].status != Ready && procs[p].status != Blocked
  {
  }

  lemma AddWaiting(q: seq<seq<nat>>, h: nat, p: nat)
    requires |q| == QUEUES && h < |q|
    ensures forall x :: x != p ==> (Waiting(Add(q, h, p), x) <==> Waiting(q, x))
    ensures Waiting(Add(q, h, p), p) <==> Waiting(q, p) || h != READY
  {
    AddIn(q, h, p);
    var r := Add(q, h, p);
    forall x
      ensures Waiting(q, x) ==> Waiting(r, x)
      ensures x != p && Waiting(r, x) ==> Waiting(q, x)
    {
      if Waiting(q, x) {
        var g: nat :| g < |q| && g != READY && x in q[g];
        assert x in r[g];
      }
      if x != p && Waiting(r, x) {
        var g: nat :| g < |r| && g != READY && x in r[g];
        assert x in q[g];
      }
    }
    if h != READY {
      assert p in r[h];
    } else if Waiting(r, p) {
      var g: nat :| g < |r| && g != READY && p in r[g];
      assert p in q[g];
    }
  }

  lemma RemoveWaiting(q: seq<seq<nat>>, p: nat)
    requires |q| == QUEUES
    ensures forall x :: Waiting(Remove(q, p), x) <==> Waiting(q, x) && x != p
  {
    RemoveIn(q, p);
    var r := Remove(q, p);
    forall x
      ensures Waiting(r, x) <==> Waiting(q, x) && x != p
    {
      if Waiting(q, x) && x != p {
        var g: nat :| g < |q| && g != READY && x in q[g];
        assert x in r[g];
      }
      if Waiting(r, x) {
        var g: nat :| g < |r| && g != READY && x in r[g];
        assert x in q[g];
      }
    }
  }

  /** Only the status of p, its queue and its core change: Placed again when the three agree. */
  lemma Replaced(procs: seq<Proc>, q: seq<seq<nat>>, cur: seq<Task>, p: nat, s: Status, q1: seq<seq<nat>>, cur1: seq<Task>)
    requires Placed(procs, q, cur) && p < |procs|
    requires |q1| == QUEUES && Once(q1) && Below(q1, |procs|)
    requires |cur1| == CORES && (cur1[0] == cur1[1] ==> cur1[0] == Idle)
    requires forall c :: 0 <= c < |cur1| && cur1[c].Task? ==> cur1[c].p < |procs|
    requires forall x: nat :: x != p ==> (OnCore(cur1, x) <==> OnCore(cur, x))
    requires forall x: nat :: x != p ==> (x in q1[READY] <==> x in q[READY])
    requires forall x: nat :: x != p ==> (Waiting(q1, x) <==> Waiting(q, x))
    requires s == Running <==> OnCore(cur1, p)
    requires s == Ready <==> p in q1[READY]
    requires s == Blocked <==> Waiting(q1, p)
    ensures Placed(WithStatus(procs, p, s), q1, cur1)
  {
  }

  lemma LeaveCore(cur: seq<Task>, c: nat, p: nat)
    requires |cur| == CORES && (cur[0] == cur[1] ==> cur[0] == Idle) && c < CORES && cur[c] == Task(p)
    ensures forall x: nat :: OnCore(cur[c := Idle], x) <==> OnCore(cur, x) && x != p
  {
    var r := cur[c := Idle];
    forall x: nat
      ensures OnCore(r, x) <==> OnCore(cur, x) && x != p
    {
      assert r[0] == Task(x) || r[1] == Task(x) <==> OnCore(r, x);
      assert cur[0] == Task(x) || cur[1] == Task(x) <==> OnCore(cur, x);
    }
  }

  lemma EnterCore(cur: seq<Task>, c: nat, p: nat)
    requires |cur| == CORES && c < CORES && cur[c] == Idle
    ensures forall x: nat :: OnCore(cur[c := Task(p)], x) <==> OnCore(cur, x) || x == p
  {
    var r := cur[c := Task(p)];
    forall x: nat
      ensures OnCore(r, x) <==> OnCore(cur, x) || x == p
    {
      assert r[0] == Task(x) || r[1] == Task(x) <==> OnCore(r, x);
      assert cur[0] == Task(x) || cur[1] == Task(x) <==> OnCore(cur, x);
    }
  }

  /** Waking a blocked process. */
  lemma MoveReadyPlaced(k: K, p: nat)
    requires Placed(k.procs, k.q, k.cur) && p < |k.procs| && k.procs[p].status == Blocked
    ensures var r := MoveReady(k, p); Placed(r.procs, r.q, r.cur)
  {
    hide Once, Below, Add, Remove, Nowhere, OnCore, Waiting;
    var q1 := Remove(k.q, p);
    RemoveAny(k.q, p, |k.procs|);
    RemoveIn(k.q, p);
    RemoveWaiting(k.q, p);
    AddOnce(q1, READY, p, |k.procs|);
    AddIn(q1, READY, p);
    AddWaiting(q1, READY, p);
    Replaced(k.procs, k.q, k.cur, p, Ready, Add(q1, READY, p), k.cur);
  }

  /** The running process of core c moves to the end of queue h, and the core is free. */
  lemma ParkPlaced(procs: seq<Proc>, q: seq<seq<nat>>, cur: seq<Task>, c: nat, h: nat)
    requires Placed(procs, q, cur) && c < CORES && cur[c].Task? && h < QUEUES
    ensures var p := cur[c].p;
      Nowhere(q, p) && Placed(WithStatus(procs, p, if h == READY then Ready else Blocked), Add(q, h, p), cur[c := Idle])
  {
    hide Once, Below, Add, Remove, Nowhere, Waiting;
    var p := cur[c].p;
    assert OnCore(cur, p);
    PlacedNowhere(procs, q, cur, p);
    LeaveCore(cur, c, p);
    AddOnce(q, h, p, |procs|);
    AddIn(q, h, p);
    AddWaiting(q, h, p);
    NowhereIn(q, p);
    Replaced(procs, q, cur, p, if h == READY then Ready else Blocked, Add(q, h, p), cur[c := Idle]);
  }

  lemma NowhereIn(q: seq<seq<nat>>, p: nat)
    requires Nowhere(q, p) && |q| == QUEUES
    ensures p !in q[READY] && !Waiting(q, p)
  {
  }

  /** The running process of core c ends, and the core is free. */
  lemma QuitPlaced(procs: seq<Proc>, q: seq<seq<nat>>, cur: seq<Task>, c: nat, s: Status)
    requires Placed(procs, q, cur) && c < CORES && cur[c].Task? && (s == Exited || s == Zombie)
    ensures Placed(WithStatus(procs, cur[c].p, s), q, cur[c := Idle])
  {
    hide Once, Below, Nowhere, Waiting;
    var p := cur[c].p;
    assert OnCore(cur, p);
    PlacedNowhere(procs, q, cur, p);
    NowhereIn(q, p);
    LeaveCore(cur, c, p);
    Replaced(procs, q, cur, p, s, q, cur[c := Idle]);
  }

  /** A process that is not running is taken off its queue for good. */
  lemma DropPlaced(procs: seq<Proc>, q: seq<seq<nat>>, cur: seq<Task>, p: nat)
    requires Placed(procs, q, cur) && p < |procs| && procs[p].status != Running
    ensures Placed(WithStatus(procs, p, Exited), Remove(q, p), cur)
  {
    hide Once, Below, Add, Remove, OnCore, Waiting;
    RemoveAny(q, p, |procs|);
    RemoveIn(q, p);
    RemoveWaiting(q, p);
    Replaced(procs, q, cur, p, Exited, Remove(q, p), cur);
  }

  /** A free core takes the first ready process. */
  lemma DispatchPlaced(k: K, c: nat)
    requires Placed(k.procs, k.q, k.cur) && c < CORES && k.cur[c] == Idle
    ensures k.q[READY] != [] ==> k.q[READY][0] < |k.procs|
    ensures var r := Dispatch(k, c); Placed(r.procs, r.q, r.cur)
  {
    if k.q[READY] != [] {
      hide Once, Add, Remove, Waiting;
      var p := k.q[READY][0];
      assert p in k.q[READY] && k.procs[p].status == Ready;
      assert k.cur[0] != Task(p) && k.cur[1] != Task(p) by {
        assert !OnCore(k.cur, p);
      }
      RemoveAny(k.q, p, |k.procs|);
      RemoveIn(k.q, p);
      RemoveWaiting(k.q, p);
      EnterCore(k.cur, c, p);
      hide OnCore, Below;
      Replaced(k.procs, k.q, k.cur, p, Running, Remove(k.q, p), k.cur[c := Task(p)]);
    } else {
      assert k.cur[c := Idle] == k.cur;
    }
  }

  /** A new process joins the ready queue. */
  lemma NewPlaced(procs: seq<Proc>, q: seq<seq<nat>>, cur: seq<Task>, x: Proc)
    requires Placed(procs, q, cur) && x.status == Ready
    ensures Nowhere(q, |procs|) && Placed(procs + [x], Add(q, READY, |procs|), cur)
  {
    hide Once, Add, Waiting;
    var p := |procs|;
    assert Nowhere(q, p);
    NowhereIn(q, p);
    BelowMore(q, p, p + 1);
    AddOnce(q, READY, p, p + 1);
    AddIn(q, READY, p);
    AddWaiting(q, READY, p);
    assert !OnCore(cur, p);
  }

  lemma BelowMore(q: seq<seq<nat>>, m: nat, n: nat)
    requires Below(q, m) && m <= n
    ensures Below(q, n)
  {
  }

  /** Fields other than the status do not matter. */
  lemma SamePlaced(procs: seq<Proc>, q: seq<seq<nat>>, cur: seq<Task>, procs1: seq<Proc>)
    requires Placed(procs, q, cur) && |procs1| == |procs|
    requires forall p: nat :: p < |procs| ==> procs1[p].status == procs[p].status
    ensures Placed(procs1, q, cur)
  {
  }
}
