/** The kernel's lists together: every PCB has one list node, which is on at most one of the queues. */
module Queues {
  import opened Lists

  /** p is on none of the queues. */
  predicate Nowhere(q: seq<seq<nat>>, p: nat) {
    forall h: nat :: h < |q| ==> p !in q[h]
  }

  /** No PCB is on two queues, or twice on one. */
  predicate Once(q: seq<seq<nat>>) {
    && (forall h: nat :: h < |q| ==> NoDup(q[h]))
    && forall h: nat, g: nat :: h < |q| && g < |q| && h != g ==> forall p :: p in q[h] ==> p !in q[g]
  }

  predicate AllBelow(s: seq<nat>, n: nat) {
    forall i :: 0 <= i < |s| ==> s[i] < n
  }

  predicate Below(q: seq<seq<nat>>, n: nat) {
    forall h: nat :: h < |q| ==> AllBelow(q[h], n)
  }

  function Add(q: seq<seq<nat>>, h: nat, p: nat): seq<seq<nat>>
    requires h < |q|
  {
    q[h := q[h] + [p]]
  }

  /** s with p taken out, wherever it stands. */
  function Without(s: seq<nat>, p: nat): (r: seq<nat>)
    ensures p !in r
    ensures forall x :: x in r <==> x in s && x != p
  {
    if s == [] then [] else if s[0] == p then Without(s[1..], p) else [s[0]] + Without(s[1..], p)
  }

  function Remove(q: seq<seq<nat>>, p: nat): (r: seq<seq<nat>>)
    ensures |r| == |q|
  {
    seq(|q|, h requires 0 <= h < |q| => Without(q[h], p))
  }

  lemma {:induction false} WithoutNone(s: seq<nat>, p: nat)
    requires p !in s
    ensures Without(s, p) == s
  {
    if s != [] {
      WithoutNone(s[1..], p);
    }
  }

  lemma {:induction false} WithoutOne(s: seq<nat>, i: nat)
    requires NoDup(s) && i < |s|
    ensures Without(s, s[i]) == Cut(s, i)
  {
    if i == 0 {
      WithoutNone(s[1..], s[0]);
    } else {
      WithoutOne(s[1..], i - 1);
      assert Cut(s, i) == [s[0]] + Cut(s[1..], i - 1);
    }
  }

  lemma WithoutFirst(s: seq<nat>)
    requires NoDup(s) && s != []
    ensures Without(s, s[0]) == s[1..]
  {
    WithoutOne(s, 0);
    assert Cut(s, 0) == s[1..];
  }

  lemma RemoveNowhere(q: seq<seq<nat>>, p: nat)
    requires Nowhere(q, p)
    ensures Remove(q, p) == q
  {
    forall h: nat | h < |q|
      ensures Without(q[h], p) == q[h]
    {
      WithoutNone(q[h], p);
    }
  }

  lemma RemoveFrom(q: seq<seq<nat>>, h: nat, p: nat)
    requires h < |q| && Once(q) && p in q[h]
    ensures Remove(q, p) == q[h := Without(q[h], p)]
  {
    forall g: nat | g < |q| && g != h
      ensures Without(q[g], p) == q[g]
    {
      WithoutNone(q[g], p);
    }
  }

  lemma AddOnce(q: seq<seq<nat>>, h: nat, p: nat, n: nat)
    requires h < |q| && Once(q) && Below(q, n) && Nowhere(q, p) && p < n
    ensures Once(Add(q, h, p)) && Below(Add(q, h, p), n)
    ensures forall x :: Nowhere(Add(q, h, p), x) <==> Nowhere(q, x) && x != p
  {
    var r := Add(q, h, p);
    assert forall g: nat, x :: g < |r| ==> (x in r[g] <==> x in q[g] || (g == h && x == p));
    forall x
      ensures Nowhere(r, x) <==> Nowhere(q, x) && x != p
    {
      assert p in r[h];
      if Nowhere(r, x) {
        forall g: nat | g < |q|
          ensures x !in q[g]
        {
          assert x !in r[g];
        }
      }
    }
  }

  lemma RemoveOnce(q: seq<seq<nat>>, h: nat, i: nat, n: nat)
    requires h < |q| && Once(q) && Below(q, n) && i < |q[h]|
    ensures var r := Remove(q, q[h][i]); Once(r) && Below(r, n) && r == q[h := Cut(q[h], i)]
    ensures forall x :: Nowhere(Remove(q, q[h][i]), x) <==> Nowhere(q, x) || x == q[h][i]
  {
    var p := q[h][i];
    var r := Remove(q, p);
    RemoveFrom(q, h, p);
    WithoutOne(q[h], i);
    CutMembers(q[h], i);
    forall x
      ensures Nowhere(r, x) <==> Nowhere(q, x) || x == p
    {
      if Nowhere(r, x) && x != p {
        forall g: nat | g < |q|
          ensures x !in q[g]
        {
          assert x !in r[g];
        }
      }
    }
  }

  class Queues {
    const pcb: seq<ListNode>
    const heads: seq<ListNode>
    /** What each queue holds, as PCB indices from first to last. */
    ghost var q: seq<seq<nat>>
    /** The queues whose head was initialised. */
    ghost var made: set<nat>

    ghost function Nodes(s: seq<nat>): (r: seq<ListNode>)
      requires AllBelow(s, |pcb|)
      ensures |r| == |s| && forall i :: 0 <= i < |s| ==> r[i] == pcb[s[i]]
    {
      seq(|s|, i requires 0 <= i < |s| => pcb[s[i]])
    }

    ghost predicate Apart() {
      && NoDup(pcb) && NoDup(heads)
      && forall p, h :: 0 <= p < |pcb| && 0 <= h < |heads| ==> pcb[p] != heads[h]
    }

    ghost predicate Rings()
      requires |q| == |heads| && Below(q, |pcb|)
      reads this, pcb, heads
    {
      forall h: nat :: h < |q| && h in made ==> Ring(heads[h], Nodes(q[h]))
    }

    ghost predicate Loose()
      reads this, pcb
    {
      forall p: nat :: p < |pcb| && Nowhere(q, p) ==> pcb[p].next == pcb[p].prev == null
    }

    ghost predicate Valid()
      reads this, pcb, heads
    {
      && Apart() && |q| == |heads| && Below(q, |pcb|) && Once(q)
      && (forall h: nat :: h < |q| && h !in made ==> q[h] == [])
      && Rings() && Loose()
    }

    static method NewNodes(n: nat) returns (s: seq<ListNode>)
      ensures |s| == n && NoDup(s) && forall i :: 0 <= i < n ==> fresh(s[i]) && s[i].next == s[i].prev == null
    {
      s := [];
      for i := 0 to n
        invariant |s| == i && NoDup(s) && forall j :: 0 <= j < i ==> fresh(s[j]) && s[j].next == s[j].prev == null
      {
        var x := new ListNode();
        s := s + [x];
      }
    }

    /** n list nodes and m heads, none initialised. */
    constructor (n: nat, m: nat)
      ensures Valid() && |pcb| == n && |heads| == m && made == {} && q == seq(m, _ => [])
      ensures fresh(pcb) && fresh(heads)
    {
      var ps := NewNodes(n);
      var hs := NewNodes(m);
      pcb, heads := ps, hs;
      made := {};
      q := seq(m, _ => []);
    }

    /** What changing one queue leaves alone: no node of queue g is queue h's head or on it, or loose. */
    lemma RingsApart(h: nat, g: nat)
      requires Apart() && |q| == |heads| && Below(q, |pcb|) && Once(q) && h < |q| && g < |q| && g != h
      ensures heads[g] != heads[h] && heads[g] !in Nodes(q[h]) && heads[h] !in Nodes(q[g])
      ensures forall i, j :: 0 <= i < |q[h]| && 0 <= j < |q[g]| ==> Nodes(q[h])[i] != Nodes(q[g])[j]
      ensures forall p: nat, j :: p < |pcb| && Nowhere(q, p) && 0 <= j < |q[g]| ==> pcb[p] != Nodes(q[g])[j]
      ensures forall p: nat :: p < |pcb| ==> pcb[p] != heads[g]
    {
      assert forall j :: 0 <= j < |q[g]| ==> q[g][j] in q[g];
      assert forall i :: 0 <= i < |q[h]| ==> q[h][i] in q[h];
    }

    /** init_list_head of queue h. */
    method Init(h: nat)
      requires Valid() && h < |q| && q[h] == []
      modifies this`made, heads[h]
      ensures Valid() && q == old(q) && made == old(made) + {h}
    {
      hide Ring, Once, NoDup, Nowhere;
      forall g: nat | g < |q| && g != h
        ensures heads[g] != heads[h] && heads[h] !in Nodes(q[g])
      {
        RingsApart(h, g);
      }
      HeadsApart(h);
      InitListHead(heads[h]);
      made := made + {h};
      assert Nodes(q[h]) == [];
    }

    lemma HeadsApart(h: nat)
      requires Apart() && h < |heads|
      ensures forall p: nat :: p < |pcb| ==> pcb[p] != heads[h]
    {
    }

    lemma LooseApart(h: nat)
      requires Apart() && |q| == |heads| && Below(q, |pcb|) && h < |q|
      ensures forall x: nat :: x < |pcb| && Nowhere(q, x) ==> pcb[x] !in Nodes(q[h])
      ensures forall x: nat, y: nat :: x < |pcb| && y < |pcb| && x != y ==> pcb[x] != pcb[y]
    {
      assert forall i :: 0 <= i < |q[h]| ==> q[h][i] in q[h];
    }

    lemma NodesAdd(s: seq<nat>, p: nat)
      requires AllBelow(s, |pcb|) && p < |pcb|
      ensures AllBelow(s + [p], |pcb|) && Nodes(s + [p]) == Nodes(s) + [pcb[p]]
    {
    }

    /** list_add_tail of PCB p. */
    method AddTail(p: nat, h: nat)
      requires Valid() && h < |q| && h in made && p < |pcb| && Nowhere(q, p)
      modifies this`q, pcb, heads
      ensures Valid() && q == Add(old(q), h, p)
    {
      hide Ring, Once, NoDup, Nowhere;
      ghost var s := Nodes(q[h]);
      forall g: nat | g < |q| && g != h
        ensures pcb[p] != heads[g] && heads[g] !in s && heads[g] != heads[h] && heads[h] !in Nodes(q[g])
        ensures forall i, j :: 0 <= i < |s| && 0 <= j < |q[g]| ==> s[i] != Nodes(q[g])[j]
        ensures forall j :: 0 <= j < |q[g]| ==> pcb[p] != Nodes(q[g])[j]
      {
        RingsApart(h, g);
      }
      NodesAdd(q[h], p);
      HeadsApart(h);
      LooseApart(h);
      AddOnce(q, h, p, |pcb|);
      ListAddTail(pcb[p], heads[h], s);
      q := Add(q, h, p);
      assert Nodes(q[h]) == s + [pcb[p]];
    }

    lemma NodesCut(s: seq<nat>, i: nat)
      requires AllBelow(s, |pcb|) && i < |s|
      ensures AllBelow(Cut(s, i), |pcb|) && Nodes(Cut(s, i)) == Cut(Nodes(s), i)
    {
    }

    lemma NodesAt(h: nat, i: nat)
      requires |q| == |heads| && Below(q, |pcb|) && h < |q|
      ensures At(heads[h], Nodes(q[h]), i) in heads || At(heads[h], Nodes(q[h]), i) in pcb
      ensures At(heads[h], Nodes(q[h]), i) == heads[h] || At(heads[h], Nodes(q[h]), i) in Nodes(q[h])
    {
      AtMember(heads[h], Nodes(q[h]), i);
    }

    lemma Member(h: nat, i: nat)
      requires Below(q, |pcb|) && h < |q| && i < |q[h]|
      ensures q[h][i] < |pcb| && Nodes(q[h])[i] == pcb[q[h][i]]
    {
    }

    /** list_del of PCB p, the i-th member of queue h. */
    method Del(p: nat, ghost h: nat, ghost i: nat)
      requires Valid() && h < |q| && i < |q[h]| && p == q[h][i]
      modifies this`q, pcb, heads
      ensures Valid() && q == Remove(old(q), p)
    {
      hide Ring, Once, NoDup, Nowhere, At, Remove, Without, Cut, AllBelow;
      Member(h, i);
      ghost var s := Nodes(q[h]);
      forall g: nat | g < |q| && g != h
        ensures pcb[p] != heads[g] && heads[g] !in s && heads[g] != heads[h] && heads[h] !in Nodes(q[g])
        ensures forall i, j :: 0 <= i < |s| && 0 <= j < |q[g]| ==> s[i] != Nodes(q[g])[j]
      {
        RingsApart(h, g);
      }
      NodesCut(q[h], i);
      assert Ring(heads[h], s);
      NodesAt(h, i);
      NodesAt(h, i + 2);
      HeadsApart(h);
      LooseApart(h);
      RemoveOnce(q, h, i, |pcb|);
      RingDel(pcb[p], heads[h], s, i);
      q := Remove(q, p);
      assert Nodes(q[h]) == Cut(s, i);
      assert Ring(heads[h], Nodes(q[h]));
      forall g: nat | g < |q| && g in made
        ensures Ring(heads[g], Nodes(q[g]))
      {
        if g != h {
          assert q[g] == old(q)[g];
          assert old(Ring(heads[g], Nodes(q[g])));
        }
      }
    }

    /** list_del of a PCB that is on no queue. */
    method DelLoose(p: nat)
      requires Valid() && p < |pcb| && Nowhere(q, p)
      modifies this`q, pcb, heads
      ensures Valid() && q == old(q) == Remove(old(q), p)
    {
      RemoveNowhere(q, p);
      hide Ring, Once, NoDup, Remove;
      assert pcb[p].next == pcb[p].prev == null;
      ListDel(pcb[p]);
    }

    method Empty(h: nat) returns (e: bool)
      requires Valid() && h < |q| && h in made
      ensures e <==> q[h] == []
    {
      hide Ring, Once, NoDup, Nowhere;
      e := ListEmpty(heads[h], Nodes(q[h]));
    }

    /** list_entry: the PCB that a list node is part of. */
    method Entry(x: ListNode) returns (p: nat)
      requires Valid() && x in pcb
      ensures p < |pcb| && pcb[p] == x
    {
      hide Ring, Once, NoDup, Nowhere;
      var i: nat :| i < |pcb| && pcb[i] == x;
      p := i;
    }

    /** The node after the i-th around the ring of queue h. */
    method Next(x: ListNode, ghost h: nat, ghost i: nat) returns (y: ListNode)
      requires Valid() && h < |q| && h in made && i <= |q[h]| && x == At(heads[h], Nodes(q[h]), i)
      ensures y == At(heads[h], Nodes(q[h]), i + 1)
    {
      hide Once, NoDup, Nowhere;
      assert Ring(heads[h], Nodes(q[h]));
      assert Linked(At(heads[h], Nodes(q[h]), i), At(heads[h], Nodes(q[h]), i + 1));
      y := x.next;
    }

    lemma SameEntry(p: nat, r: nat)
      requires Apart() && p < |pcb| && r < |pcb| && pcb[p] == pcb[r]
      ensures p == r
    {
    }

    /** Where a walk along queue h stands. */
    lemma Walk(h: nat, i: nat)
      requires Apart() && |q| == |heads| && Below(q, |pcb|) && h < |q| && i <= |q[h]|
      ensures At(heads[h], Nodes(q[h]), i + 1) == heads[h] <==> i == |q[h]|
      ensures i < |q[h]| ==> At(heads[h], Nodes(q[h]), i + 1) == pcb[q[h][i]]
    {
    }

    /** The walk goes on at the same place when the node just passed is taken out. */
    lemma WalkCut(h: nat, s: seq<nat>, i: nat)
      requires h < |heads| && AllBelow(s, |pcb|) && i < |s|
      ensures AllBelow(Cut(s, i), |pcb|) && At(heads[h], Nodes(s), i + 2) == At(heads[h], Nodes(Cut(s, i)), i + 1)
    {
    }

    method Front(h: nat) returns (y: ListNode)
      requires Valid() && h < |q| && h in made
      ensures y == At(heads[h], Nodes(q[h]), 1)
    {
      hide Ring, Once, Nowhere;
      y := Next(heads[h], h, 0);
    }

    method First(h: nat) returns (p: nat)
      requires Valid() && h < |q| && h in made && q[h] != []
      ensures p == q[h][0]
    {
      hide Ring, Once, Nowhere;
      var x := Next(heads[h], h, 0);
      Member(h, 0);
      p := Entry(x);
    }
  }
}
