/** The intrusive circular doubly linked lists that hold every kernel queue, at heap level. */
module Lists {

  class ListNode {
    var next: ListNode?
    var prev: ListNode?

    constructor ()
      ensures next == prev == null
    {
      next, prev := null, null;
    }
  }

  predicate Linked(a: ListNode, b: ListNode)
    reads a, b
  {
    a.next == b && b.prev == a
  }

  /** The i-th node around the ring; the head stands before the first member and after the last. */
  function At(head: ListNode, s: seq<ListNode>, i: nat): ListNode {
    if 1 <= i <= |s| then s[i - 1] else head
  }

  predicate NoDup<T(==)>(s: seq<T>) {
    forall i, j :: 0 <= i < j < |s| ==> s[i] != s[j]
  }

  /** head carries a well-formed circular list whose members are s, in order. */
  ghost predicate Ring(head: ListNode, s: seq<ListNode>)
    reads head, s
  {
    && head !in s && NoDup(s)
    && forall i: nat :: i <= |s| ==> Linked(At(head, s, i), At(head, s, i + 1))
  }

  /** s without its i-th member. */
  function Cut<T>(s: seq<T>, i: nat): (r: seq<T>)
    requires i < |s|
    ensures |r| == |s| - 1
    ensures forall j :: 0 <= j < |r| ==> r[j] == if j < i then s[j] else s[j + 1]
  {
    s[..i] + s[i + 1..]
  }

  method InitListHead(list: ListNode)
    modifies list
    ensures Ring(list, [])
  {
    list.next := list;
    list.prev := list;
  }

  /** _list_add */
  method ListAddBetween(node: ListNode, prev: ListNode, next: ListNode)
    requires node != prev && node != next
    modifies node, prev, next
    ensures Linked(prev, node) && Linked(node, next)
    ensures prev != next ==> prev.prev == old(prev.prev) && next.next == old(next.next)
  {
    next.prev := node;
    node.next := next;
    node.prev := prev;
    prev.next := node;
  }

  /** _list_del */
  method ListDelBetween(prev: ListNode, next: ListNode)
    modifies prev, next
    ensures Linked(prev, next)
    ensures prev != next ==> prev.prev == old(prev.prev) && next.next == old(next.next)
  {
    next.prev := prev;
    prev.next := next;
  }

  /** Both neighbours of a linked node; nothing for a node whose links were cleared. */
  ghost function Beside(entry: ListNode): set<ListNode>
    reads entry
  {
    if entry.prev != null && entry.next != null then {entry.prev, entry.next} else {}
  }

  /** list_del: the neighbours are joined and the links cleared, so that a second call changes nothing. */
  method ListDel(entry: ListNode)
    requires entry !in Beside(entry)
    modifies entry, Beside(entry)
    ensures old(Beside(entry)) == {} ==> entry.next == old(entry.next) && entry.prev == old(entry.prev)
    ensures old(entry.prev != null && entry.next != null) ==>
      entry.next == entry.prev == null && Linked(old(entry.prev), old(entry.next)) &&
      (old(entry.prev) != old(entry.next) ==>
        old(entry.prev).prev == old(entry.prev.prev) && old(entry.next).next == old(entry.next.next))
  {
    if entry.prev != null && entry.next != null {
      ListDelBetween(entry.prev, entry.next);
      entry.prev := null;
      entry.next := null;
    }
  }

  /** list_add: node becomes the first member. */
  method ListAdd(node: ListNode, head: ListNode, ghost s: seq<ListNode>)
    requires Ring(head, s) && node != head && node !in s
    modifies node, head, At(head, s, 1)
    ensures Ring(head, [node] + s)
  {
    ghost var t := [node] + s;
    assert Linked(At(head, s, 0), At(head, s, 1));
    ListAddBetween(node, head, head.next);
    forall i: nat | i <= |t|
      ensures Linked(At(head, t, i), At(head, t, i + 1))
    {
      if i >= 2 {
        assert old(Linked(At(head, s, i - 1), At(head, s, i)));
      }
    }
  }

  /** list_add_tail: node becomes the last member. */
  method ListAddTail(node: ListNode, head: ListNode, ghost s: seq<ListNode>)
    requires Ring(head, s) && node != head && node !in s
    modifies node, head, At(head, s, |s|)
    ensures Ring(head, s + [node])
  {
    ghost var t := s + [node];
    assert Linked(At(head, s, |s|), At(head, s, |s| + 1));
    ListAddBetween(node, head.prev, head);
    forall i: nat | i <= |t|
      ensures Linked(At(head, t, i), At(head, t, i + 1))
    {
      if i < |s| {
        assert old(Linked(At(head, s, i), At(head, s, i + 1)));
      }
    }
  }

  /** list_del of the i-th member: the rest stays a ring, in order. */
  method RingDel(entry: ListNode, ghost head: ListNode, ghost s: seq<ListNode>, ghost i: nat)
    requires Ring(head, s) && i < |s| && s[i] == entry
    modifies entry, At(head, s, i), At(head, s, i + 2)
    ensures Ring(head, Cut(s, i))
    ensures entry.next == entry.prev == null
  {
    ghost var t := Cut(s, i);
    assert Linked(At(head, s, i), At(head, s, i + 1)) && Linked(At(head, s, i + 1), At(head, s, i + 2));
    ListDel(entry);
    forall j: nat | j <= |t|
      ensures Linked(At(head, t, j), At(head, t, j + 1))
    {
      if j < i {
        assert old(Linked(At(head, s, j), At(head, s, j + 1)));
      } else if j > i {
        assert old(Linked(At(head, s, j + 1), At(head, s, j + 2)));
      }
    }
  }

  lemma RingMembers(head: ListNode, s: seq<ListNode>)
    requires Ring(head, s)
    ensures NoDup(s) && head !in s
  {
  }

  /** list_move: the i-th member of one ring becomes the first of another. */
  method ListMove(node: ListNode, head: ListNode, ghost from: ListNode, ghost s: seq<ListNode>, ghost i: nat, ghost t: seq<ListNode>)
    requires Ring(from, s) && i < |s| && s[i] == node && Ring(head, t)
    requires from != head && from !in t && head !in s && forall j :: 0 <= j < |s| ==> s[j] !in t
    modifies from, s, head, t
    ensures Ring(from, Cut(s, i)) && Ring(head, [node] + t)
  {
    hide Ring, NoDup;
    RingMembers(from, s);
    CutMembers(s, i);
    AtMember(from, s, i);
    AtMember(from, s, i + 2);
    RingDel(node, from, s, i);
    MoveIn(node, head, t, from, Cut(s, i));
  }

  method MoveIn(node: ListNode, head: ListNode, ghost t: seq<ListNode>, ghost from: ListNode, ghost rest: seq<ListNode>)
    requires Ring(head, t) && node != head && node !in t
    requires Ring(from, rest) && from != head && from !in t && head !in rest
    requires node !in rest && node != from && forall j :: 0 <= j < |rest| ==> rest[j] !in t
    modifies node, head, t
    ensures Ring(head, [node] + t) && Ring(from, rest)
  {
    hide Ring;
    AtMember(head, t, 1);
    ListAdd(node, head, t);
  }

  lemma AtMember(head: ListNode, s: seq<ListNode>, i: nat)
    ensures At(head, s, i) == head || At(head, s, i) in s
  {
  }

  lemma CutMembers<T>(s: seq<T>, i: nat)
    requires NoDup(s) && i < |s|
    ensures s[i] !in Cut(s, i) && forall x :: x in Cut(s, i) ==> x in s
  {
  }

  method ListEmpty(head: ListNode, ghost s: seq<ListNode>) returns (e: bool)
    requires Ring(head, s)
    ensures e <==> s == []
  {
    assert Linked(At(head, s, 0), At(head, s, 1));
    e := head.next == head;
  }
}
