/** The doubly-linked tail queue of src/queue.h.  A `Node **` of the macros is a Slot: the address of
    the first-field of a head or of the next-field of an element. */
module TailQueue {
  import opened Common

  datatype Slot = FirstOf(head: Queue) | NextOf(node: Node)

  /** TAILQ_ENTRY */
  class Node {
    var next: Node?
    var prev: Slot

    /** What an element that is in no queue holds does not matter. */
    constructor (next: Node?, prev: Slot)
      ensures this.next == next && this.prev == prev
    {
      this.next, this.prev := next, prev;
    }
  }

  ghost function Owner(s: Slot): object {
    match s
    case FirstOf(q) => q
    case NextOf(n) => n
  }

  /** *slot = v */
  method Store(s: Slot, v: Node?)
    modifies Owner(s)
    ensures match s
            case FirstOf(q) => q.first == v && unchanged(q`last) && unchanged(q`elems)
            case NextOf(n) => n.next == v && unchanged(n`prev)
  {
    match s
    case FirstOf(q) => q.first := v;
    case NextOf(n) => n.next := v;
  }

  ghost function At(s: seq<Node>, i: nat): Node? {
    if i < |s| then s[i] else null
  }

  /** Where the pointer to the element at position i is stored. */
  ghost function Before(q: Queue, s: seq<Node>, i: nat): Slot
    requires i <= |s|
  {
    if i == 0 then FirstOf(q) else NextOf(s[i - 1])
  }

  ghost predicate LinkedAt(q: Queue, s: seq<Node>, i: nat)
    requires i < |s|
    reads s[i]
  {
    s[i].next == At(s, i + 1) && s[i].prev == Before(q, s, i)
  }

  ghost predicate Linked(q: Queue, s: seq<Node>)
    reads s
  {
    forall i :: 0 <= i < |s| ==> LinkedAt(q, s, i)
  }

  /** TAILQ_HEAD */
  class Queue {
    var first: Node?
    var last: Slot
    ghost var elems: seq<Node>

    ghost predicate Valid()
      reads this, elems
    {
      && Distinct(elems)
      && Linked(this, elems)
      && first == At(elems, 0)
      && last == Before(this, elems, |elems|)
    }

    /** TAILQ_INIT */
    constructor ()
      ensures Valid() && elems == []
    {
      first, last, elems := null, FirstOf(this), [];
    }

    /** TAILQ_INIT of a head that has been in use */
    method Init()
      modifies this
      ensures Valid() && elems == []
    {
      first, last, elems := null, FirstOf(this), [];
    }

    /** TAILQ_FIRST */
    function First(): (r: Node?)
      requires Valid()
      reads this, elems
      ensures r == if elems == [] then null else elems[0]
    {
      first
    }

    /** TAILQ_EMPTY */
    predicate Empty()
      requires Valid()
      reads this, elems
      ensures Empty() <==> elems == []
    {
      first == null
    }

    /** TAILQ_INSERT_TAIL */
    method InsertTail(elm: Node)
      requires Valid() && elm !in elems
      modifies this, elems, elm
      ensures Valid() && elems == old(elems) + [elm]
    {
      ghost var s := elems;
      elm.next := null;
      elm.prev := last;
      Store(last, elm);
      last := NextOf(elm);
      elems := s + [elm];
      forall i | 0 <= i < |elems| ensures LinkedAt(this, elems, i) {
        assert i < |s| ==> old(LinkedAt(this, s, i));
      }
    }

    /** TAILQ_INSERT_HEAD */
    method InsertHead(elm: Node)
      requires Valid() && elm !in elems
      modifies this, elems, elm
      ensures Valid() && elems == [elm] + old(elems)
    {
      ghost var s := elems;
      elm.next := first;
      if elm.next != null {
        first.prev := NextOf(elm);
      } else {
        last := NextOf(elm);
      }
      first := elm;
      elm.prev := FirstOf(this);
      elems := [elm] + s;
      forall i | 0 <= i < |elems| ensures LinkedAt(this, elems, i) {
        assert i > 0 ==> old(LinkedAt(this, s, i - 1));
      }
    }

    /** TAILQ_REMOVE */
    method Remove(elm: Node, ghost at: nat)
      requires Valid() && at < |elems| && elems[at] == elm
      modifies this, elems
      ensures Valid() && elems == Cut(old(elems), at)
      ensures unchanged(elm)
    {
      ghost var s := elems;
      assert LinkedAt(this, s, at);
      if elm.next != null {
        elm.next.prev := elm.prev;
      } else {
        last := elm.prev;
      }
      Store(elm.prev, elm.next);
      elems := Cut(s, at);
      forall i | 0 <= i < |elems| ensures LinkedAt(this, elems, i) {
        assert old(LinkedAt(this, s, i)) && old(LinkedAt(this, s, i + 1));
      }
    }

    /** TAILQ_CONCAT */
    method Concat(head2: Queue)
      requires Valid() && head2.Valid() && this != head2 && forall n :: n in elems ==> n !in head2.elems
      modifies this, head2, elems, head2.elems
      ensures Valid() && elems == old(elems) + old(head2.elems)
      ensures head2.Valid() && head2.elems == []
    {
      ghost var s, t := elems, head2.elems;
      if !head2.Empty() {
        Store(last, head2.first);
        head2.first.prev := last;
        last := head2.last;
        head2.Init();
        elems := s + t;
        forall i | 0 <= i < |elems| ensures LinkedAt(this, elems, i) {
          if i < |s| {
            assert old(LinkedAt(this, s, i)) && s[i] !in t;
          } else {
            assert old(LinkedAt(head2, t, i - |s|)) && t[i - |s|] in t;
            assert i > |s| ==> t[i - |s|] != t[0];
          }
        }
        forall i, j | 0 <= i < j < |elems| ensures elems[i] != elems[j] {
          if i < |s| <= j {
            assert elems[i] in s && elems[j] in t;
          }
        }
      } else {
        assert s + t == s;
      }
    }
  }
}
