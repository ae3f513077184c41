/** The singly-linked tail queue of src/queue.h, which holds the buffers of a connection. */
module SingleTailQueue {
  import opened Common

  /** The address of the first-field of a head or of the next-field of an element. */
  datatype Slot = FirstOf(head: Queue) | NextOf(node: Node)

  /** STAILQ_ENTRY */
  class Node {
    var next: Node?

    constructor (next: Node?)
      ensures this.next == next
    {
      this.next := next;
    }
  }

  ghost function Owner(s: Slot): object {
    match s
    case FirstOf(q) => q
    case NextOf(n) => n
  }

  /** *slot = v */
  method Store(s: Slot, v: Node?)
    modifies Owner(s)
    ensures match s
            case FirstOf(q) => q.first == v && unchanged(q`last) && unchanged(q`elems)
            case NextOf(n) => n.next == v
  {
    match s
    case FirstOf(q) => q.first := v;
    case NextOf(n) => n.next := v;
  }

  ghost function At(s: seq<Node>, i: nat): Node? {
    if i < |s| then s[i] else null
  }

  ghost predicate Linked(s: seq<Node>)
    reads s
  {
    forall i :: 0 <= i < |s| ==> s[i].next == At(s, i + 1)
  }

  lemma CutOne(s: seq<Node>, at: nat)
    requires at < |s| && Distinct(s)
    ensures Distinct(Cut(s, at)) && |Cut(s, at)| == |s| - 1
    ensures forall i :: 0 <= i < |s| - 1 ==> Cut(s, at)[i] == if i < at then s[i] else s[i + 1]
    ensures forall j: nat :: 0 < j < |s| ==> At(Cut(s, at), j) == if j < at then s[j] else At(s, j + 1)
  {
  }

  /** STAILQ_HEAD */
  class Queue {
    var first: Node?
    var last: Slot
    ghost var elems: seq<Node>

    ghost predicate Valid()
      reads this, elems
    {
      && Distinct(elems)
      && Linked(elems)
      && first == At(elems, 0)
      && last == (if elems == [] then FirstOf(this) else NextOf(elems[|elems| - 1]))
    }

    /** STAILQ_INIT */
    constructor ()
      ensures Valid() && elems == []
    {
      first, last, elems := null, FirstOf(this), [];
    }

    /** STAILQ_INIT of a head that has been in use */
    method Init()
      modifies this
      ensures Valid() && elems == []
    {
      first, last, elems := null, FirstOf(this), [];
    }

    /** STAILQ_FIRST */
    function First(): (r: Node?)
      requires Valid()
      reads this, elems
      ensures r == if elems == [] then null else elems[0]
    {
      first
    }

    /** STAILQ_EMPTY */
    predicate Empty()
      requires Valid()
      reads this, elems
      ensures Empty() <==> elems == []
    {
      first == null
    }

    /** STAILQ_LAST: the element around the field that the tail pointer points to. */
    function Last(): (r: Node?)
      requires Valid()
      reads this, elems
      ensures r == if elems == [] then null else elems[|elems| - 1]
    {
      if Empty() then null else last.node
    }

    /** STAILQ_INSERT_TAIL */
    method InsertTail(elm: Node)
      requires Valid() && elm !in elems
      modifies this, elems, elm
      ensures Valid() && elems == old(elems) + [elm]
    {
      ghost var s := elems;
      elm.next := null;
      Store(last, elm);
      last := NextOf(elm);
      elems := s + [elm];
      forall i | 0 <= i < |elems| ensures elems[i].next == At(elems, i + 1) {
        assert i < |s| ==> old(s[i].next) == At(s, i + 1);
      }
    }

    /** STAILQ_INSERT_HEAD */
    method InsertHead(elm: Node)
      requires Valid() && elm !in elems
      modifies this, elm
      ensures Valid() && elems == [elm] + old(elems)
    {
      ghost var s := elems;
      elm.next := first;
      if elm.next == null {
        last := NextOf(elm);
      }
      first := elm;
      elems := [elm] + s;
      forall i | 0 <= i < |elems| ensures elems[i].next == At(elems, i + 1) {
        assert i > 0 ==> old(s[i - 1].next) == At(s, i);
      }
    }

    /** STAILQ_REMOVE_HEAD */
    method RemoveHead()
      requires Valid() && elems != []
      modifies this
      ensures Valid() && elems == old(elems)[1..]
    {
      ghost var s := elems;
      assert s[0].next == At(s, 1);
      first := first.next;
      if first == null {
        last := FirstOf(this);
      }
      elems := s[1..];
      forall i | 0 <= i < |elems| ensures elems[i].next == At(elems, i + 1) {
        assert s[i + 1].next == At(s, i + 2);
      }
    }

    /** STAILQ_REMOVE: a cursor runs along the links until the element is the next one. */
    method Remove(elm: Node, ghost at: nat)
      requires Valid() && at < |elems| && elems[at] == elm
      modifies this, elems
      ensures Valid() && elems == Cut(old(elems), at)
    {
      if first == elm {
        RemoveHead();
        return;
      }
      ghost var s := elems;
      var curelm := first;
      ghost var j := 0;
      while curelm.next != elm
        invariant 0 <= j < at && curelm == s[j]
        invariant Linked(s)
        decreases at - j
      {
        assert s[j].next == At(s, j + 1);
        curelm := curelm.next;
        j := j + 1;
      }
      assert s[j].next == At(s, j + 1) && j + 1 == at && s[at].next == At(s, at + 1);
      Bypass(curelm, at);
    }

    /** The assignments behind the loop of STAILQ_REMOVE */
    method Bypass(curelm: Node, ghost at: nat)
      requires Valid() && 0 < at < |elems| && curelm == elems[at - 1] && curelm.next == elems[at]
      modifies this, curelm
      ensures Valid() && elems == Cut(old(elems), at)
    {
      ghost var s := elems;
      assert s[at].next == At(s, at + 1);
      curelm.next := curelm.next.next;
      if curelm.next == null {
        last := NextOf(curelm);
      }
      elems := Cut(s, at);
      CutOne(s, at);
      forall i | 0 <= i < |elems| ensures elems[i].next == At(elems, i + 1) {
        assert old(s[i].next) == At(s, i + 1) && old(s[i + 1].next) == At(s, i + 2);
      }
    }

    /** STAILQ_CONCAT */
    method Concat(head2: Queue)
      requires Valid() && head2.Valid() && this != head2 && forall n :: n in elems ==> n !in head2.elems
      modifies this, head2, elems
      ensures Valid() && elems == old(elems) + old(head2.elems)
      ensures head2.Valid() && head2.elems == []
    {
      ghost var s, t := elems, head2.elems;
      if !head2.Empty() {
        Store(last, head2.first);
        last := head2.last;
        head2.Init();
        elems := s + t;
        forall i | 0 <= i < |elems| ensures elems[i].next == At(elems, i + 1) {
          if i < |s| {
            assert old(s[i].next) == At(s, i + 1) && s[i] !in t;
          } else {
            assert old(t[i - |s|].next) == At(t, i - |s| + 1) && t[i - |s|] in t;
          }
        }
        forall i, j | 0 <= i < j < |elems| ensures elems[i] != elems[j] {
          if i < |s| <= j {
            assert elems[i] in s && elems[j] in t;
          }
        }
      } else {
        assert s + t == s;
      }
    }
  }
}
