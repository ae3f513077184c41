/** The buffers and the pool as they lie in memory (src/xtp_bufpool.c): the free list runs through
    the `next` fields of the buffers. */
module Buffers {
  import opened Common
  import opened BufPool
  import opened Pipe

  /** xtp_buf_s: the bytes from start to end are `mem`, the cursors are offsets from start. */
  class Buffer {
    ghost const id: nat
    const mem: array<Byte>
    var next: Buffer?
    var pos: nat
    var last: nat

    constructor (ghost id: nat, cap: nat)
      ensures this.id == id && next == null && pos == 0 && last == 0
      ensures fresh(mem) && mem.Length == cap
    {
      this.id := id;
      mem := new Byte[cap];
      next, pos, last := null, 0, 0;
    }

    ghost function View(): Buf
      reads this, mem
    {
      Buf(id, if last <= mem.Length then mem[..last] else [], pos)
    }
  }

  /** Different places of a sequence hold different buffers with different memory. */
  ghost predicate Separate(s: seq<Buffer>) {
    forall i, j :: 0 <= i < j < |s| ==> s[i] != s[j] && s[i].mem != s[j].mem
  }

  /** The element behind position i, or null at the end. */
  ghost function After(s: seq<Buffer>, i: int): Buffer? {
    if 0 <= i + 1 < |s| then s[i + 1] else null
  }

  /** The `next` fields run through the sequence. */
  ghost predicate Linked(s: seq<Buffer>)
    reads s
  {
    forall i :: 0 <= i < |s| ==> s[i].next == After(s, i)
  }

  lemma LinkedCons(b: Buffer, s: seq<Buffer>)
    requires Linked(s) && b.next == if s == [] then null else s[0]
    ensures Linked([b] + s)
  {
    var t := [b] + s;
    forall i | 0 <= i < |t| ensures t[i].next == After(t, i) {
      if i > 0 {
        assert t[i] == s[i - 1] && After(t, i) == After(s, i - 1);
      }
    }
  }

  lemma LinkedTail(s: seq<Buffer>)
    requires Linked(s) && s != []
    ensures Linked(s[1..]) && s[0].next == if |s| > 1 then s[1] else null
  {
    var t := s[1..];
    forall i | 0 <= i < |t| ensures t[i].next == After(t, i) {
      assert t[i] == s[i + 1] && After(t, i) == After(s, i + 1);
    }
    assert s[0].next == After(s, 0);
  }

  lemma SeparateCons(b: Buffer, s: seq<Buffer>)
    requires Separate(s) && forall x :: x in s ==> x != b && x.mem != b.mem
    ensures Separate([b] + s)
  {
    var t := [b] + s;
    forall i, j | 0 <= i < j < |t| ensures t[i] != t[j] && t[i].mem != t[j].mem {
      assert t[j] == s[j - 1] && s[j - 1] in s;
      if i == 0 {
        assert t[i] == b;
      } else {
        assert t[i] == s[i - 1] && s[i - 1] != s[j - 1];
      }
    }
  }

  ghost function IdsOf(s: seq<Buffer>): (ids: seq<nat>)
    ensures |ids| == |s|
  {
    seq(|s|, i requires 0 <= i < |s| => s[i].id)
  }

  lemma IdsCons(b: Buffer, s: seq<Buffer>)
    ensures IdsOf([b] + s) == [b.id] + IdsOf(s)
  {
  }

  ghost function Region(s: seq<Buffer>): set<object> {
    (set b | b in s :: b as object) + (set b | b in s :: b.mem as object)
  }

  /** Nothing but buffers of s and buffers that have just been made. */
  twostate predicate From(s: seq<Buffer>, new t: seq<Buffer>) {
    forall b :: b in t ==> b in s || (fresh(b) && fresh(b.mem))
  }

  /** The same for what two parties hold. */
  twostate predicate FromBoth(s1: seq<Buffer>, s2: seq<Buffer>, new t1: seq<Buffer>, new t2: seq<Buffer>) {
    && (forall b :: b in t1 ==> b in s1 || b in s2 || (fresh(b) && fresh(b.mem)))
    && (forall b :: b in t2 ==> b in s1 || b in s2 || (fresh(b) && fresh(b.mem)))
  }

  lemma SeparateHead(b: Buffer, s: seq<Buffer>)
    requires Separate([b] + s)
    ensures Separate(s) && forall x :: x in s ==> x != b && x.mem != b.mem
  {
    var t := [b] + s;
    assert forall i :: 0 <= i < |s| ==> t[i + 1] == s[i];
    assert t[0] == b;
  }

  ghost predicate Apart(s: seq<Buffer>, t: seq<Buffer>) {
    forall x, y :: x in s && y in t ==> x != y && x.mem != y.mem
  }

  lemma SeparateSplit(s: seq<Buffer>, t: seq<Buffer>)
    requires Separate(s + t)
    ensures Separate(s) && Separate(t) && Apart(s, t)
    ensures forall i :: 0 <= i < |s| ==> s[i] !in t
  {
    var u := s + t;
    assert forall i :: 0 <= i < |s| ==> u[i] == s[i];
    assert forall i :: 0 <= i < |t| ==> u[|s| + i] == t[i];
  }

  lemma SeparateJoin(s: seq<Buffer>, t: seq<Buffer>)
    requires Separate(s) && Separate(t) && Apart(s, t)
    ensures Separate(s + t)
  {
    var u := s + t;
    forall i, j | 0 <= i < j < |u| ensures u[i] != u[j] && u[i].mem != u[j].mem {
      if i < |s| <= j {
        assert u[i] in s && u[j] in t;
      }
    }
  }

  /** xtp_buf_pool_s */
  class BufferPool {
    const cap: nat
    var head: Buffer?
    var n: int
    var max: nat
    ghost var free: seq<Buffer>
    ghost var made: nat

    ghost predicate Valid()
      reads this, free
    {
      && Separate(free)
      && (forall i :: 0 <= i < |free| ==> free[i].mem.Length == cap)
      && head == (if free == [] then null else free[0])
      && Linked(free)
    }

    ghost function View(): Pool
      reads this
    {
      Pool(IdsOf(free), n, max, made)
    }

    /** x_buf_init */
    constructor (max: nat, cap: nat)
      ensures Valid() && View() == InitPool(max) && this.cap == cap
      ensures forall b :: b in free ==> fresh(b) && fresh(b.mem)
    {
      this.cap := cap;
      head, n, this.max := null, 0, 0;
      free, made := [], 0;
      new;
      for i := 0 to max
        invariant Valid() && View() == InitPool(i) && this.cap == cap
        invariant fresh(this) && forall b :: b in free ==> fresh(b) && fresh(b.mem)
      {
        ExtendOne(InitPool(i));
        Push();
      }
    }

    /** One pass of the loops that make buffers: malloc(), and a push on the free list. */
    method Push()
      requires Valid()
      modifies this
      ensures Valid()
      ensures View() == Extend(old(View()), 1)
      ensures free != [] && free == [free[0]] + old(free) && fresh(free[0]) && fresh(free[0].mem)
    {
      ghost var was := free;
      ExtendOne(View());
      var buf := new Buffer(made, cap);
      buf.next := head;
      head := buf;
      n := n + 1;
      max := max + 1;
      LinkedCons(buf, was);
      SeparateCons(buf, was);
      free, made := [buf] + free, made + 1;
      IdsCons(buf, was);
    }

    /** x_buf_ralloc */
    method Grow(num: nat)
      requires Valid()
      modifies this
      ensures Valid()
      ensures View() == BufPool.Grow(old(View()), num)
      ensures From(old(free), free)
      ensures free != []
    {
      max := if max != 0 then max else 1;
      var count := if num != 0 then num else max;
      ghost var start := View();
      assert Minted(made, made) == [] && [] + start.free == start.free;
      for i := 0 to count
        invariant Valid() && View() == Extend(start, i)
        invariant From(old(free), free) && |free| == |old(free)| + i
      {
        ExtendNext(start, i);
        Push();
      }
    }

    /** x_buf_alloc; after growing the pool it calls itself, and then the pool is not empty. */
    method Alloc() returns (buf: Buffer)
      requires Valid()
      modifies this, free
      ensures Valid()
      ensures View() == BufPool.Alloc(old(View()))
      ensures buf.id == Ready(old(View())).free[0] && buf.pos == 0 && buf.last == 0 && buf.mem.Length == cap
      ensures Separate([buf] + free) && From(old(free), [buf] + free)
      decreases free == []
    {
      if head == null {
        Grow(0);
        buf := Alloc();
        return;
      }
      buf := head;
      LinkedTail(free);
      assert free == [buf] + free[1..];
      IdsCons(buf, free[1..]);
      head := buf.next;
      buf.next := null;
      n := n - 1;
      buf.pos := 0;
      buf.last := 0;
      free := free[1..];
    }

    /** x_buf_free for a buffer of ordinary size */
    method Free(buf: Buffer)
      requires Valid() && buf.mem.Length == cap && Separate([buf] + free)
      modifies this, buf
      ensures Valid()
      ensures View() == BufPool.Free(old(View()), buf.id)
      ensures free == [buf] + old(free)
    {
      SeparateHead(buf, free);
      buf.next := head;
      head := buf;
      n := n + 1;
      LinkedCons(buf, free);
      IdsCons(buf, free);
      free := [buf] + free;
    }
  }
}
