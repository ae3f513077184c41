/** The buffer chains of a connection as they lie in memory, and the socket loops of the callbacks
    over them. */
module Chains {
  import opened Common
  import opened Nio
  import BufPool
  import opened Pipe
  import opened Buffers
  import Admission
  import opened Proxy

  ghost function ViewOf(s: seq<Buffer>): (v: seq<Buf>)
    reads s, set b | b in s :: b.mem
    ensures |v| == |s|
    ensures forall i :: 0 <= i < |s| ==> v[i] == s[i].View()
  {
    seq(|s|, i requires 0 <= i < |s| reads s, set b | b in s :: b.mem => s[i].View())
  }

  twostate lemma SameView(s: seq<Buffer>)
    requires forall i :: 0 <= i < |s| ==> unchanged(s[i]) && unchanged(s[i].mem)
    ensures ViewOf(s) == old(ViewOf(s))
  {
  }

  ghost predicate CursorsOk(s: seq<Buffer>, cap: nat)
    reads s
  {
    forall i :: 0 <= i < |s| ==> s[i].mem.Length == cap && s[i].pos <= s[i].last <= cap
  }

  lemma CursorsSplit(s: seq<Buffer>, t: seq<Buffer>, cap: nat)
    requires CursorsOk(s + t, cap)
    ensures CursorsOk(s, cap) && CursorsOk(t, cap)
  {
    assert forall i :: 0 <= i < |s| ==> (s + t)[i] == s[i];
    assert forall i :: 0 <= i < |t| ==> (s + t)[|s| + i] == t[i];
  }

  lemma CursorsConcat(s: seq<Buffer>, t: seq<Buffer>, cap: nat)
    requires CursorsOk(s, cap) && CursorsOk(t, cap)
    ensures CursorsOk(s + t, cap)
  {
  }

  lemma LastSeparate(init: seq<Buffer>, b: Buffer, t: seq<Buffer>)
    requires Separate(init + [b] + t)
    ensures forall i :: 0 <= i < |init| ==> init[i] != b && init[i].mem != b.mem
    ensures b !in t
  {
    var u := init + [b] + t;
    assert u[|init|] == b && forall i :: 0 <= i < |init| ==> u[i] == init[i];
    assert forall i :: 0 <= i < |t| ==> u[|init| + 1 + i] == t[i];
  }

  lemma Inside(s: seq<Buffer>, t: seq<Buffer>)
    ensures forall b :: b in s || b in t ==> b in Region(s) + Region(t) && b.mem in Region(s) + Region(t)
  {
  }

  /** What a fill leaves in memory. */
  datatype FillEnd = FillEnd(chain: seq<Buf>, pool: BufPool.Pool, ok: bool, rest: seq<RecvEvent>)

  function EndOf(f: FillResult): FillEnd {
    FillEnd(f.chain, f.pool, f.ok, f.rest)
  }

  /** A fill ends as the loop started in these values does. */
  ghost predicate GoesOn(r: FillEnd, chain: seq<Buf>, pool: BufPool.Pool, ev: seq<RecvEvent>, cap: nat) {
    chain != [] && r == EndOf(FillTail(chain, pool, ev, cap))
  }

  lemma FillStart(chain: seq<Buf>, pool: BufPool.Pool, ev: seq<RecvEvent>, cap: nat)
    ensures var r := EndOf(Pipe.Fill(chain, pool, ev, cap));
            if chain == [] then GoesOn(r, Link([], pool), BufPool.Alloc(pool), ev, cap)
            else GoesOn(r, chain, pool, ev, cap)
  {
  }

  lemma FillStops(r: FillEnd, chain: seq<Buf>, pool: BufPool.Pool, ev: seq<RecvEvent>, cap: nat, room: nat,
                  q: RecvResult)
    requires GoesOn(r, chain, pool, ev, cap) && room == cap - |chain[|chain| - 1].data| && room > 0
    requires q == Received(ev, room) && q.Ret() <= 0
    ensures r == FillEnd(if q.Ret() < 0 then chain else Append(chain, q.bytes), pool, q.Ret() == 0, q.rest)
  {
    ReceivedContract(ev, room);
    AppendNothing(chain);
  }

  lemma FillPass(r: FillEnd, chain: seq<Buf>, pool: BufPool.Pool, ev: seq<RecvEvent>, cap: nat, room: nat,
                 q: RecvResult)
    requires GoesOn(r, chain, pool, ev, cap) && room == cap - |chain[|chain| - 1].data| && room > 0
    requires q == Received(ev, room) && q.Ret() > 0
    ensures var longer := Append(chain, q.bytes);
            && |Stream(q.rest)| < |Stream(ev)|
            && if LastFull(longer, cap) then GoesOn(r, Link(longer, pool), BufPool.Alloc(pool), q.rest, cap)
               else GoesOn(r, longer, pool, q.rest, cap)
  {
    ReceivedContract(ev, room);
  }

  lemma AppendNothing(chain: seq<Buf>)
    requires chain != []
    ensures Append(chain, []) == chain
  {
    assert chain[|chain| - 1].data + [] == chain[|chain| - 1].data;
  }

  lemma FillFull(r: FillEnd, chain: seq<Buf>, pool: BufPool.Pool, ev: seq<RecvEvent>, cap: nat)
    requires GoesOn(r, chain, pool, ev, cap) && LastFull(chain, cap)
    ensures r == FillEnd(chain, pool, true, ev)
  {
  }

  lemma LastBuffer(init: seq<Buffer>, b: Buffer, cap: nat)
    requires CursorsOk(init + [b], cap)
    ensures b.last <= cap && b.mem.Length == cap
    ensures ViewOf(init + [b]) == ViewOf(init) + [b.View()] && |b.View().data| == b.last
    ensures LastFull(ViewOf(init + [b]), cap) <==> b.last == cap
  {
    assert (init + [b])[|init|] == b;
  }

  lemma LastOf(s: seq<Buffer>, cap: nat)
    requires s != [] && CursorsOk(s, cap)
    ensures s == s[..|s| - 1] + [s[|s| - 1]]
    ensures LastFull(ViewOf(s), cap) <==> s[|s| - 1].last == cap
  {
  }

  lemma AppendLast(v: seq<Buf>, b: Buf, bytes: seq<Byte>)
    ensures Append(v + [b], bytes) == v + [b.(data := b.data + bytes)]
  {
    assert (v + [b])[..|v|] == v;
  }

  lemma ViewLast(init: seq<Buffer>, b: Buffer)
    ensures ViewOf(init + [b]) == ViewOf(init) + [b.View()]
  {
  }

  twostate lemma PoolSame(pool: BufferPool)
    requires old(pool.Valid()) && unchanged(pool) && forall i :: 0 <= i < |pool.free| ==> unchanged(pool.free[i])
    ensures pool.Valid() && pool.View() == old(pool.View())
  {
  }

  /** One pass of the receive loop: x_recvn into the rest of a buffer. */
  method ReceiveInto(buf: Buffer, s: Socket) returns (len: int)
    requires buf.pos <= buf.last < buf.mem.Length
    modifies buf`last, buf.mem, s`incoming
    ensures var r := Received(old(s.incoming), buf.mem.Length - old(buf.last));
            && len == r.Ret() && s.incoming == r.rest
            && buf.View() == (if r.code < 0 then old(buf.View())
                              else old(buf.View()).(data := old(buf.View()).data + r.bytes))
    ensures buf.last <= buf.mem.Length && buf.pos <= buf.last
  {
    ghost var was := buf.View();
    ReceivedContract(s.incoming, buf.mem.Length - buf.last);
    len := RecvN(s, buf.mem, buf.last, buf.mem.Length - buf.last);
    assert buf.mem[..buf.last] == was.data;
    if len > 0 {
      buf.last := buf.last + len;
    }
  }

  twostate lemma PartSame(s: seq<Buffer>, new cap: nat)
    requires old(CursorsOk(s, cap)) && forall i :: 0 <= i < |s| ==> unchanged(s[i]) && unchanged(s[i].mem)
    ensures CursorsOk(s, cap) && ViewOf(s) == old(ViewOf(s))
  {
    SameView(s);
  }

  lemma FirstSeparate(b: Buffer, rest: seq<Buffer>, t: seq<Buffer>)
    requires Separate([b] + rest + t)
    ensures forall i :: 0 <= i < |rest| ==> rest[i] != b && rest[i].mem != b.mem
    ensures b !in t && Separate([b] + t) && Separate(rest + ([b] + t))
  {
    var u := [b] + rest + t;
    assert u[0] == b && forall i :: 0 <= i < |rest| ==> u[1 + i] == rest[i];
    assert forall i :: 0 <= i < |t| ==> u[1 + |rest| + i] == t[i];
    SeparateSplit([b] + rest, t);
    SeparateHead(b, rest);
    assert b in [b] + rest;
    SeparateCons(b, t);
    forall x, y | x in rest && y in [b] + t ensures x != y && x.mem != y.mem {
      assert x in [b] + rest;
    }
    SeparateJoin(rest, [b] + t);
  }

  /** What a drain leaves in memory and on the wire. */
  datatype DrainEnd = DrainEnd(chain: seq<Buf>, pool: BufPool.Pool, end: Admission.SendOutcome, rest: seq<SendEvent>,
                               wire: seq<Byte>)

  function SentOf(d: DrainResult, wire: seq<Byte>): DrainEnd {
    DrainEnd(d.chain, d.pool, d.end, d.rest, wire + d.sent + d.over)
  }

  /** A drain ends as the loop started in these values does. */
  ghost predicate SendsOn(r: DrainEnd, chain: seq<Buf>, pool: BufPool.Pool, ev: seq<SendEvent>, wire: seq<Byte>,
                          cap: nat)
  {
    r == SentOf(Drain(chain, pool, ev, cap), wire)
  }

  /** What one call of x_sendn does to a buffer. */
  ghost predicate SendCall(b: Buf, ev: seq<SendEvent>, q: SendResult) {
    b.pos < |b.data| && q == Sent(ev, |b.data| - b.pos) && b.pos + q.moved <= |b.data|
  }

  lemma SendStops(r: DrainEnd, b: Buf, v: seq<Buf>, pool: BufPool.Pool, ev: seq<SendEvent>, wire: seq<Byte>, cap: nat,
                  q: SendResult)
    requires SendsOn(r, [b] + v, pool, ev, wire, cap) && SendCall(b, ev, q) && q.Ret() <= 0
    ensures r == DrainEnd([b] + v, pool, if q.Ret() < 0 then Admission.SendError else Admission.SendAgain, q.rest,
                          wire + b.data[b.pos..b.pos + q.moved])
  {
    SentFits(ev, |b.data| - b.pos);
  }

  lemma SendPass(r: DrainEnd, b: Buf, v: seq<Buf>, pool: BufPool.Pool, ev: seq<SendEvent>, wire: seq<Byte>, cap: nat,
                 q: SendResult)
    requires SendsOn(r, [b] + v, pool, ev, wire, cap) && SendCall(b, ev, q) && q.Ret() > 0
    ensures SendsOn(r, [b.(pos := b.pos + q.moved)] + v, pool, q.rest, wire + b.data[b.pos..b.pos + q.moved], cap)
  {
    SentFits(ev, |b.data| - b.pos);
    var chain := [b] + v;
    assert Advance(chain, q.moved) == [b.(pos := b.pos + q.moved)] + v;
    var d := Drain(Advance(chain, q.moved), pool, q.rest, cap);
    ConcatAssoc(wire, b.data[b.pos..b.pos + q.moved], d.sent);
  }

  /** The loop at its label, or with a first buffer that has been sent as far as it is filled. */
  lemma SendHead(r: DrainEnd, chain: seq<Buf>, pool: BufPool.Pool, ev: seq<SendEvent>, wire: seq<Byte>, cap: nat)
    requires chain != [] && chain[0].pos >= |chain[0].data| && SendsOn(r, chain, pool, ev, wire, cap)
    ensures if chain[0].pos == cap then SendsOn(r, chain[1..], BufPool.Free(pool, chain[0].id), ev, wire, cap)
            else r == DrainEnd(chain, pool, Admission.SendDry, ev, wire)
  {
    assert wire + [] + [] == wire;
  }

  lemma SendNothing(r: DrainEnd, pool: BufPool.Pool, ev: seq<SendEvent>, wire: seq<Byte>, cap: nat)
    requires SendsOn(r, [], pool, ev, wire, cap)
    ensures r == DrainEnd([], pool, Admission.SendDry, ev, wire)
  {
    assert wire + [] + [] == wire;
  }

  lemma IdsTail(chain: seq<Buf>)
    requires chain != []
    ensures Pipe.Ids(chain)[0] == chain[0].id && Pipe.Ids(chain)[1..] == Pipe.Ids(chain[1..])
  {
  }

  /** One pass of the send loop: x_sendn from the unread part of a buffer. */
  method SendFrom(buf: Buffer, s: Socket) returns (len: int, ghost q: SendResult)
    requires buf.pos < buf.last <= buf.mem.Length
    modifies buf`pos, s`outgoing, s`wire
    ensures var b := old(buf.View());
            && q == Sent(old(s.outgoing), |b.data| - b.pos) && len == q.Ret() && s.outgoing == q.rest
            && b.pos + q.moved <= |b.data| && s.wire == old(s.wire) + b.data[b.pos..b.pos + q.moved]
            && buf.View() == (if len > 0 then b.(pos := b.pos + q.moved) else b)
            && (len == 0 ==> q.moved == 0) && (len > 0 ==> q.moved == len)
    ensures buf.pos <= buf.last && (len > 0 ==> buf.last - buf.pos == old(buf.last - buf.pos) - len)
  {
    q := Sent(s.outgoing, buf.last - buf.pos);
    SentFits(s.outgoing, buf.last - buf.pos);
    ghost var data := buf.mem[..buf.last];
    assert buf.mem[buf.pos..buf.pos + q.moved] == data[buf.pos..buf.pos + q.moved];
    len := SendN(s, buf.mem, buf.pos, buf.last - buf.pos);
    if len > 0 {
      buf.pos := buf.pos + len;
    }
  }

  lemma ViewFirst(b: Buffer, rest: seq<Buffer>)
    ensures ViewOf([b] + rest) == [b.View()] + ViewOf(rest)
  {
    var s, v := [b] + rest, [b.View()] + ViewOf(rest);
    forall j | 0 <= j < |s| ensures ViewOf(s)[j] == v[j] {
      if j == 0 {
        assert s[j] == b;
      } else {
        var i := j - 1;
        assert s[j] == rest[i] && v[j] == ViewOf(rest)[i];
      }
    }
  }

  lemma FirstBuffer(b: Buffer, rest: seq<Buffer>, cap: nat)
    requires CursorsOk([b] + rest, cap)
    ensures b.pos <= b.last <= cap && b.mem.Length == cap && CursorsOk(rest, cap)
    ensures ViewOf([b] + rest) == [b.View()] + ViewOf(rest) && |b.View().data| == b.last && b.View().pos == b.pos
  {
    ViewFirst(b, rest);
    CursorsSplit([b], rest, cap);
    assert [b][0] == b;
  }

  lemma FilledChain(f: Flow, r: FillResult)
    ensures Filled(f, r).chain == r.chain
  {
  }

  /** One of the two STAILQ chains of a connection. */
  class Chain {
    var bufs: seq<Buffer>
    ghost var src: seq<Byte>
    ghost var inn: seq<Byte>
    ghost var out: seq<Byte>
    ghost var wire: seq<Byte>

    constructor ()
      ensures bufs == [] && FlowView() == NO_FLOW
    {
      bufs := [];
      src, inn, out, wire := [], [], [], [];
      new;
      assert ViewOf([]) == [];
    }

    ghost predicate Valid(pool: BufferPool)
      reads this, bufs, pool, pool.free
    {
      && pool.Valid()
      && Separate(bufs + pool.free)
      && CursorsOk(bufs, pool.cap)
    }

    ghost function View(): seq<Buf>
      reads this, bufs, set b | b in bufs :: b.mem
    {
      ViewOf(bufs)
    }

    /** The chain and the history of its direction. */
    ghost function FlowView(): Flow
      reads this, bufs, set b | b in bufs :: b.mem
    {
      Flow(View(), src, inn, out, wire)
    }

    /** STAILQ_INSERT_TAIL of a buffer that the pool has just handed out */
    method InsertTail(pool: BufferPool, buf: Buffer)
      requires pool.Valid() && Separate(bufs) && Separate([buf] + pool.free) && Apart(bufs, [buf] + pool.free)
      requires CursorsOk(bufs, pool.cap) && buf.mem.Length == pool.cap && buf.pos == 0 && buf.last == 0
      modifies this`bufs
      ensures Valid(pool) && bufs == old(bufs) + [buf]
      ensures View() == old(View()) + [Fresh(buf.id)]
    {
      ghost var s := bufs;
      bufs := bufs + [buf];
      SeparateJoin(s, [buf] + pool.free);
      ConcatAssoc(s, [buf], pool.free);
      CursorsConcat(s, [buf], pool.cap);
      ViewLast(s, buf);
    }

    /** x_buf_alloc followed by STAILQ_INSERT_TAIL */
    method AddBuffer(pool: BufferPool) returns (buf: Buffer)
      requires Valid(pool)
      modifies this`bufs, pool, pool.free
      ensures Valid(pool)
      ensures pool.View() == BufPool.Alloc(old(pool.View()))
      ensures View() == Link(old(View()), old(pool.View()))
      ensures bufs == old(bufs) + [buf] && FromBoth(old(bufs), old(pool.free), bufs, pool.free)
    {
      SeparateSplit(bufs, pool.free);
      buf := pool.Alloc();
      PartSame(bufs, pool.cap);
      InsertTail(pool, buf);
    }

    /** x_recvn into a buffer that is apart from some others and from the pool */
    method ReceiveApart(pool: BufferPool, s: Socket, buf: Buffer, ghost init: seq<Buffer>) returns (len: int)
      requires pool.Valid() && CursorsOk(init, pool.cap) && buf !in pool.free
      requires forall i :: 0 <= i < |init| ==> init[i] != buf && init[i].mem != buf.mem
      requires buf.pos <= buf.last < buf.mem.Length == pool.cap
      modifies buf`last, buf.mem, s`incoming
      ensures pool.Valid() && pool.View() == old(pool.View())
      ensures CursorsOk(init, pool.cap) && ViewOf(init) == old(ViewOf(init))
      ensures var r := Received(old(s.incoming), pool.cap - old(buf.last));
              && len == r.Ret() && s.incoming == r.rest
              && buf.View() == (if r.code < 0 then old(buf.View())
                                else old(buf.View()).(data := old(buf.View()).data + r.bytes))
      ensures buf.pos <= buf.last <= pool.cap
    {
      hide Received;
      len := ReceiveInto(buf, s);
      PoolSame(pool);
      PartSame(init, pool.cap);
    }

    /** One pass of the receive loop; buf is the last buffer of the chain. */
    method Receive(pool: BufferPool, s: Socket, buf: Buffer, ghost init: seq<Buffer>)
      returns (len: int, ghost q: RecvResult)
      requires Valid(pool) && bufs == init + [buf] && buf.last < pool.cap
      modifies buf`last, buf.mem, s`incoming
      ensures Valid(pool) && pool.View() == old(pool.View())
      ensures q == Received(old(s.incoming), pool.cap - old(buf.last)) && len == q.Ret() && s.incoming == q.rest
      ensures View() == (if len < 0 then old(View()) else Append(old(View()), q.bytes))
    {
      LastSeparate(init, buf, pool.free);
      CursorsSplit(init, [buf], pool.cap);
      assert buf.mem.Length == pool.cap && buf.pos <= buf.last by {
        assert [buf][0] == buf;
      }
      ViewLast(init, buf);
      ghost var v, b := ViewOf(init), buf.View();
      q := Received(s.incoming, pool.cap - buf.last);
      ReceivedContract(s.incoming, pool.cap - buf.last);
      AppendLast(v, b, q.bytes);
      hide Received, Append;
      len := ReceiveApart(pool, s, buf, init);
      ViewLast(init, buf);
      CursorsConcat(init, [buf], pool.cap);
      assert View() == v + [buf.View()];
    }

    /** One pass of the receive loop, seen from the whole of it. */
    method Pass(pool: BufferPool, s: Socket, buf: Buffer, ghost init: seq<Buffer>, ghost r: FillEnd)
      returns (len: int)
      requires Valid(pool) && bufs == init + [buf] && buf.last != pool.cap
      requires GoesOn(r, View(), pool.View(), s.incoming, pool.cap)
      modifies buf`last, buf.mem, s`incoming
      ensures Valid(pool) && pool.View() == old(pool.View())
      ensures len <= 0 ==> r == FillEnd(View(), pool.View(), len == 0, s.incoming)
      ensures len > 0 && buf.last != pool.cap ==> GoesOn(r, View(), pool.View(), s.incoming, pool.cap)
      ensures len > 0 && buf.last == pool.cap ==>
                GoesOn(r, Link(View(), pool.View()), BufPool.Alloc(pool.View()), s.incoming, pool.cap)
      ensures len > 0 ==> |Stream(s.incoming)| < |Stream(old(s.incoming))|
    {
      LastBuffer(init, buf, pool.cap);
      ghost var chain, p, ev, room := View(), pool.View(), s.incoming, pool.cap - buf.last;
      ghost var q;
      len, q := Receive(pool, s, buf, init);
      LastBuffer(init, buf, pool.cap);
      if len <= 0 {
        FillStops(r, chain, p, ev, pool.cap, room, q);
      } else {
        FillPass(r, chain, p, ev, pool.cap, room, q);
      }
    }

    /** The receive loop with what comes before it; `space` is the memory of the chain and of the pool. */
    method FillChain(pool: BufferPool, s: Socket, ghost space: set<object>) returns (ok: bool)
      requires Valid(pool) && pool.cap > 0
      requires forall b :: b in bufs || b in pool.free ==> b in space && b.mem in space
      modifies this`bufs, pool, space, s`incoming
      ensures Valid(pool) && FromBoth(old(bufs), old(pool.free), bufs, pool.free)
      ensures FillEnd(View(), pool.View(), ok, s.incoming)
           == EndOf(Pipe.Fill(old(View()), old(pool.View()), old(s.incoming), pool.cap))
    {
      ghost var r := EndOf(Pipe.Fill(View(), pool.View(), s.incoming, pool.cap));
      FillStart(View(), pool.View(), s.incoming, pool.cap);
      hide Valid, GoesOn, LastFull, EndOf, Pipe.Fill, Link;
      if bufs == [] {
        var first := AddBuffer(pool);
      }
      ghost var later := space + set o | o in Region(bufs) + Region(pool.free) && fresh(o);
      Inside(bufs, pool.free);
      ok := FillLast(pool, s, r, later);
    }

    /** The receive loop of x_recv_cb and x_upstream_recv_cb; false after an error or the end of the
        stream. */
    method Fill(pool: BufferPool, s: Socket) returns (ok: bool)
      requires Valid(pool) && pool.cap > 0
      modifies this, Region(bufs), pool, Region(pool.free), s`incoming
      ensures Valid(pool) && FromBoth(old(bufs), old(pool.free), bufs, pool.free)
      ensures var r := Pipe.Fill(old(View()), old(pool.View()), old(s.incoming), pool.cap);
              && r.pool == pool.View() && r.ok == ok && r.rest == s.incoming
              && FlowView() == Filled(old(FlowView()), r)
    {
      ghost var f := Pipe.Fill(View(), pool.View(), s.incoming, pool.cap);
      ghost var g := Filled(FlowView(), f);
      hide Valid, Pipe.Fill, Filled;
      Inside(bufs, pool.free);
      ok := FillChain(pool, s, Region(bufs) + Region(pool.free));
      FilledChain(old(FlowView()), f);
      Note(pool, g);
    }

    /** The history of the direction goes on. */
    ghost method Note(pool: BufferPool, f: Flow)
      requires Valid(pool) && View() == f.chain
      modifies this`src, this`inn, this`out, this`wire
      ensures Valid(pool) && FlowView() == f
    {
      src, inn, out, wire := f.src, f.inn, f.out, f.wire;
    }

    /** One round of the loop: a pass, and a new buffer if the last one is full. */
    method Round(pool: BufferPool, s: Socket, buf: Buffer, ghost init: seq<Buffer>, ghost r: FillEnd)
      returns (len: int, next: Buffer)
      requires Valid(pool) && bufs == init + [buf] && buf.last != pool.cap
      requires GoesOn(r, View(), pool.View(), s.incoming, pool.cap)
      modifies this`bufs, buf`last, buf.mem, pool, pool.free, s`incoming
      ensures Valid(pool) && FromBoth(old(bufs), old(pool.free), bufs, pool.free)
      ensures bufs != [] && next == bufs[|bufs| - 1]
      ensures len <= 0 ==> r == FillEnd(View(), pool.View(), len == 0, s.incoming)
      ensures len > 0 ==> GoesOn(r, View(), pool.View(), s.incoming, pool.cap)
      ensures len > 0 ==> |Stream(s.incoming)| < |Stream(old(s.incoming))|
    {
      len := Pass(pool, s, buf, init, r);
      next := buf;
      if len > 0 && buf.last == pool.cap {
        next := AddBuffer(pool);
      }
    }

    lemma AtEnd(pool: BufferPool)
      requires Valid(pool) && bufs != []
      ensures bufs == bufs[..|bufs| - 1] + [bufs[|bufs| - 1]] && bufs[|bufs| - 1] in bufs
      ensures View() != [] && (LastFull(View(), pool.cap) <==> bufs[|bufs| - 1].last == pool.cap)
    {
      LastOf(bufs, pool.cap);
    }

    /** The loop itself, from the last buffer on; `space` is the memory of the chain and of the pool. */
    method FillLast(pool: BufferPool, s: Socket, ghost r: FillEnd, ghost space: set<object>) returns (ok: bool)
      requires Valid(pool) && bufs != [] && GoesOn(r, View(), pool.View(), s.incoming, pool.cap)
      requires forall b :: b in bufs || b in pool.free ==> b in space && b.mem in space
      modifies this`bufs, pool, space, s`incoming
      ensures Valid(pool) && FromBoth(old(bufs), old(pool.free), bufs, pool.free)
      ensures r == FillEnd(View(), pool.View(), ok, s.incoming)
    {
      hide Valid, View, GoesOn, LastFull;
      var buf := bufs[|bufs| - 1];
      while buf.last != pool.cap
        invariant Valid(pool) && FromBoth(old(bufs), old(pool.free), bufs, pool.free)
        invariant bufs != [] && buf == bufs[|bufs| - 1]
        invariant GoesOn(r, View(), pool.View(), s.incoming, pool.cap)
        decreases |Stream(s.incoming)|
      {
        AtEnd(pool);
        assert (buf in space && buf.mem in space) || (fresh(buf) && fresh(buf.mem));
        var len;
        len, buf := Round(pool, s, buf, bufs[..|bufs| - 1], r);
        if len < 0 {
          return false;
        } else if len == 0 {
          return true;
        }
      }
      AtEnd(pool);
      FillFull(r, View(), pool.View(), s.incoming, pool.cap);
      return true;
    }

    /** STAILQ_REMOVE of the first buffer and x_buf_free */
    method DropFirst(pool: BufferPool)
      requires Valid(pool) && bufs != []
      modifies this`bufs, pool, bufs[0]
      ensures Valid(pool) && FromBoth(old(bufs), old(pool.free), bufs, pool.free)
      ensures bufs == old(bufs)[1..]
      ensures View() == old(View())[1..] && pool.View() == BufPool.Free(old(pool.View()), old(View())[0].id)
    {
      var buf := bufs[0];
      ghost var rest, free := bufs[1..], pool.free;
      assert bufs == [buf] + rest;
      CursorsSplit([buf], rest, pool.cap);
      assert [buf][0] == buf;
      FirstSeparate(buf, rest, free);
      bufs := bufs[1..];
      pool.Free(buf);
      PartSame(rest, pool.cap);
    }

    /** x_sendn from a buffer that is apart from some others and from the pool */
    method SendApart(pool: BufferPool, s: Socket, buf: Buffer, ghost rest: seq<Buffer>)
      returns (len: int, ghost q: SendResult)
      requires pool.Valid() && CursorsOk(rest, pool.cap) && buf !in pool.free && buf !in rest
      requires buf.pos < buf.last <= buf.mem.Length == pool.cap
      modifies buf`pos, s`outgoing, s`wire
      ensures pool.Valid() && pool.View() == old(pool.View())
      ensures CursorsOk(rest, pool.cap) && ViewOf(rest) == old(ViewOf(rest))
      ensures var b := old(buf.View());
              && SendCall(b, old(s.outgoing), q) && len == q.Ret() && s.outgoing == q.rest
              && s.wire == old(s.wire) + b.data[b.pos..b.pos + q.moved]
              && buf.View() == if len > 0 then b.(pos := b.pos + q.moved) else b
      ensures buf.pos <= buf.last <= pool.cap && (len > 0 ==> buf.last - buf.pos == old(buf.last - buf.pos) - len)
    {
      len, q := SendFrom(buf, s);
      PoolSame(pool);
      PartSame(rest, pool.cap);
    }

    /** One pass of the send loop; buf is the first buffer of the chain. */
    method Transmit(pool: BufferPool, s: Socket, buf: Buffer, ghost rest: seq<Buffer>)
      returns (len: int, ghost q: SendResult)
      requires Valid(pool) && bufs == [buf] + rest && buf.pos != buf.last
      modifies buf`pos, s`outgoing, s`wire
      ensures Valid(pool) && pool.View() == old(pool.View())
      ensures var b, v := old(buf.View()), old(ViewOf(rest));
              && SendCall(b, old(s.outgoing), q) && len == q.Ret() && s.outgoing == q.rest
              && s.wire == old(s.wire) + b.data[b.pos..b.pos + q.moved]
              && View() == [if len > 0 then b.(pos := b.pos + q.moved) else b] + v
      ensures len > 0 ==> 0 <= buf.last - buf.pos == old(buf.last - buf.pos) - len
    {
      FirstBuffer(buf, rest, pool.cap);
      FirstSeparate(buf, rest, pool.free);
      len, q := SendApart(pool, s, buf, rest);
      CursorsConcat([buf], rest, pool.cap);
      FirstBuffer(buf, rest, pool.cap);
    }

    /** The same, seen from the whole loop. */
    method Send(pool: BufferPool, s: Socket, buf: Buffer, ghost rest: seq<Buffer>, ghost r: DrainEnd) returns (len: int)
      requires Valid(pool) && bufs == [buf] + rest && buf.pos != buf.last
      requires SendsOn(r, View(), pool.View(), s.outgoing, s.wire, pool.cap)
      modifies buf`pos, s`outgoing, s`wire
      ensures Valid(pool) && pool.View() == old(pool.View())
      ensures len <= 0 ==> r == DrainEnd(View(), pool.View(),
                                         if len < 0 then Admission.SendError else Admission.SendAgain,
                                         s.outgoing, s.wire)
      ensures len > 0 ==> SendsOn(r, View(), pool.View(), s.outgoing, s.wire, pool.cap)
      ensures len > 0 ==> 0 <= buf.last - buf.pos == old(buf.last - buf.pos) - len
    {
      ghost var p, ev, wire, b, v := pool.View(), s.outgoing, s.wire, buf.View(), ViewOf(rest);
      FirstBuffer(buf, rest, pool.cap);
      ghost var q;
      len, q := Transmit(pool, s, buf, rest);
      if len <= 0 {
        SendStops(r, b, v, p, ev, wire, pool.cap, q);
      } else {
        SendPass(r, b, v, p, ev, wire, pool.cap, q);
      }
    }

    /** The inner loop: None when the first buffer has been sent as far as it is filled. */
    method DrainFirst(pool: BufferPool, s: Socket, buf: Buffer, ghost rest: seq<Buffer>, ghost r: DrainEnd)
      returns (stop: Option<Admission.SendOutcome>)
      requires Valid(pool) && bufs == [buf] + rest && SendsOn(r, View(), pool.View(), s.outgoing, s.wire, pool.cap)
      modifies buf`pos, s`outgoing, s`wire
      ensures Valid(pool)
      ensures stop.Some? ==> r == DrainEnd(View(), pool.View(), stop.value, s.outgoing, s.wire)
      ensures stop == None ==> buf.pos == buf.last && SendsOn(r, View(), pool.View(), s.outgoing, s.wire, pool.cap)
    {
      while buf.pos != buf.last
        invariant Valid(pool) && SendsOn(r, View(), pool.View(), s.outgoing, s.wire, pool.cap)
        decreases buf.last - buf.pos
      {
        var len := Send(pool, s, buf, rest, r);
        if len < 0 {
          return Some(Admission.SendError);
        } else if len == 0 {
          return Some(Admission.SendAgain);
        }
      }
      return None;
    }

    lemma AtHead(pool: BufferPool)
      requires Valid(pool) && bufs != []
      ensures bufs == [bufs[0]] + bufs[1..] && bufs[0] in bufs
      ensures View() != [] && View()[0].pos == bufs[0].pos && |View()[0].data| == bufs[0].last
    {
      var b, rest := bufs[0], bufs[1..];
      assert bufs == [b] + rest;
      FirstBuffer(b, rest, pool.cap);
    }

    /** The send loop, from the label bufsend on. */
    method DrainChain(pool: BufferPool, s: Socket) returns (end: Admission.SendOutcome)
      requires Valid(pool)
      modifies this`bufs, bufs, pool, s`outgoing, s`wire
      ensures Valid(pool) && FromBoth(old(bufs), old(pool.free), bufs, pool.free)
      ensures DrainEnd(View(), pool.View(), end, s.outgoing, s.wire)
           == SentOf(Pipe.Drain(old(View()), old(pool.View()), old(s.outgoing), pool.cap), old(s.wire))
    {
      ghost var r := SentOf(Pipe.Drain(View(), pool.View(), s.outgoing, pool.cap), s.wire);
      assert SendsOn(r, View(), pool.View(), s.outgoing, s.wire, pool.cap);
      hide Valid, SendsOn, SentOf, Pipe.Drain;
      while bufs != []
        invariant Valid(pool) && FromBoth(old(bufs), old(pool.free), bufs, pool.free)
        invariant forall b :: b in bufs ==> b in old(bufs)
        invariant SendsOn(r, View(), pool.View(), s.outgoing, s.wire, pool.cap)
        decreases |bufs|
      {
        var buf := bufs[0];
        AtHead(pool);
        var stop := DrainFirst(pool, s, buf, bufs[1..], r);
        if stop.Some? {
          return stop.value;
        }
        AtHead(pool);
        SendHead(r, View(), pool.View(), s.outgoing, s.wire, pool.cap);
        if buf.pos != pool.cap {
          return Admission.SendDry;
        }
        DropFirst(pool);
      }
      SendNothing(r, pool.View(), s.outgoing, s.wire, pool.cap);
      assert View() == [];
      return Admission.SendDry;
    }

    /** The send loop of x_send_cb and x_upstream_send_cb */
    method Drain(pool: BufferPool, s: Socket) returns (end: Admission.SendOutcome)
      requires Valid(pool)
      modifies this, bufs, pool, s`outgoing, s`wire
      ensures Valid(pool) && FromBoth(old(bufs), old(pool.free), bufs, pool.free)
      ensures var r := Pipe.Drain(old(View()), old(pool.View()), old(s.outgoing), pool.cap);
              && r.pool == pool.View() && r.end == end && r.rest == s.outgoing
              && s.wire == old(s.wire) + r.sent + r.over
              && FlowView() == Drained(old(FlowView()), r)
    {
      ghost var d := Pipe.Drain(View(), pool.View(), s.outgoing, pool.cap);
      ghost var g := Drained(FlowView(), d);
      end := DrainChain(pool, s);
      Note(pool, g);
    }

    /** The loops of x_timeout_cb that give all buffers of a chain back. */
    method Release(pool: BufferPool)
      requires Valid(pool)
      modifies this`bufs, bufs, pool
      ensures pool.Valid() && bufs == [] && FromBoth(old(bufs), old(pool.free), bufs, pool.free)
      ensures pool.View() == BufPool.FreeAll(old(pool.View()), Pipe.Ids(old(View())))
    {
      ghost var ids := Pipe.Ids(View());
      while bufs != []
        invariant Valid(pool) && FromBoth(old(bufs), old(pool.free), bufs, pool.free)
        invariant forall b :: b in bufs ==> b in old(bufs)
        invariant BufPool.FreeAll(pool.View(), Pipe.Ids(View())) == BufPool.FreeAll(old(pool.View()), ids)
        decreases |bufs|
      {
        IdsTail(View());
        DropFirst(pool);
      }
      assert Pipe.Ids(View()) == [];
    }
  }
}
