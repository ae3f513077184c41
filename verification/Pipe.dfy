/** One direction of a proxied connection: a chain of pooled buffers between two sockets.  The fill
    loop belongs to x_recv_cb and x_upstream_recv_cb, the drain loop to x_send_cb and
    x_upstream_send_cb; both are shown to refine a plain queue of bytes. */
module Pipe {
  import opened Common
  import opened Nio
  import opened BufPool
  import Admission

  /** A buffer in a chain: the bytes from start to last, and pos as an offset from start. */
  datatype Buf = Buf(id: nat, data: seq<Byte>, pos: nat)

  function Fresh(id: nat): Buf {
    Buf(id, [], 0)
  }

  function Ids(chain: seq<Buf>): (ids: seq<nat>)
    ensures |ids| == |chain|
    ensures forall i :: 0 <= i < |chain| ==> ids[i] == chain[i].id
  {
    seq(|chain|, i requires 0 <= i < |chain| => chain[i].id)
  }

  function UnreadOf(b: Buf): seq<Byte> {
    if b.pos <= |b.data| then b.data[b.pos..] else []
  }

  /** The bytes of a chain that have not been sent. */
  function Unread(chain: seq<Buf>): seq<Byte> {
    if chain == [] then [] else UnreadOf(chain[0]) + Unread(chain[1..])
  }

  // ---------- the loops ----------

  datatype FillResult = FillResult(
    chain: seq<Buf>, pool: Pool, ok: bool, rest: seq<RecvEvent>,
    got: seq<Byte>,   // bytes by which `last` advanced
    lost: seq<Byte>)  // bytes taken from the socket by a loop that then failed

  /** A new buffer at the end of the chain. */
  function Link(chain: seq<Buf>, pool: Pool): seq<Buf> {
    chain + [Fresh(Ready(pool).free[0])]
  }

  /** The last buffer with more bytes in it. */
  function Append(chain: seq<Buf>, bytes: seq<Byte>): (r: seq<Buf>)
    requires chain != []
    ensures r != []
  {
    var t := chain[|chain| - 1];
    chain[..|chain| - 1] + [t.(data := t.data + bytes)]
  }

  predicate LastFull(chain: seq<Buf>, cap: nat)
    requires chain != []
  {
    |chain[|chain| - 1].data| >= cap
  }

  /** The receive loop, from its label on. */
  function FillTail(chain: seq<Buf>, pool: Pool, ev: seq<RecvEvent>, cap: nat): FillResult
    requires chain != []
    decreases |Stream(ev)|
  {
    if LastFull(chain, cap) then FillResult(chain, pool, true, ev, [], [])
    else
      var room := cap - |chain[|chain| - 1].data|;
      var r := Received(ev, room);
      ReceivedContract(ev, room);
      if r.code < 0 then FillResult(chain, pool, false, r.rest, [], r.bytes)
      else if r.bytes == [] then FillResult(chain, pool, true, r.rest, [], [])
      else
        var longer := Append(chain, r.bytes);
        var f := if LastFull(longer, cap) then FillTail(Link(longer, pool), Alloc(pool), r.rest, cap)
                 else FillTail(longer, pool, r.rest, cap);
        f.(got := r.bytes + f.got)
  }

  function Fill(chain: seq<Buf>, pool: Pool, ev: seq<RecvEvent>, cap: nat): FillResult {
    if chain == [] then FillTail(Link([], pool), Alloc(pool), ev, cap) else FillTail(chain, pool, ev, cap)
  }

  datatype DrainResult = DrainResult(
    chain: seq<Buf>, pool: Pool, end: Admission.SendOutcome, rest: seq<SendEvent>,
    sent: seq<Byte>,  // bytes by which `pos` advanced
    over: seq<Byte>)  // bytes taken by the kernel in a loop that then failed

  /** The chain after k more bytes of its first buffer have been sent. */
  function Advance(chain: seq<Buf>, k: nat): seq<Buf>
    requires chain != []
  {
    [chain[0].(pos := chain[0].pos + k)] + chain[1..]
  }

  function HeadLeft(chain: seq<Buf>): int {
    if chain == [] then 0 else |chain[0].data| - chain[0].pos
  }

  /** The send loop, from its label on. */
  function Drain(chain: seq<Buf>, pool: Pool, ev: seq<SendEvent>, cap: nat): DrainResult
    decreases |chain|, HeadLeft(chain)
  {
    if chain == [] then DrainResult(chain, pool, Admission.SendDry, ev, [], [])
    else
      var h := chain[0];
      if h.pos < |h.data| then
        var r := Sent(ev, |h.data| - h.pos);
        SentFits(ev, |h.data| - h.pos);
        if r.code < 0 then DrainResult(chain, pool, Admission.SendError, r.rest, [], h.data[h.pos..h.pos + r.moved])
        else if r.moved == 0 then DrainResult(chain, pool, Admission.SendAgain, r.rest, [], [])
        else
          var d := Drain(Advance(chain, r.moved), pool, r.rest, cap);
          d.(sent := h.data[h.pos..h.pos + r.moved] + d.sent)
      else if h.pos == cap then Drain(chain[1..], Free(pool, h.id), ev, cap)
      else DrainResult(chain, pool, Admission.SendDry, ev, [], [])
  }

  // ---------- the shape of a chain ----------

  /** Every buffer but the last is full and the last is not; every buffer but the first is unread and
      the first is not used up. */
  ghost predicate Shape(chain: seq<Buf>, cap: nat) {
    && (forall i :: 0 <= i < |chain| ==> chain[i].pos <= |chain[i].data| <= cap)
    && (forall i :: 0 <= i < |chain| - 1 ==> |chain[i].data| == cap)
    && (forall i :: 1 <= i < |chain| ==> chain[i].pos == 0)
    && (chain != [] ==> |chain[|chain| - 1].data| < cap && chain[0].pos < cap)
  }

  /** Shape, except that the first buffer may be used up: between the steps of the send loop. */
  ghost predicate NearShape(chain: seq<Buf>, cap: nat) {
    && (forall i :: 0 <= i < |chain| ==> chain[i].pos <= |chain[i].data| <= cap)
    && (forall i :: 0 <= i < |chain| - 1 ==> |chain[i].data| == cap)
    && (forall i :: 1 <= i < |chain| ==> chain[i].pos == 0)
    && (chain != [] ==> |chain[|chain| - 1].data| < cap)
  }

  lemma {:induction false} UnreadConcat(a: seq<Buf>, b: seq<Buf>)
    ensures Unread(a + b) == Unread(a) + Unread(b)
  {
    if a == [] {
      assert a + b == b;
    } else {
      assert (a + b)[0] == a[0] && (a + b)[1..] == a[1..] + b;
      UnreadConcat(a[1..], b);
    }
  }

  lemma UnreadOne(b: Buf)
    ensures Unread([b]) == UnreadOf(b)
  {
    assert [b][1..] == [];
  }

  lemma UnreadAppend(chain: seq<Buf>, bytes: seq<Byte>)
    requires chain != [] && chain[|chain| - 1].pos <= |chain[|chain| - 1].data|
    ensures Unread(Append(chain, bytes)) == Unread(chain) + bytes
  {
    var init, t := chain[..|chain| - 1], chain[|chain| - 1];
    var t' := t.(data := t.data + bytes);
    assert chain == init + [t] && Append(chain, bytes) == init + [t'];
    UnreadConcat(init, [t]);
    UnreadConcat(init, [t']);
    UnreadOne(t);
    UnreadOne(t');
    assert UnreadOf(t') == UnreadOf(t) + bytes;
  }

  lemma LinkKeeps(chain: seq<Buf>, pool: Pool, cap: nat)
    requires cap > 0
    requires forall i :: 0 <= i < |chain| ==> chain[i].pos <= |chain[i].data| && |chain[i].data| == cap
    requires forall i :: 1 <= i < |chain| ==> chain[i].pos == 0
    requires chain != [] ==> chain[0].pos < cap
    ensures Shape(Link(chain, pool), cap)
    ensures Unread(Link(chain, pool)) == Unread(chain)
  {
    UnreadConcat(chain, [Fresh(Ready(pool).free[0])]);
    UnreadOne(Fresh(Ready(pool).free[0]));
  }

  /** One pass of the receive loop. */
  lemma AppendKeeps(chain: seq<Buf>, pool: Pool, bytes: seq<Byte>, cap: nat)
    requires chain != [] && Shape(chain, cap) && 0 < |bytes| <= cap - |chain[|chain| - 1].data|
    ensures var longer := Append(chain, bytes);
            var next := if LastFull(longer, cap) then Link(longer, pool) else longer;
            Shape(next, cap) && Unread(next) == Unread(chain) + bytes
  {
    var longer := Append(chain, bytes);
    UnreadAppend(chain, bytes);
    AppendAt(chain, bytes);
    hide Append, Link, Unread;
    if LastFull(longer, cap) {
      LinkKeeps(longer, pool, cap);
    }
  }

  lemma AppendAt(chain: seq<Buf>, bytes: seq<Byte>)
    requires chain != []
    ensures |Append(chain, bytes)| == |chain|
    ensures forall i :: 0 <= i < |chain| ==> Append(chain, bytes)[i].pos == chain[i].pos
    ensures forall i :: 0 <= i < |chain| - 1 ==> Append(chain, bytes)[i] == chain[i]
    ensures |Append(chain, bytes)[|chain| - 1].data| == |chain[|chain| - 1].data| + |bytes|
  {
  }

  /** Appending at the end what was committed and nothing else, in order, and keeping the shape. */
  ghost predicate Appends(chain: seq<Buf>, ev: seq<RecvEvent>, cap: nat, f: FillResult) {
    && Shape(f.chain, cap)
    && Unread(f.chain) == Unread(chain) + f.got
    && Stream(ev) == f.got + f.lost + Stream(f.rest)
    && (f.ok ==> f.lost == [])
  }

  lemma AppendsMore(chain: seq<Buf>, ev: seq<RecvEvent>, cap: nat, bytes: seq<Byte>,
                    next: seq<Buf>, rest: seq<RecvEvent>, f: FillResult)
    requires Appends(next, rest, cap, f)
    requires Unread(next) == Unread(chain) + bytes && Stream(ev) == bytes + Stream(rest)
    ensures Appends(chain, ev, cap, f.(got := bytes + f.got))
  {
    ConcatAssoc(Unread(chain), bytes, f.got);
    ConcatAssoc(bytes, f.got, f.lost);
    ConcatAssoc(bytes, f.got + f.lost, Stream(f.rest));
  }

  /** What the loop does after a pass. */
  function AfterPass(longer: seq<Buf>, pool: Pool, ev: seq<RecvEvent>, cap: nat): FillResult
    requires longer != []
  {
    if LastFull(longer, cap) then FillTail(Link(longer, pool), Alloc(pool), ev, cap)
    else FillTail(longer, pool, ev, cap)
  }

  lemma FillTailPass(chain: seq<Buf>, pool: Pool, ev: seq<RecvEvent>, cap: nat, r: RecvResult)
    requires chain != [] && !LastFull(chain, cap) && r == Received(ev, cap - |chain[|chain| - 1].data|)
    ensures if r.code >= 0 && r.bytes != []
            then var f := AfterPass(Append(chain, r.bytes), pool, r.rest, cap);
                 FillTail(chain, pool, ev, cap) == f.(got := r.bytes + f.got)
            else FillTail(chain, pool, ev, cap) == FillResult(chain, pool, r.code >= 0, r.rest, [], r.bytes)
  {
    ReceivedContract(ev, cap - |chain[|chain| - 1].data|);
  }

  lemma FillTailStops(chain: seq<Buf>, pool: Pool, ev: seq<RecvEvent>, cap: nat, r: RecvResult)
    requires Shape(chain, cap) && Stream(ev) == r.bytes + Stream(r.rest) && (r.code < 0 || r.bytes == [])
    ensures Appends(chain, ev, cap, FillResult(chain, pool, r.code >= 0, r.rest, [], r.bytes))
  {
    assert Unread(chain) + [] == Unread(chain);
    assert [] + r.bytes + Stream(r.rest) == r.bytes + Stream(r.rest);
  }

  lemma {:induction false} FillTailRefines(chain: seq<Buf>, pool: Pool, ev: seq<RecvEvent>, cap: nat)
      returns (f: FillResult)
    requires chain != [] && Shape(chain, cap)
    ensures f == FillTail(chain, pool, ev, cap) && Appends(chain, ev, cap, f)
    decreases |Stream(ev)|
  {
    var room := cap - |chain[|chain| - 1].data|;
    var r := Received(ev, room);
    ReceivedContract(ev, room);
    FillTailPass(chain, pool, ev, cap, r);
    hide FillTail, Received, Append, Link, Unread, Appends;
    if r.code >= 0 && r.bytes != [] {
      AppendKeeps(chain, pool, r.bytes, cap);
      var longer := Append(chain, r.bytes);
      if LastFull(longer, cap) {
        f := FillTailRefines(Link(longer, pool), Alloc(pool), r.rest, cap);
        AppendsMore(chain, ev, cap, r.bytes, Link(longer, pool), r.rest, f);
      } else {
        f := FillTailRefines(longer, pool, r.rest, cap);
        AppendsMore(chain, ev, cap, r.bytes, longer, r.rest, f);
      }
      f := f.(got := r.bytes + f.got);
    } else {
      FillTailStops(chain, pool, ev, cap, r);
      f := FillResult(chain, pool, r.code >= 0, r.rest, [], r.bytes);
    }
  }

  /** The receive loop refines appending to a queue of bytes. */
  lemma FillRefines(chain: seq<Buf>, pool: Pool, ev: seq<RecvEvent>, cap: nat)
    requires cap > 0 && Shape(chain, cap)
    ensures Appends(chain, ev, cap, Fill(chain, pool, ev, cap))
  {
    if chain == [] {
      LinkKeeps([], pool, cap);
      var f := FillTailRefines(Link([], pool), Alloc(pool), ev, cap);
    } else {
      var f := FillTailRefines(chain, pool, ev, cap);
    }
  }

  lemma UnreadAdvance(h: Buf, rest: seq<Buf>, k: nat)
    requires h.pos + k <= |h.data|
    ensures Unread([h] + rest) == h.data[h.pos..h.pos + k] + Unread([h.(pos := h.pos + k)] + rest)
  {
    var h' := h.(pos := h.pos + k);
    assert ([h] + rest)[1..] == rest && ([h'] + rest)[1..] == rest;
    assert UnreadOf(h) == h.data[h.pos..h.pos + k] + UnreadOf(h');
  }

  lemma UnreadEmpty(chain: seq<Buf>)
    requires |chain| == 1 && chain[0].pos >= |chain[0].data|
    ensures Unread(chain) == []
  {
    assert chain == [chain[0]];
    UnreadOne(chain[0]);
  }

  /** Taking from the front what was sent.  When nothing is found left to send, the chain holds no
      unsent byte, although only its first buffer is looked at. */
  ghost predicate TakesOff(chain: seq<Buf>, cap: nat, d: DrainResult) {
    && Shape(d.chain, cap)
    && Unread(chain) == d.sent + Unread(d.chain)
    && d.over <= Unread(d.chain)
    && (d.end != Admission.SendError ==> d.over == [])
    && (d.end == Admission.SendDry <==> Unread(d.chain) == [])
  }

  lemma TakesOffMore(chain: seq<Buf>, cap: nat, bytes: seq<Byte>, next: seq<Buf>, d: DrainResult)
    requires TakesOff(next, cap, d) && Unread(chain) == bytes + Unread(next)
    ensures TakesOff(chain, cap, d.(sent := bytes + d.sent))
  {
    ConcatAssoc(bytes, d.sent, Unread(d.chain));
  }

  /** A loop that ends within the first buffer. */
  lemma DrainStops(chain: seq<Buf>, cap: nat, d: DrainResult, k: nat)
    requires NearShape(chain, cap) && chain != [] && chain[0].pos + k < |chain[0].data|
    requires d.chain == chain && d.sent == [] && d.end != Admission.SendDry
    requires d.over == if d.end == Admission.SendError then chain[0].data[chain[0].pos..chain[0].pos + k] else []
    ensures TakesOff(chain, cap, d)
  {
    assert chain == [chain[0]] + chain[1..];
    UnreadAdvance(chain[0], chain[1..], k);
    UnreadAdvance(chain[0], chain[1..], |chain[0].data| - chain[0].pos);
  }

  lemma AdvanceNear(chain: seq<Buf>, cap: nat, k: nat)
    requires NearShape(chain, cap) && chain != [] && chain[0].pos + k <= |chain[0].data|
    ensures NearShape(Advance(chain, k), cap)
  {
  }

  lemma AdvanceTakesOff(chain: seq<Buf>, cap: nat, k: nat, d: DrainResult)
    requires chain != [] && chain[0].pos + k <= |chain[0].data| && TakesOff(Advance(chain, k), cap, d)
    ensures TakesOff(chain, cap, d.(sent := chain[0].data[chain[0].pos..chain[0].pos + k] + d.sent))
  {
    assert chain == [chain[0]] + chain[1..];
    UnreadAdvance(chain[0], chain[1..], k);
    TakesOffMore(chain, cap, chain[0].data[chain[0].pos..chain[0].pos + k], Advance(chain, k), d);
  }

  /** A used-up first buffer, or an unfilled one that has been sent as far as it goes. */
  lemma HeadDone(chain: seq<Buf>, cap: nat)
    requires NearShape(chain, cap) && chain != [] && chain[0].pos >= |chain[0].data|
    ensures chain[0].pos == cap ==> NearShape(chain[1..], cap) && Unread(chain) == [] + Unread(chain[1..])
    ensures chain[0].pos != cap ==> Shape(chain, cap) && Unread(chain) == []
  {
    if chain[0].pos != cap {
      UnreadEmpty(chain);
    }
  }

  /** The send loop does not come back to its label or its head. */
  ghost predicate EndsHere(chain: seq<Buf>, ev: seq<SendEvent>, cap: nat) {
    chain == [] ||
    (if chain[0].pos < |chain[0].data| then
       var r := Sent(ev, |chain[0].data| - chain[0].pos); r.code < 0 || r.moved == 0
     else chain[0].pos != cap)
  }

  lemma DrainEnds(chain: seq<Buf>, pool: Pool, ev: seq<SendEvent>, cap: nat) returns (d: DrainResult)
    requires NearShape(chain, cap) && EndsHere(chain, ev, cap)
    ensures TakesOff(chain, cap, d) && d == Drain(chain, pool, ev, cap)
  {
    if chain == [] {
      d := DrainResult(chain, pool, Admission.SendDry, ev, [], []);
    } else if chain[0].pos < |chain[0].data| {
      var h, r := chain[0], Sent(ev, |chain[0].data| - chain[0].pos);
      SentFits(ev, |h.data| - h.pos);
      if r.code < 0 {
        d := DrainResult(chain, pool, Admission.SendError, r.rest, [], h.data[h.pos..h.pos + r.moved]);
        DrainStops(chain, cap, d, r.moved);
      } else {
        d := DrainResult(chain, pool, Admission.SendAgain, r.rest, [], []);
        DrainStops(chain, cap, d, 0);
      }
    } else {
      HeadDone(chain, cap);
      d := DrainResult(chain, pool, Admission.SendDry, ev, [], []);
    }
  }

  lemma DrainAdvances(chain: seq<Buf>, pool: Pool, ev: seq<SendEvent>, cap: nat, r: SendResult, e: DrainResult)
    requires chain != [] && chain[0].pos < |chain[0].data| && r == Sent(ev, |chain[0].data| - chain[0].pos)
    requires r.code >= 0 && 0 < r.moved <= |chain[0].data| - chain[0].pos
    requires e == Drain(Advance(chain, r.moved), pool, r.rest, cap)
    ensures Drain(chain, pool, ev, cap)
         == e.(sent := chain[0].data[chain[0].pos..chain[0].pos + r.moved] + e.sent)
  {
  }

  /** A pass that sends something, with what comes after it. */
  lemma DrainPass(chain: seq<Buf>, pool: Pool, ev: seq<SendEvent>, cap: nat, k: nat, e: DrainResult)
      returns (d: DrainResult)
    requires chain != [] && chain[0].pos < |chain[0].data|
    requires var r := Sent(ev, |chain[0].data| - chain[0].pos);
             && r.code >= 0 && k == r.moved && 0 < k <= |chain[0].data| - chain[0].pos
             && e == Drain(Advance(chain, k), pool, r.rest, cap)
    requires TakesOff(Advance(chain, k), cap, e)
    ensures TakesOff(chain, cap, d) && d == Drain(chain, pool, ev, cap)
  {
    var h := chain[0];
    DrainAdvances(chain, pool, ev, cap, Sent(ev, |h.data| - h.pos), e);
    hide Drain, TakesOff, Sent, Advance;
    d := e.(sent := h.data[h.pos..h.pos + k] + e.sent);
    AdvanceTakesOff(chain, cap, k, e);
  }

  /** A first buffer that is given back, with what comes after it. */
  lemma DrainDrop(chain: seq<Buf>, pool: Pool, ev: seq<SendEvent>, cap: nat, d: DrainResult)
    requires NearShape(chain, cap) && !EndsHere(chain, ev, cap) && chain[0].pos >= |chain[0].data|
    requires d == Drain(chain[1..], Free(pool, chain[0].id), ev, cap) && TakesOff(chain[1..], cap, d)
    ensures TakesOff(chain, cap, d) && d == Drain(chain, pool, ev, cap)
  {
    HeadDone(chain, cap);
    assert [] + Unread(chain[1..]) == Unread(chain[1..]);
  }

  /** The send loop refines taking from the front of a queue of bytes. */
  lemma {:induction false} DrainRefines(chain: seq<Buf>, pool: Pool, ev: seq<SendEvent>, cap: nat)
      returns (d: DrainResult)
    requires NearShape(chain, cap)
    ensures TakesOff(chain, cap, d)
    ensures d == Drain(chain, pool, ev, cap)
    decreases |chain|, HeadLeft(chain)
  {
    if EndsHere(chain, ev, cap) {
      d := DrainEnds(chain, pool, ev, cap);
    } else if chain[0].pos < |chain[0].data| {
      var h, r := chain[0], Sent(ev, |chain[0].data| - chain[0].pos);
      SentFits(ev, |h.data| - h.pos);
      AdvanceNear(chain, cap, r.moved);
      var e := DrainRefines(Advance(chain, r.moved), pool, r.rest, cap);
      d := DrainPass(chain, pool, ev, cap, r.moved, e);
    } else {
      HeadDone(chain, cap);
      d := DrainRefines(chain[1..], Free(pool, chain[0].id), ev, cap);
      DrainDrop(chain, pool, ev, cap, d);
    }
  }

  // ---------- buffers change hands ----------

  ghost predicate Swaps(chain: seq<Buf>, pool: Pool, chain': seq<Buf>, pool': Pool) {
    && Exchange(Ids(chain) + pool.free, pool.made, Ids(chain') + pool'.free, pool'.made)
    && (PoolOk(pool) ==> PoolOk(pool'))
  }

  lemma SwapsTrans(c: seq<Buf>, p: Pool, c': seq<Buf>, p': Pool, c'': seq<Buf>, p'': Pool)
    requires Swaps(c, p, c', p') && Swaps(c', p', c'', p'')
    ensures Swaps(c, p, c'', p'')
  {
    ExchangeTrans(Ids(c) + p.free, p.made, Ids(c') + p'.free, p'.made, Ids(c'') + p''.free, p''.made);
  }

  lemma LinkSwaps(chain: seq<Buf>, pool: Pool)
    ensures Swaps(chain, pool, Link(chain, pool), Alloc(pool))
  {
    AllocExchange(pool, Ids(chain));
    assert Ids(Link(chain, pool)) == Ids(chain) + [Ready(pool).free[0]];
    if PoolOk(pool) {
      AllocOk(pool);
    }
  }

  lemma UnlinkSwaps(chain: seq<Buf>, pool: Pool)
    requires chain != []
    ensures Swaps(chain, pool, chain[1..], Free(pool, chain[0].id))
  {
    FreeExchange(pool, chain[0].id, Ids(chain[1..]));
    assert Ids(chain) == [chain[0].id] + Ids(chain[1..]);
  }

  lemma {:induction false} FillTailSwaps(chain: seq<Buf>, pool: Pool, ev: seq<RecvEvent>, cap: nat)
      returns (f: FillResult)
    requires chain != []
    ensures f == FillTail(chain, pool, ev, cap) && Swaps(chain, pool, f.chain, f.pool)
    decreases |Stream(ev)|
  {
    f := FillTail(chain, pool, ev, cap);
    if !LastFull(chain, cap) {
      var room := cap - |chain[|chain| - 1].data|;
      var r := Received(ev, room);
      ReceivedContract(ev, room);
      if r.code >= 0 && r.bytes != [] {
        var longer := Append(chain, r.bytes);
        assert Ids(longer) == Ids(chain);
        if LastFull(longer, cap) {
          LinkSwaps(longer, pool);
          var g := FillTailSwaps(Link(longer, pool), Alloc(pool), r.rest, cap);
          SwapsTrans(longer, pool, Link(longer, pool), Alloc(pool), g.chain, g.pool);
        } else {
          var g := FillTailSwaps(longer, pool, r.rest, cap);
        }
      }
    }
  }

  /** The receive loop only moves buffers from the pool into the chain. */
  lemma FillSwaps(chain: seq<Buf>, pool: Pool, ev: seq<RecvEvent>, cap: nat)
    ensures var f := Fill(chain, pool, ev, cap); Swaps(chain, pool, f.chain, f.pool)
  {
    if chain == [] {
      LinkSwaps([], pool);
      var f := FillTailSwaps(Link([], pool), Alloc(pool), ev, cap);
      SwapsTrans([], pool, Link([], pool), Alloc(pool), f.chain, f.pool);
    } else {
      var f := FillTailSwaps(chain, pool, ev, cap);
    }
  }

  /** The send loop only moves buffers from the chain into the pool. */
  lemma {:induction false} DrainSwaps(chain: seq<Buf>, pool: Pool, ev: seq<SendEvent>, cap: nat)
      returns (d: DrainResult)
    ensures d == Drain(chain, pool, ev, cap) && Swaps(chain, pool, d.chain, d.pool)
    decreases |chain|, HeadLeft(chain)
  {
    d := Drain(chain, pool, ev, cap);
    if chain != [] {
      var h := chain[0];
      if h.pos < |h.data| {
        var r := Sent(ev, |h.data| - h.pos);
        SentFits(ev, |h.data| - h.pos);
        if r.code >= 0 && r.moved > 0 {
          assert Ids(Advance(chain, r.moved)) == Ids(chain);
          var e := DrainSwaps(Advance(chain, r.moved), pool, r.rest, cap);
        }
      } else if h.pos == cap {
        UnlinkSwaps(chain, pool);
        var e := DrainSwaps(chain[1..], Free(pool, h.id), ev, cap);
        SwapsTrans(chain, pool, chain[1..], Free(pool, h.id), e.chain, e.pool);
      }
    }
  }

  // ---------- growth of the pool ----------

  lemma {:induction false} FillTailGrows(chain: seq<Buf>, pool: Pool, ev: seq<RecvEvent>, cap: nat)
      returns (f: FillResult)
    requires chain != [] && PoolOk(pool)
    ensures f == FillTail(chain, pool, ev, cap) && Grows(pool, f.pool)
    decreases |Stream(ev)|
  {
    f := FillTail(chain, pool, ev, cap);
    if !LastFull(chain, cap) {
      var room := cap - |chain[|chain| - 1].data|;
      var r := Received(ev, room);
      ReceivedContract(ev, room);
      if r.code >= 0 && r.bytes != [] {
        var longer := Append(chain, r.bytes);
        if LastFull(longer, cap) {
          AllocGrows(pool);
          var g := FillTailGrows(Link(longer, pool), Alloc(pool), r.rest, cap);
          GrowsTrans(pool, Alloc(pool), g.pool);
        } else {
          var g := FillTailGrows(longer, pool, r.rest, cap);
        }
      }
    }
  }

  /** The receive loop only takes buffers out of the pool. */
  lemma FillGrows(chain: seq<Buf>, pool: Pool, ev: seq<RecvEvent>, cap: nat)
    requires PoolOk(pool)
    ensures Grows(pool, Fill(chain, pool, ev, cap).pool)
  {
    if chain == [] {
      AllocGrows(pool);
      var f := FillTailGrows(Link([], pool), Alloc(pool), ev, cap);
      GrowsTrans(pool, Alloc(pool), f.pool);
    } else {
      var f := FillTailGrows(chain, pool, ev, cap);
    }
  }

  /** The send loop makes no buffer. */
  lemma {:induction false} DrainMakesNone(chain: seq<Buf>, pool: Pool, ev: seq<SendEvent>, cap: nat)
    ensures Drain(chain, pool, ev, cap).pool.max == pool.max
    decreases |chain|, HeadLeft(chain)
  {
    if chain != [] {
      var h := chain[0];
      if h.pos < |h.data| {
        var r := Sent(ev, |h.data| - h.pos);
        SentFits(ev, |h.data| - h.pos);
        if r.code >= 0 && r.moved > 0 {
          DrainMakesNone(Advance(chain, r.moved), pool, r.rest, cap);
        }
      } else if h.pos == cap {
        DrainMakesNone(chain[1..], Free(pool, h.id), ev, cap);
      }
    }
  }
}
