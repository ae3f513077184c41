/** Why the loops over the buffers of a chain end: not before the socket makes them. */
module LoopEnds {
  import opened Nio
  import opened BufPool
  import opened Pipe
  import Admission

  // ---------- the receive loop ----------

  lemma {:induction false} FillTailReadsAll(chain: seq<Buf>, pool: Pool, ev: seq<RecvEvent>, cap: nat)
      returns (f: FillResult)
    requires chain != [] && Shape(chain, cap)
    ensures f == FillTail(chain, pool, ev, cap) && StoppedBy(ev, f.rest, f.ok)
    decreases |Stream(ev)|
  {
    var room := cap - |chain[|chain| - 1].data|;
    var r := Received(ev, room);
    ReceivedContract(ev, room);
    FillTailPass(chain, pool, ev, cap, r);
    hide FillTail, Received, Append, Link, Unread, StoppedBy;
    f := FillTail(chain, pool, ev, cap);
    if r.code >= 0 && r.bytes != [] {
      AppendKeeps(chain, pool, r.bytes, cap);
      var longer := Append(chain, r.bytes);
      var p := ReceivedLeaves(ev, room);
      var g: FillResult;
      if LastFull(longer, cap) {
        g := FillTailReadsAll(Link(longer, pool), Alloc(pool), r.rest, cap);
      } else {
        g := FillTailReadsAll(longer, pool, r.rest, cap);
      }
      StoppedLater(ev, r.rest, g.rest, g.ok, p);
    } else {
      StoppedHere(ev, room);
    }
  }

  /** The receive loop leaves nothing behind that could be read: it ends when the socket fails, is closed
      or has no more bytes, however many buffers that takes, and reports failure exactly in the first two
      cases. */
  lemma FillReadsAll(chain: seq<Buf>, pool: Pool, ev: seq<RecvEvent>, cap: nat)
    requires cap > 0 && Shape(chain, cap)
    ensures var f := Fill(chain, pool, ev, cap); StoppedBy(ev, f.rest, f.ok)
  {
    if chain == [] {
      LinkKeeps([], pool, cap);
      var f := FillTailReadsAll(Link([], pool), Alloc(pool), ev, cap);
    } else {
      var f := FillTailReadsAll(chain, pool, ev, cap);
    }
  }

  // ---------- the send loop ----------

  /** The answer that has ended a send loop which found something to send: an error, or EAGAIN, or no more
      answers. */
  ghost predicate HaltedBy(ev: seq<SendEvent>, rest: seq<SendEvent>, end: Admission.SendOutcome) {
    var m := |ev| - |rest|;
    && LeftAfter(ev, rest, m)
    && (end == Admission.SendError <==> m > 0 && (ev[m - 1] == SendFailed || ev[m - 1] == Takes(0)))
    && (end == Admission.SendAgain ==> rest == [] || (m > 0 && ev[m - 1] == SendWouldBlock))
  }

  lemma HaltedLater(ev: seq<SendEvent>, r: SendResult, m: nat, n: nat, rest: seq<SendEvent>, end: Admission.SendOutcome)
    requires Accounts(ev, n, r, m) && r.code >= 0 && HaltedBy(r.rest, rest, end)
    ensures HaltedBy(ev, rest, end)
  {
    var l := |r.rest| - |rest|;
    assert l > 0 ==> r.rest[l - 1] == ev[m + l - 1];
  }

  lemma HaltedHere(ev: seq<SendEvent>, r: SendResult, m: nat, n: nat)
    requires n > 0 && Accounts(ev, n, r, m) && (r.code < 0 || r.moved == 0)
    ensures HaltedBy(ev, r.rest, if r.code < 0 then Admission.SendError else Admission.SendAgain)
  {
  }

  /** Why the send loop ends: it fails exactly if the kernel does, and gives up only when the kernel takes
      nothing more for now. */
  lemma {:induction false} DrainHalts(chain: seq<Buf>, pool: Pool, ev: seq<SendEvent>, cap: nat)
      returns (d: DrainResult)
    ensures d == Drain(chain, pool, ev, cap) && HaltedBy(ev, d.rest, d.end)
    decreases |chain|, HeadLeft(chain)
  {
    d := Drain(chain, pool, ev, cap);
    if chain != [] {
      var h := chain[0];
      if h.pos < |h.data| {
        var n := |h.data| - h.pos;
        var r := Sent(ev, n);
        SentFits(ev, n);
        var m := SentContract(ev, n);
        hide Accounts, HaltedBy, Sent;
        if r.code < 0 || r.moved == 0 {
          HaltedHere(ev, r, m, n);
        } else {
          var e := DrainHalts(Advance(chain, r.moved), pool, r.rest, cap);
          HaltedLater(ev, r, m, n, e.rest, e.end);
        }
      } else if h.pos == cap {
        var e := DrainHalts(chain[1..], Free(pool, h.id), ev, cap);
      }
    }
  }
}
