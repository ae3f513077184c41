/** The callbacks that libev runs (src/xtp_access.c, src/xtp_upstream.c), as methods over the
    connections and buffers in memory.  Each is shown to do what the step of the same name does. */
module Callbacks {
  import opened Common
  import opened Admission
  import opened AdmissionInvariant
  import opened AdmissionSteps
  import Nio
  import opened Buffers
  import opened Chains
  import opened Proxy
  import opened Listeners
  import opened Transfers

  /** x_event_close finds the connection in the queue if it looks for it there. */
  ghost predicate Closable(k: Control, c: nat, outs: seq<ConnectOutcome>) {
    c in k.conns && k.conns[c].status != CONN_CLOSE && Unlinkable(Final(k, c, outs).k, c)
  }

  lemma MidClosable(k: Control, c: nat, outs: seq<ConnectOutcome>)
    requires Mid(k) && c in k.conns && k.conns[c].status != CONN_CLOSE
    ensures Closable(k, c, outs)
  {
    FinalKeeps(k, c, outs);
  }

  /** Connection c has changed and the listener has not. */
  twostate lemma PutView(ln: Listener, new c: Connection)
    requires old(allocated(c))
    requires old(ln.Valid()) && unchanged(ln) && old(ln.Live(c))
    requires forall i :: 0 <= i < |ln.all| && ln.all[i] != c ==> unchanged(ln.all[i])
    ensures ln.Valid() && ln.View() == Put(old(ln.View()), c.id, c.View())
    ensures old(ln.View()).conns[c.id] == old(c.View())
  {
    ln.OneChanged(c);
  }

  lemma EnqueuedView(k: Control, c: nat)
    requires c in k.conns && NoDangling(k)
    ensures Admission.Enqueue(k, c)
         == k.(conns := k.conns[c := k.conns[c].(status := CONN_WAITING)], queue := k.queue + [c],
               waitingNum := k.waitingNum + 1, h := k.h.(enqueued := k.h.enqueued + [c]))
  {
    assert !Dangling(k, |k.queue| - 1);
  }

  /** TAILQ_INSERT_TAIL on the waiting queue */
  method Enqueue(ln: Listener, c: Connection)
    requires ln.Valid() && ln.Live(c)
    modifies ln`cqWaiting, ln`cqWaitingNum, ln`h, c`status
    ensures ln.Valid() && ln.View() == Admission.Enqueue(old(ln.View()), c.id)
  {
    ghost var k, v := ln.View(), c.View();
    ln.QueueLive();
    EnqueuedView(k, c.id);
    hide Admission.Enqueue, NoDangling;
    assert k.conns[c.id] == v;
    ghost var was := ln.cqWaiting;
    ln.cqWaiting := ln.cqWaiting + [c];
    assert ConnIds(ln.cqWaiting) == ConnIds(was) + [c.id];
    ln.cqWaitingNum := ln.cqWaitingNum + 1;
    c.status := CONN_WAITING;
    ln.h := ln.h.(enqueued := ln.h.enqueued + [c.id]);
    ln.OneChanged(c);
  }

  /** ev_io_start(upc_e_send) */
  method SendToPeer(ln: Listener, c: Connection)
    requires ln.Valid() && ln.Live(c)
    modifies c`upcESend
    ensures ln.Valid() && ln.View() == Put(old(ln.View()), c.id, old(ln.View()).conns[c.id].(upSend := true))
  {
    c.upcESend := true;
    PutView(ln, c);
  }

  /** The state after the first bytes of a new connection have put it into the queue. */
  ghost function Queued(k: Control, c: nat, outs: seq<ConnectOutcome>): (k1: Control)
    requires c in k.conns
    ensures c in k1.conns
  {
    if k.conns[c].status == CONN_NONE then Handle(Admission.Enqueue(k, c), outs).k else k
  }

  lemma ReceivedSteps(k: Control, c: nat, outs: seq<ConnectOutcome>)
    requires c in k.conns
    ensures var k1 := Queued(k, c, outs);
            ClientReceived(k, c, true, outs)
            == if k1.conns[c].upc == CONN_WORKING then Put(k1, c, k1.conns[c].(upSend := true)) else k1
  {
  }

  method QueueNew(ln: Listener, c: Connection, outs: seq<ConnectOutcome>)
    requires ln.Valid() && ln.Live(c)
    modifies ln`cqWaiting, ln`cqWaitingNum, ln`workingNum, ln`upstreamIndex, ln`h, ln.all
    ensures ln.Valid() && ln.View() == Queued(old(ln.View()), c.id, outs) && ln.View().conns[c.id] == c.View()
  {
    hide Admission.Enqueue, Handle;
    assert c.View() == ln.View().conns[c.id];
    if c.status == CONN_NONE {
      Enqueue(ln, c);
      var rc, rest := ln.UpstreamHandle(outs);
    }
  }

  /** x_recv_cb after its receive loop */
  method AfterRecv(ln: Listener, c: Connection, ok: bool, outs: seq<ConnectOutcome>)
    requires ln.Valid() && ln.Live(c) && Closable(ln.View(), c.id, outs)
    modifies ln`cqWaiting, ln`cqWaitingNum, ln`workingNum, ln`cCount, ln`upstreamIndex, ln`h, ln.all
    ensures ln.Valid() && ln.View() == ClientReceived(old(ln.View()), c.id, ok, outs)
  {
    if !ok {
      assert c.View() == ln.View().conns[c.id];
      ln.EventClose(c, outs);
      return;
    }
    ReceivedSteps(ln.View(), c.id, outs);
    hide ClientReceived, Closable, Queued;
    QueueNew(ln, c, outs);
    if c.upcStatus == CONN_WORKING {
      SendToPeer(ln, c);
    }
  }

  /** x_send_cb after its send loop */
  method AfterSend(ln: Listener, c: Connection, end: SendOutcome, outs: seq<ConnectOutcome>)
    requires ln.Valid() && ln.Live(c) && Closable(ln.View(), c.id, outs)
    modifies ln`cqWaiting, ln`cqWaitingNum, ln`workingNum, ln`cCount, ln`upstreamIndex, ln`h, ln.all
    ensures ln.Valid() && ln.View() == ClientSent(old(ln.View()), c.id, end, outs)
    ensures end == SendDry && old(c.upcStatus) != CONN_CLOSE ==> !c.eSend
  {
    assert c.View() == ln.View().conns[c.id];
    match end
    case SendError =>
      ln.EventClose(c, outs);
    case SendAgain =>
    case SendDry =>
      if c.upcStatus == CONN_CLOSE {
        ln.EventClose(c, outs);
      } else {
        c.eSend := false;
        PutView(ln, c);
      }
  }

  /** x_upstream_connected_cb; `ok` is false when getsockopt() fails or reports an error. */
  method UpstreamConnectedCb(ln: Listener, c: Connection, ok: bool, outs: seq<ConnectOutcome>)
    requires ln.Valid() && ln.Live(c) && c.upcf.Some? && c.upcf.value < |ln.cf.upTimeouts|
    modifies ln`cqWaiting, ln`cqWaitingNum, ln`workingNum, ln`upstreamIndex, ln`h, ln.all
    ensures ln.Valid() && ln.View() == UpstreamConnected(old(ln.View()), c.id, ok, outs)
    ensures ok ==> c.upcETimer == Some(ln.now + ln.cf.upTimeouts[old(c.upcf).value] as real)
  {
    if !ok {
      var rest := ln.UpstreamFinal(c, outs);
      return;
    }
    assert c.View() == ln.View().conns[c.id];
    c.Connected(ln.now, ln.cf.upTimeouts[c.upcf.value] as real);
    PutView(ln, c);
  }

  /** x_upstream_recv_cb after its receive loop */
  method AfterUpstreamRecv(ln: Listener, c: Connection, ok: bool, outs: seq<ConnectOutcome>)
    requires ln.Valid() && ln.Live(c)
    modifies ln`cqWaiting, ln`cqWaitingNum, ln`workingNum, ln`upstreamIndex, ln`h, ln.all
    ensures ln.Valid() && ln.View() == UpstreamReceived(old(ln.View()), c.id, ok, outs)
    ensures ok ==> c.eSend && c.upcETimer == old(c.upcETimer)
  {
    if !ok {
      var rest := ln.UpstreamFinal(c, outs);
      return;
    }
    c.eSend := true;
    PutView(ln, c);
  }

  /** x_upstream_send_cb after its send loop */
  method AfterUpstreamSend(ln: Listener, c: Connection, end: SendOutcome, outs: seq<ConnectOutcome>)
    requires ln.Valid() && ln.Live(c)
    modifies ln`cqWaiting, ln`cqWaitingNum, ln`workingNum, ln`upstreamIndex, ln`h, ln.all
    ensures ln.Valid() && ln.View() == UpstreamSent(old(ln.View()), c.id, end, outs)
  {
    if end == SendError {
      var rest := ln.UpstreamFinal(c, outs);
      return;
    }
    c.upcESend := false;
    PutView(ln, c);
  }

  /** x_upstream_timeout_cb */
  method UpstreamTimeoutCb(ln: Listener, c: Connection, outs: seq<ConnectOutcome>)
    requires ln.Valid() && ln.Live(c)
    modifies ln`cqWaiting, ln`cqWaitingNum, ln`workingNum, ln`upstreamIndex, ln`h, ln.all
    ensures ln.Valid() && ln.View() == UpstreamTimeout(old(ln.View()), c.id, outs)
  {
    assert c.View() == ln.View().conns[c.id];
    MarkUpstream(ln, c);
    var rest := ln.UpstreamFinal(c, outs);
    StopUpstreamTimer(ln, c);
  }

  method MarkUpstream(ln: Listener, c: Connection)
    requires ln.Valid() && ln.Live(c)
    modifies c`upcStatus
    ensures ln.Valid()
    ensures var k := old(ln.View());
            ln.View() == if old(c.upcStatus) != CONN_CLOSE then Put(k, c.id, k.conns[c.id].(upc := CONN_TIMEOUT)) else k
    ensures old(c.View()) == old(ln.View()).conns[c.id]
  {
    assert c.View() == ln.View().conns[c.id];
    if c.upcStatus != CONN_CLOSE {
      c.upcStatus := CONN_TIMEOUT;
      PutView(ln, c);
    }
  }

  method StopUpstreamTimer(ln: Listener, c: Connection)
    requires ln.Valid() && ln.Live(c)
    modifies c`upcETimer
    ensures ln.Valid() && ln.View() == Put(old(ln.View()), c.id, old(ln.View()).conns[c.id].(upTimer := None))
  {
    c.upcETimer := None;
    PutView(ln, c);
  }

  // ---------- whole callbacks ----------

  ghost predicate Intact(ln: Listener)
    reads *
  {
    ln.Valid() && ln.Stores()
  }

  // Each reaction that follows leaves the bytes and the buffers alone.

  method RecvApart(ln: Listener, c: Connection, ok: bool, outs: seq<ConnectOutcome>)
    requires Intact(ln) && ln.Live(c) && Closable(ln.View(), c.id, outs)
    modifies ln`cqWaiting, ln`cqWaitingNum, ln`workingNum, ln`cCount, ln`upstreamIndex, ln`h, ln.all
    ensures Footprint(ln) <= old(Footprint(ln)) && ln.all == old(ln.all)
    ensures Intact(ln) && ln.View() == ClientReceived(old(ln.View()), c.id, ok, outs)
    ensures ln.DataView() == old(ln.DataView())
  {
    ghost var f := FootprintOff(ln);
    AfterRecv(ln, c, ok, outs);
    DataSame(ln, f);
  }

  method SendApart(ln: Listener, c: Connection, end: SendOutcome, outs: seq<ConnectOutcome>)
    requires Intact(ln) && ln.Live(c) && Closable(ln.View(), c.id, outs)
    modifies ln`cqWaiting, ln`cqWaitingNum, ln`workingNum, ln`cCount, ln`upstreamIndex, ln`h, ln.all
    ensures Footprint(ln) <= old(Footprint(ln)) && ln.all == old(ln.all)
    ensures Intact(ln) && ln.View() == ClientSent(old(ln.View()), c.id, end, outs)
    ensures end == SendDry && old(c.upcStatus) != CONN_CLOSE ==> !c.eSend
    ensures ln.DataView() == old(ln.DataView())
  {
    ghost var f := FootprintOff(ln);
    AfterSend(ln, c, end, outs);
    DataSame(ln, f);
  }

  method ConnectedApart(ln: Listener, c: Connection, ok: bool, outs: seq<ConnectOutcome>)
    requires Intact(ln) && ln.Live(c) && c.upcf.Some? && c.upcf.value < |ln.cf.upTimeouts|
    modifies ln`cqWaiting, ln`cqWaitingNum, ln`workingNum, ln`upstreamIndex, ln`h, ln.all
    ensures Footprint(ln) <= old(Footprint(ln)) && ln.all == old(ln.all)
    ensures Intact(ln) && ln.View() == UpstreamConnected(old(ln.View()), c.id, ok, outs)
    ensures ln.DataView() == old(ln.DataView())
  {
    ghost var f := FootprintOff(ln);
    UpstreamConnectedCb(ln, c, ok, outs);
    DataSame(ln, f);
  }

  method UpstreamRecvApart(ln: Listener, c: Connection, ok: bool, outs: seq<ConnectOutcome>)
    requires Intact(ln) && ln.Live(c)
    modifies ln`cqWaiting, ln`cqWaitingNum, ln`workingNum, ln`upstreamIndex, ln`h, ln.all
    ensures Footprint(ln) <= old(Footprint(ln)) && ln.all == old(ln.all)
    ensures Intact(ln) && ln.View() == UpstreamReceived(old(ln.View()), c.id, ok, outs)
    ensures ok ==> c.eSend && c.upcETimer == old(c.upcETimer)
    ensures ln.DataView() == old(ln.DataView())
  {
    ghost var f := FootprintOff(ln);
    AfterUpstreamRecv(ln, c, ok, outs);
    DataSame(ln, f);
  }

  method UpstreamSendApart(ln: Listener, c: Connection, end: SendOutcome, outs: seq<ConnectOutcome>)
    requires Intact(ln) && ln.Live(c)
    modifies ln`cqWaiting, ln`cqWaitingNum, ln`workingNum, ln`upstreamIndex, ln`h, ln.all
    ensures Footprint(ln) <= old(Footprint(ln)) && ln.all == old(ln.all)
    ensures Intact(ln) && ln.View() == UpstreamSent(old(ln.View()), c.id, end, outs)
    ensures ln.DataView() == old(ln.DataView())
  {
    ghost var f := FootprintOff(ln);
    AfterUpstreamSend(ln, c, end, outs);
    DataSame(ln, f);
  }

  method UpstreamTimeoutApart(ln: Listener, c: Connection, outs: seq<ConnectOutcome>)
    requires Intact(ln) && ln.Live(c)
    modifies ln`cqWaiting, ln`cqWaitingNum, ln`workingNum, ln`upstreamIndex, ln`h, ln.all
    ensures Footprint(ln) <= old(Footprint(ln)) && ln.all == old(ln.all)
    ensures Intact(ln) && ln.View() == UpstreamTimeout(old(ln.View()), c.id, outs)
    ensures ln.DataView() == old(ln.DataView())
  {
    ghost var f := FootprintOff(ln);
    UpstreamTimeoutCb(ln, c, outs);
    DataSame(ln, f);
  }

  /** x_recv_cb */
  method RecvCb(ln: Listener, c: Connection, s: Nio.Socket, outs: seq<ConnectOutcome>) returns (ok: bool)
    requires Intact(ln) && ln.Live(c) && Closable(ln.View(), c.id, outs)
    modifies c.pipe1, Region(c.pipe1.bufs)
    modifies ln.pool, Region(ln.pool.free), s`incoming
    modifies ln`cqWaiting, ln`cqWaitingNum, ln`workingNum, ln`cCount, ln`upstreamIndex, ln`h, ln.all
    ensures Grown(ln)
    ensures Intact(ln)
    ensures SignalOf(old(ln.DataView()), Receiving(c.id, old(s.incoming))) == ClientReadable(c.id, ok)
    ensures ln.View() == ClientReceived(old(ln.View()), c.id, ok, outs)
    ensures ln.DataView() == Transfer(old(ln.View()), old(ln.DataView()), Receiving(c.id, old(s.incoming)))
  {
    hide ClientReceived, Closable, Transfer, SignalOf;
    ok := FillSide(ln, Up(c.id), c.pipe1, s);
    RecvApart(ln, c, ok, outs);
  }

  /** x_send_cb */
  method SendCb(ln: Listener, c: Connection, s: Nio.Socket, outs: seq<ConnectOutcome>) returns (end: SendOutcome)
    requires Intact(ln) && ln.Live(c) && Closable(ln.View(), c.id, outs)
    modifies c.pipe2, c.pipe2.bufs, ln.pool, s`outgoing, s`wire
    modifies ln`cqWaiting, ln`cqWaitingNum, ln`workingNum, ln`cCount, ln`upstreamIndex, ln`h, ln.all
    ensures Grown(ln)
    ensures Intact(ln)
    ensures SignalOf(old(ln.DataView()), Sending(c.id, old(s.outgoing))) == ClientWritable(c.id, end)
    ensures ln.View() == ClientSent(old(ln.View()), c.id, end, outs)
    ensures end == SendDry && old(c.upcStatus) != CONN_CLOSE ==> !c.eSend
    ensures ln.DataView() == Transfer(old(ln.View()), old(ln.DataView()), Sending(c.id, old(s.outgoing)))
  {
    hide ClientSent, Closable, Transfer, SignalOf;
    end := DrainSide(ln, Down(c.id), c.pipe2, s);
    SendApart(ln, c, end, outs);
  }

  /** x_upstream_recv_cb */
  method UpstreamRecvCb(ln: Listener, c: Connection, s: Nio.Socket, outs: seq<ConnectOutcome>) returns (ok: bool)
    requires Intact(ln) && ln.Live(c)
    modifies c.pipe2, Region(c.pipe2.bufs)
    modifies ln.pool, Region(ln.pool.free), s`incoming
    modifies ln`cqWaiting, ln`cqWaitingNum, ln`workingNum, ln`upstreamIndex, ln`h, ln.all
    ensures Grown(ln)
    ensures Intact(ln)
    ensures SignalOf(old(ln.DataView()), PeerReceiving(c.id, old(s.incoming))) == PeerReadable(c.id, ok)
    ensures ln.View() == UpstreamReceived(old(ln.View()), c.id, ok, outs)
    ensures ok ==> c.eSend && c.upcETimer == old(c.upcETimer)
    ensures ln.DataView() == Transfer(old(ln.View()), old(ln.DataView()), PeerReceiving(c.id, old(s.incoming)))
  {
    ok := FillSide(ln, Down(c.id), c.pipe2, s);
    UpstreamRecvApart(ln, c, ok, outs);
  }

  /** x_upstream_send_cb */
  method UpstreamSendCb(ln: Listener, c: Connection, s: Nio.Socket, outs: seq<ConnectOutcome>)
      returns (end: SendOutcome)
    requires Intact(ln) && ln.Live(c)
    modifies c.pipe1, c.pipe1.bufs, ln.pool, s`outgoing, s`wire
    modifies ln`cqWaiting, ln`cqWaitingNum, ln`workingNum, ln`upstreamIndex, ln`h, ln.all
    ensures Grown(ln)
    ensures Intact(ln)
    ensures SignalOf(old(ln.DataView()), PeerSending(c.id, old(s.outgoing))) == PeerWritable(c.id, end)
    ensures ln.View() == UpstreamSent(old(ln.View()), c.id, end, outs)
    ensures ln.DataView() == Transfer(old(ln.View()), old(ln.DataView()), PeerSending(c.id, old(s.outgoing)))
  {
    end := DrainSide(ln, Up(c.id), c.pipe1, s);
    UpstreamSendApart(ln, c, end, outs);
  }

  method SetClock(ln: Listener, t: real)
    requires ln.Valid()
    modifies ln`now
    ensures ln.Valid() && ln.View() == old(ln.View()).(now := t)
  {
    ghost var m := ln.Conns();
    ln.now := t;
    forall i | i in ln.live ensures i in ln.Conns() && ln.Conns()[i] == m[i] {
      assert unchanged(ln.all[i]);
    }
    assert ln.Conns() == m;
  }

  /** The loop brings its clock up to date. */
  method PassTime(ln: Listener, t: real)
    requires Intact(ln)
    modifies ln`now
    ensures Footprint(ln) <= old(Footprint(ln)) && ln.all == old(ln.all)
    ensures Intact(ln) && ln.View() == old(ln.View()).(now := t) && ln.DataView() == old(ln.DataView())
  {
    ghost var f := FootprintOff(ln);
    SetClock(ln, t);
    DataSame(ln, f);
  }

  // ---------- the end of a connection ----------

  /** What x_timeout_cb makes of the state before it closes the connection. */
  ghost function Marked(k: Control, c: nat): Control
    requires c in k.conns
  {
    if k.conns[c].status != CONN_CLOSE then Put(k, c, k.conns[c].(status := CONN_TIMEOUT)) else k
  }

  /** x_event_close finds the connection in the queue if it looks for it there. */
  ghost predicate Expirable(k: Control, c: nat, outs: seq<ConnectOutcome>) {
    c in k.conns && (k.conns[c].status != CONN_CLOSE ==> Unlinkable(Final(Marked(k, c), c, outs).k, c))
  }

  lemma InvExpirable(k: Control, c: nat, outs: seq<ConnectOutcome>)
    requires Inv(k) && c in k.conns
    ensures Expirable(k, c, outs)
  {
    if k.conns[c].status == CONN_WAITING {
      assert ConnOk(k.cf, k.now, k.conns[c]);
    } else if k.conns[c].status != CONN_CLOSE {
      PutKeeps(k, c, k.conns[c].(status := CONN_TIMEOUT));
      FinalKeeps(Marked(k, c), c, outs);
    }
  }

  /** The first assignment of x_timeout_cb */
  method MarkClient(ln: Listener, c: Connection)
    requires ln.Valid() && ln.Live(c)
    modifies c`status
    ensures ln.Valid()
    ensures ln.View() == Marked(old(ln.View()), c.id)
    ensures c.View() == ln.View().conns[c.id]
  {
    assert c.View() == ln.View().conns[c.id];
    if c.status != CONN_CLOSE {
      c.status := CONN_TIMEOUT;
      PutView(ln, c);
    }
  }

  method StopTimer(ln: Listener, c: Connection)
    requires ln.Valid() && ln.Live(c)
    modifies c`eTimer
    ensures ln.Valid() && ln.View() == Put(old(ln.View()), c.id, old(ln.View()).conns[c.id].(eTimer := None))
  {
    c.eTimer := None;
    PutView(ln, c);
  }

  lemma ReleasePut(k: Control, c: nat, v: Conn)
    requires c in k.conns && v.born == k.conns[c].born
    ensures Release(Put(k, c, v), c) == Release(k, c)
  {
    assert k.conns[c := v] - {c} == k.conns - {c};
  }

  lemma ExpirySteps(k: Control, c: nat, outs: seq<ConnectOutcome>)
    requires c in k.conns
    ensures c in Marked(k, c).conns && c in EventClose(Marked(k, c), c, outs).conns
    ensures Release(EventClose(Marked(k, c), c, outs), c) == AccessTimeout(k, c, outs)
    ensures Marked(k, c).conns[c].status == CONN_CLOSE <==> k.conns[c].status == CONN_CLOSE
  {
  }

  method MarkAndClose(ln: Listener, c: Connection, outs: seq<ConnectOutcome>)
    requires ln.Valid() && ln.Live(c) && Expirable(ln.View(), c.id, outs)
    modifies ln`cqWaiting, ln`cqWaitingNum, ln`workingNum, ln`cCount, ln`upstreamIndex, ln`h, ln.all
    ensures ln.Valid() && ln.Live(c) && Release(ln.View(), c.id) == AccessTimeout(old(ln.View()), c.id, outs)
  {
    hide EventClose, Final, Marked;
    ExpirySteps(ln.View(), c.id, outs);
    MarkClient(ln, c);
    ln.EventClose(c, outs);
  }

  method CloseExpired(ln: Listener, c: Connection, outs: seq<ConnectOutcome>)
    requires ln.Valid() && ln.Live(c) && Expirable(ln.View(), c.id, outs)
    modifies ln`cqWaiting, ln`cqWaitingNum, ln`workingNum, ln`cCount, ln`upstreamIndex, ln`h, ln.all
    ensures ln.Valid() && ln.Live(c) && Release(ln.View(), c.id) == AccessTimeout(old(ln.View()), c.id, outs)
  {
    ghost var r := AccessTimeout(ln.View(), c.id, outs);
    MarkAndClose(ln, c, outs);
    StopClock(ln, c, r);
  }

  /** x_timeout_cb up to its loops */
  method Expire(ln: Listener, c: Connection, outs: seq<ConnectOutcome>)
    requires Intact(ln) && ln.Live(c) && Expirable(ln.View(), c.id, outs)
    modifies ln`cqWaiting, ln`cqWaitingNum, ln`workingNum, ln`cCount, ln`upstreamIndex, ln`h, ln.all
    ensures Footprint(ln) <= old(Footprint(ln)) && ln.all == old(ln.all)
    ensures Intact(ln) && ln.Live(c) && Release(ln.View(), c.id) == AccessTimeout(old(ln.View()), c.id, outs)
    ensures ln.DataView() == old(ln.DataView())
  {
    ghost var f := FootprintOff(ln);
    CloseExpired(ln, c, outs);
    DataSame(ln, f);
  }

  method StopClock(ln: Listener, c: Connection, ghost r: Control)
    requires ln.Valid() && ln.Live(c) && Release(ln.View(), c.id) == r
    modifies c`eTimer
    ensures ln.Valid() && Release(ln.View(), c.id) == r
  {
    ghost var e := ln.View();
    StopTimer(ln, c);
    ReleasePut(e, c.id, e.conns[c.id].(eTimer := None));
  }

  /** What freeing c leaves of the validity of the queue. */
  twostate lemma QueueFreed(ln: Listener, new c: Connection)
    requires old(allocated(c)) && old(ln.Valid()) && old(ln.Live(c))
    requires unchanged(ln`all) && unchanged(ln`cqWaiting) && ln.live == old(ln.live) - {c.id}
    ensures ln.Valid() <==> c.id !in ConnIds(ln.cqWaiting)
  {
    var ids := ConnIds(ln.cqWaiting);
    if c.id in ids {
      var i :| 0 <= i < |ids| && ids[i] == c.id;
      assert ln.cqWaiting[i] in ln.cqWaiting && !ln.Live(ln.cqWaiting[i]);
    } else {
      forall x | x in ln.cqWaiting ensures ln.Live(x) {
        var i :| 0 <= i < |ln.cqWaiting| && ln.cqWaiting[i] == x;
        assert ids[i] == x.id && old(ln.Live(x));
      }
    }
  }

  /** zfree(pconn).  The listener stays sound exactly if the connection is not in the queue any more. */
  method FreeConnection(ln: Listener, c: Connection)
    requires ln.Valid() && ln.Live(c)
    modifies ln`live, ln`h
    ensures ln.View() == Release(old(ln.View()), c.id)
    ensures ln.Valid() <==> c.id !in ln.View().queue
    ensures ln.live == old(ln.live) - {c.id}
  {
    assert c.View() == ln.View().conns[c.id];
    ln.h := ln.h.(freed := ln.h.freed + [Gone(c.id, c.born, ln.now)]);
    ln.live := ln.live - {c.id};
    assert ln.Conns() == old(ln.Conns()) - {c.id};
    QueueFreed(ln, c);
  }

  /** zfree(pconn), with the buffers in view */
  method Forget(ln: Listener, c: Connection)
    requires Intact(ln) && ln.Live(c)
    modifies ln`live, ln`h
    ensures Footprint(ln) <= old(Footprint(ln)) && ln.all == old(ln.all)
    ensures ln.Stores() && ln.View() == Release(old(ln.View()), c.id)
    ensures ln.Valid() <==> c.id !in ln.View().queue
    ensures ln.DataView() == old(ln.DataView()).(flows := old(ln.FlowMap()) - {c.id})
  {
    hide Release;
    ghost var f := FootprintOff(ln);
    FreeConnection(ln, c);
    DataFewer(ln, f);
    assert old(ln.live) - ln.live == {c.id};
  }

  lemma ExpiredData(k: Control, d: Data, c: nat, d1: RawData, d2: RawData)
    requires c in d.flows && d1 == Released(d, Up(c)) && d2 == Released(d1, Down(c))
    ensures d2.(flows := d2.flows - {c}) == Transfer(k, d, Expiring(c))
  {
    assert d2.flows - {c} == d.flows - {c};
  }

  /** The loops of x_timeout_cb */
  method ReleaseBuffers(ln: Listener, c: Connection)
    requires Intact(ln) && ln.Live(c)
    modifies c.pipe1, c.pipe1.bufs, c.pipe2, c.pipe2.bufs, ln.pool
    ensures Grown(ln)
    ensures Intact(ln) && ln.View() == old(ln.View())
    ensures ln.DataView() == Released(Released(old(ln.DataView()), Up(c.id)), Down(c.id))
  {
    hide Released;
    assert ln.LiveSide(Up(c.id)) && ln.LiveSide(Down(c.id));
    assert ln.ChainAt(Up(c.id)) == c.pipe1 && ln.ChainAt(Down(c.id)) == c.pipe2 && c.pipe1 != c.pipe2;
    ghost var other: object := c.pipe2;
    assert forall b :: b in c.pipe1.bufs ==> b as object != other;
    ReleaseSide(ln, Up(c.id), c.pipe1);
    assert unchanged(c.pipe2);
    ReleaseSide(ln, Down(c.id), c.pipe2);
  }

  /** The loops of x_timeout_cb, and what follows them */
  method FreeBuffers(ln: Listener, c: Connection, ghost k: Control)
    requires Intact(ln) && ln.Live(c)
    modifies c.pipe1, c.pipe1.bufs, c.pipe2, c.pipe2.bufs, ln.pool, ln`live, ln`h
    ensures Grown(ln)
    ensures ln.Stores() && ln.View() == Release(old(ln.View()), c.id)
    ensures ln.Valid() <==> c.id !in ln.View().queue
    ensures ln.DataView() == Transfer(k, old(ln.DataView()), Expiring(c.id))
  {
    ghost var d := ln.DataView();
    ReleaseBuffers(ln, c);
    ExpiredData(k, d, c.id, Released(d, Up(c.id)), ln.DataView());
    Forget(ln, c);
  }

  /** x_timeout_cb.  The memory represents the state of the model in every case; the listener stays
      sound exactly if the connection is not in the queue, which a waiting one still is. */
  method TimeoutCb(ln: Listener, c: Connection, outs: seq<ConnectOutcome>)
    requires Intact(ln) && ln.Live(c) && Expirable(ln.View(), c.id, outs)
    modifies ln`cqWaiting, ln`cqWaitingNum, ln`workingNum, ln`cCount, ln`upstreamIndex, ln`h, ln`live, ln.all
    modifies c.pipe1, c.pipe1.bufs, c.pipe2, c.pipe2.bufs, ln.pool
    ensures Grown(ln)
    ensures ln.Stores() && ln.View() == AccessTimeout(old(ln.View()), c.id, outs)
    ensures Intact(ln) <==> c.id !in ln.View().queue
    ensures ln.DataView() == Transfer(old(ln.View()), old(ln.DataView()), Expiring(c.id))
  {
    ghost var k := ln.View();
    Expire(ln, c, outs);
    FreeBuffers(ln, c, k);
  }

  // ---------- the beginning ----------

  /** Connection c has joined. */
  twostate lemma ConnJoined(ln: Listener, new c: Connection)
    requires old(ln.Valid()) && c.id == |old(ln.all)| && ln.all == old(ln.all) + [c]
    requires ln.live == old(ln.live) + {|old(ln.all)|} && unchanged(ln`cqWaiting)
    requires forall i :: 0 <= i < |old(ln.all)| ==> unchanged(old(ln.all)[i])
    ensures ln.Valid() && ln.Conns() == old(ln.Conns())[|old(ln.all)| := c.View()]
  {
    var n, m := |old(ln.all)|, old(ln.Conns());
    assert ln.all[n] == c && forall i :: 0 <= i < n ==> ln.all[i] == old(ln.all)[i];
    forall x | x in ln.cqWaiting ensures ln.Live(x) {
      assert old(ln.Live(x));
    }
    forall i | i in m && i != n ensures ln.Conns()[i] == m[i] {
      assert unchanged(old(ln.all)[i]);
    }
    assert ln.Conns().Keys == m.Keys + {n};
    PutAt(m, ln.Conns(), n, c.View());
  }

  lemma AcceptView(k: Control, m: map<nat, Conn>)
    requires k.cCount < k.cf.accessMax && m == k.conns[k.accepted := NewConn(k)]
    ensures Accept(k) == k.(conns := m, accepted := k.accepted + 1, cCount := k.cCount + 1,
                            h := k.h.(accepts := k.h.accepts + [k.now]))
  {
  }

  /** The part of x_accept_cb that makes the connection */
  method Register(ln: Listener) returns (c: Connection)
    requires ln.Valid() && ln.cCount < ln.cf.accessMax
    modifies ln`all, ln`live, ln`cCount, ln`h
    ensures ln.Valid() && ln.View() == Accept(old(ln.View()))
    ensures fresh(c) && ln.all == old(ln.all) + [c] && ln.live == old(ln.live) + {old(|ln.all|)}
    ensures fresh(c.pipe1) && fresh(c.pipe2) && c.pipe1 != c.pipe2
    ensures c.pipe1.bufs == c.pipe2.bufs == [] && c.FlowsView() == Flows(NO_FLOW, NO_FLOW)
  {
    hide Accept;
    c := new Connection(|ln.all|, ln.now, ln.cf.accessTimeout);
    Join(ln, c);
  }

  /** The new connection is counted and linked to the loop. */
  method Join(ln: Listener, c: Connection)
    requires ln.Valid() && ln.cCount < ln.cf.accessMax
    requires c.id == |ln.all| && c.View() == NewConn(ln.View())
    modifies ln`all, ln`live, ln`cCount, ln`h
    ensures ln.Valid() && ln.View() == Accept(old(ln.View()))
    ensures ln.all == old(ln.all) + [c] && ln.live == old(ln.live) + {old(|ln.all|)}
  {
    hide Accept;
    ghost var k := ln.View();
    ln.all := ln.all + [c];
    ln.live := ln.live + {c.id};
    ln.cCount := ln.cCount + 1;
    ln.h := ln.h.(accepts := ln.h.accepts + [ln.now]);
    ConnJoined(ln, c);
    AcceptView(k, ln.Conns());
  }

  method RegisterApart(ln: Listener)
    requires Intact(ln) && ln.cCount < ln.cf.accessMax
    modifies ln`all, ln`live, ln`cCount, ln`h
    ensures Grown(ln)
    ensures Intact(ln) && ln.View() == Accept(old(ln.View()))
    ensures var d := old(ln.DataView());
            ln.DataView() == d.(flows := d.flows[old(|ln.all|) := Flows(NO_FLOW, NO_FLOW)])
  {
    hide Accept;
    ghost var f := FootprintOff(ln);
    var c := Register(ln);
    forall o | o in f ensures unchanged(o) {
      assert o != ln;
    }
    Joined(ln, c, f);
  }

  /** x_accept_cb: accept() has returned; whether it has failed makes no difference. */
  method AcceptCb(ln: Listener)
    requires Intact(ln)
    modifies ln`all, ln`live, ln`cCount, ln`h
    ensures Grown(ln)
    ensures Intact(ln) && ln.View() == Accept(old(ln.View()))
    ensures ln.DataView() == Transfer(old(ln.View()), old(ln.DataView()), Accepting)
  {
    hide Footprint;
    if ln.cCount >= ln.cf.accessMax {
      return;
    }
    RegisterApart(ln);
  }
}
