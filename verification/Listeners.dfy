/** The connections and the listener as they lie in memory (src/xtp_upstream.c, src/xtp_access.c):
    the functions of the control state as methods that update fields. */
module Listeners {
  import opened Common
  import opened Admission
  import opened AdmissionInvariant
  import opened Buffers
  import opened Chains
  import opened Proxy

  /** xtp_conn_s */
  class Connection {
    ghost const id: nat
    ghost const born: real
    var status: Phase
    var upcStatus: Phase
    var eRecv: bool
    var eSend: bool
    var eTimer: Option<real>
    var upcERecv: bool
    var upcESend: bool
    var upcEConnected: bool
    var upcETimer: Option<real>
    var upcf: Option<nat>
    const pipe1: Chain
    const pipe2: Chain

    /** The part of x_accept_cb that fills in a new connection. */
    constructor (ghost id: nat, now: real, timeout: int)
      ensures this.id == id
      ensures View() == Conn(CONN_NONE, CONN_NONE, true, false, Some(now + timeout as real),
                             false, false, false, None, None, now)
      ensures fresh(pipe1) && fresh(pipe2) && pipe1 != pipe2
      ensures pipe1.bufs == pipe2.bufs == [] && FlowsView() == Flows(NO_FLOW, NO_FLOW)
    {
      pipe1 := new Chain();
      pipe2 := new Chain();
      this.id, born := id, now;
      status, upcStatus := CONN_NONE, CONN_NONE;
      eRecv, eSend, eTimer := true, false, Some(now + timeout as real);
      upcERecv, upcESend, upcEConnected, upcETimer := false, false, false, None;
      upcf := None;
    }

    ghost function View(): Conn
      reads this
    {
      Conn(status, upcStatus, eRecv, eSend, eTimer, upcERecv, upcESend, upcEConnected, upcETimer, upcf, born)
    }

    /** The part of x_upstream_final that concerns the connection only */
    method Shut()
      modifies this
      ensures View() == Admission.Shut(old(View()))
    {
      upcERecv := false;
      upcESend := false;
      upcEConnected := false;
      upcETimer := None;
      upcStatus := CONN_CLOSE;
      if status != CONN_CLOSE {
        eSend := true;
      }
    }

    /** The part of x_upstream_connected_cb that concerns the connection only */
    method Connected(now: real, timeout: real)
      modifies this
      ensures View() == old(View()).(upConnected := false, upSend := true, upTimer := TimerAgain(now, timeout),
                                     upc := CONN_WORKING)
    {
      upcEConnected := false;
      upcESend := true;
      upcETimer := TimerAgain(now, timeout);
      upcStatus := CONN_WORKING;
    }

    ghost function FlowsView(): Flows
      reads *
    {
      Flows(pipe1.FlowView(), pipe2.FlowView())
    }
  }

  /** One direction of the connection with number i. */
  datatype Side = Up(i: nat) | Down(i: nat)

  ghost function ConnIds(s: seq<Connection>): (ids: seq<nat>)
    ensures |ids| == |s|
    ensures forall i :: 0 <= i < |s| ==> ids[i] == s[i].id
  {
    seq(|s|, i requires 0 <= i < |s| => s[i].id)
  }

  /** The first place of c, as the links of the queue lead to it. */
  function PlaceOf(s: seq<Connection>, c: Connection): (i: nat)
    ensures i <= |s| && (c in s <==> i < |s|) && (i < |s| ==> s[i] == c)
  {
    if s == [] || s[0] == c then 0 else 1 + PlaceOf(s[1..], c)
  }

  lemma {:induction false} PlaceIsPosition(s: seq<Connection>, c: Connection)
    requires forall x :: x in s && x.id == c.id ==> x == c
    ensures PlaceOf(s, c) == Position(ConnIds(s), c.id)
    ensures c in s <==> c.id in ConnIds(s)
  {
    if s != [] {
      var t := s[1..];
      assert s[0] in s && s == [s[0]] + t && ConnIds(s) == [s[0].id] + ConnIds(t);
      assert ConnIds(s)[1..] == ConnIds(t);
      PlaceIsPosition(t, c);
    }
  }

  /** A waiting connection can be taken out of the queue. */
  ghost predicate Unlinkable(k: Control, c: nat) {
    c in k.conns && k.conns[c].status == CONN_WAITING ==> c in k.queue
  }

  /** xtp_conn_listen_s with the parts of xtp_srvconf_s that it uses and the clock of its loop.
      `all` holds every connection ever accepted, which is where the watchers of libev point; `live`
      says which of them are unfreed. */
  class Listener {
    const cf: Conf
    const pool: BufferPool
    var cqWaiting: seq<Connection>
    var cqWaitingNum: int
    var workingNum: int
    var cCount: int
    var upstreamIndex: nat
    var now: real
    var all: seq<Connection>
    ghost var live: set<nat>
    ghost var h: History

    ghost predicate Valid()
      reads this, all
    {
      && (forall i :: 0 <= i < |all| ==> all[i].id == i)
      && (forall i :: i in live ==> i < |all|)
      && (forall c :: c in cqWaiting ==> Live(c))
    }

    ghost predicate Live(c: Connection)
      reads this
    {
      c.id in live && c.id < |all| && all[c.id] == c
    }

    ghost function Conns(): map<nat, Conn>
      reads this, all
    {
      map i | i in live && i < |all| :: all[i].View()
    }

    ghost function View(): Control
      reads this, all
    {
      Control(cf, Conns(), ConnIds(cqWaiting), cqWaitingNum, workingNum, cCount, upstreamIndex, now, |all|, false, h)
    }

    /** x_access_in, up to the start of the event loop */
    constructor (cf: Conf, cap: nat)
      requires cap > 0
      ensures Valid() && Stores() && all == [] && live == {}
      ensures State(View(), DataView()) == Start(cf, cap)
      ensures fresh(pool) && forall b :: b in pool.free ==> fresh(b) && fresh(b.mem)
    {
      this.cf := cf;
      pool := new BufferPool(1, cap);
      cqWaiting, cqWaitingNum, workingNum, cCount, upstreamIndex, now := [], 0, 0, 0, 0, 0.0;
      all, live, h := [], {}, History(0, [], [], [], {}, [], []);
      new;
      assert Conns() == map[];
      assert FlowMap() == map[];
    }

    // ---------- the buffers ----------

    ghost predicate LiveSide(p: Side)
      reads this
    {
      p.i in live && p.i < |all|
    }

    ghost function ChainAt(p: Side): Chain
      requires p.i < |all|
      reads this
    {
      if p.Up? then all[p.i].pipe1 else all[p.i].pipe2
    }

    /** Chains and buffers of different directions are different, and none is in the pool. */
    ghost predicate Stores()
      reads *
    {
      && pool.Valid() && pool.cap > 0
      && (forall p :: LiveSide(p) ==> ChainAt(p).Valid(pool))
      && (forall p, q :: LiveSide(p) && LiveSide(q) && p != q ==>
            ChainAt(p) != ChainAt(q) && Apart(ChainAt(p).bufs, ChainAt(q).bufs))
    }

    ghost function FlowMap(): map<nat, Flows>
      reads *
    {
      map i | i in live && i < |all| :: all[i].FlowsView()
    }

    ghost function DataView(): RawData
      reads *
    {
      RawData(pool.cap, pool.View(), FlowMap())
    }

    /** A chain that an operation on another chain and the pool has left alone. */
    twostate lemma Untouched(new y: Chain, new x: Chain)
      requires old(allocated(y)) && old(allocated(x))
      requires old(y.Valid(pool)) && old(x.Valid(pool)) && old(Apart(y.bufs, x.bufs)) && unchanged(y)
      requires pool.Valid() && FromBoth(old(x.bufs), old(pool.free), x.bufs, pool.free)
      requires forall i :: 0 <= i < |y.bufs| ==> unchanged(y.bufs[i]) && unchanged(y.bufs[i].mem)
      ensures y.Valid(pool) && y.FlowView() == old(y.FlowView()) && Apart(y.bufs, x.bufs)
    {
      SeparateSplit(y.bufs, old(pool.free));
      PartSame(y.bufs, pool.cap);
      SeparateJoin(y.bufs, pool.free);
    }

    /** Only connection c has changed. */
    twostate lemma OneChanged(new c: Connection)
      requires old(allocated(c))
      requires old(Valid()) && all == old(all) && live == old(live) && old(Live(c))
      requires forall i :: 0 <= i < |all| && all[i] != c ==> unchanged(all[i])
      ensures Conns() == old(Conns())[c.id := c.View()]
    {
      var m := old(Conns());
      forall i | i in m && i != c.id ensures Conns()[i] == m[i] {
        assert unchanged(all[i]);
      }
      assert Conns().Keys == m.Keys + {c.id};
      hide *;
      PutAt(m, Conns(), c.id, c.View());
    }

    /** No connection has changed. */
    twostate lemma NoneChanged()
      requires old(Valid()) && all == old(all) && live == old(live)
      requires forall i :: 0 <= i < |all| ==> unchanged(all[i])
      ensures Conns() == old(Conns())
    {
      forall i | i in live ensures i in Conns() && Conns()[i] == old(Conns())[i] {
        assert unchanged(all[i]);
      }
    }

    /** x_upstream_choose_peer */
    method ChoosePeer() returns (peer: nat)
      modifies this`upstreamIndex, this`h
      ensures peer == NextPeer(old(View())) && upstreamIndex == peer + 1
      ensures h == old(h).(picks := old(h).picks + [peer])
    {
      ModIsRemainder(upstreamIndex, |cf.upTimeouts|);
      upstreamIndex := upstreamIndex % |cf.upTimeouts|;
      peer := upstreamIndex;
      upstreamIndex := upstreamIndex + 1;
      h := h.(picks := h.picks + [peer]);
    }

    /** x_upstream_connection_new */
    method ConnectionNew(c: Connection, outs: seq<ConnectOutcome>) returns (rc: int, rest: seq<ConnectOutcome>)
      modifies this`h, c
      ensures rest == Rest(outs) && rc == if Outcome(outs) == Started then XNET_OK else XNET_ERR
      ensures Outcome(outs) == SocketFailed ==> c.View() == old(c.View())
      ensures Outcome(outs) != SocketFailed ==>
                c.View() == old(c.View()).(upc := CONN_CONNECT, upRecv := true, upSend := false, upConnected := true,
                                           upTimer := Some(now + CONN_CONNECT_TIMEOUT))
      ensures h == old(h).(fails := old(h).fails + if Outcome(outs) == ConnectFailed then 1 else 0)
    {
      var outcome := Outcome(outs);
      rest := Rest(outs);
      if outcome == SocketFailed {
        return XNET_ERR, rest;
      }
      c.upcStatus := CONN_CONNECT;
      c.upcERecv, c.upcESend, c.upcEConnected := true, false, true;
      c.upcETimer := Some(now + CONN_CONNECT_TIMEOUT);
      if outcome == ConnectFailed {
        h := h.(fails := h.fails + 1);
        return XNET_ERR, rest;
      }
      return XNET_OK, rest;
    }

    /** The state after one attempt to open the upstream side. */
    ghost function AfterAttempt(k: Control, c: nat, out: ConnectOutcome): Control
      requires c in k.conns
    {
      k.(conns := k.conns[c := Attempted(k.conns[c], k.now, out, NextPeer(k))],
         upIndex := NextPeer(k) + 1,
         h := k.h.(picks := k.h.picks + [NextPeer(k)],
                   fails := k.h.fails + if out == ConnectFailed then 1 else 0))
    }

    lemma AttemptedPeer(v: Conn, out: ConnectOutcome, w: Conn, peer: nat)
      requires out == SocketFailed ==> w == v
      requires out != SocketFailed ==>
                 w == v.(upc := CONN_CONNECT, upRecv := true, upSend := false, upConnected := true,
                         upTimer := Some(now + CONN_CONNECT_TIMEOUT))
      ensures w.(peer := Some(peer)) == Attempted(v, now, out, peer)
    {
    }

    lemma AttemptView(k: Control, c: nat, out: ConnectOutcome, k': Control)
      requires c in k.conns && k'.conns == k.conns[c := Attempted(k.conns[c], k.now, out, NextPeer(k))]
      requires k' == k.(conns := k'.conns, upIndex := NextPeer(k) + 1,
                        h := k.h.(picks := k.h.picks + [NextPeer(k)],
                                  fails := k.h.fails + if out == ConnectFailed then 1 else 0))
      ensures k' == AfterAttempt(k, c, out)
    {
    }

    /** The part of x_upstream_init that follows the choice of a server */
    method ConnectTo(c: Connection, peer: nat, outs: seq<ConnectOutcome>)
        returns (rc: int, rest: seq<ConnectOutcome>)
      modifies this`h, c
      ensures rest == Rest(outs) && rc == if Outcome(outs) == Started then XNET_OK else XNET_ERR
      ensures c.View() == Attempted(old(c.View()), now, Outcome(outs), peer)
      ensures h == old(h).(fails := old(h).fails + if Outcome(outs) == ConnectFailed then 1 else 0)
    {
      hide Attempted, Outcome, Rest;
      ghost var v := c.View();
      rc, rest := ConnectionNew(c, outs);
      AttemptedPeer(v, Outcome(outs), c.View(), peer);
      c.upcf := Some(peer);
    }

    /** x_upstream_init */
    method UpstreamInit(c: Connection, outs: seq<ConnectOutcome>) returns (rc: int, rest: seq<ConnectOutcome>)
      requires Valid() && Live(c)
      modifies this`upstreamIndex, this`h, c
      ensures Valid()
      ensures rest == Rest(outs) && rc == if Outcome(outs) == Started then XNET_OK else XNET_ERR
      ensures View() == AfterAttempt(old(View()), c.id, Outcome(outs))
    {
      hide NextPeer, Attempted, AfterAttempt, Outcome, Rest;
      ghost var k := View();
      assert k.conns[c.id] == c.View();
      var peer := ChoosePeer();
      rc, rest := ConnectTo(c, peer, outs);
      OneChanged(c);
      AttemptView(k, c.id, Outcome(outs), View());
    }

    /** The scheduler turn that fails, put together from the attempt and x_upstream_final. */
    lemma FailingTurn(k: Control, outs: seq<ConnectOutcome>)
      requires k.queue != [] && k.workingNum < k.cf.workingMax && k.queue[0] in k.conns && Outcome(outs) != Started
      ensures Handle(k, outs)
           == Final(AfterAttempt(k, k.queue[0], Outcome(outs)), k.queue[0], Rest(outs)).(rc := XNET_ERR)
    {
      var c, out := k.queue[0], Outcome(outs);
      var a := AfterAttempt(k, c, out);
      if out == ConnectFailed {
        assert Admission.ShutUpstream(a, c).conns == FailedAttempt(k, c).conns;
        assert Admission.ShutUpstream(a, c) == FailedAttempt(k, c);
        assert Rest(outs) == outs[1..];
      } else {
        assert a == NoSocket(k, c);
      }
    }

    lemma StartedTurn(k: Control, outs: seq<ConnectOutcome>)
      requires k.queue != [] && k.workingNum < k.cf.workingMax && k.queue[0] in k.conns && Outcome(outs) == Started
      ensures Handle(k, outs) == HandleResult(Admission.AdmitHead(k), Rest(outs), XNET_OK)
    {
    }

    /** What the scheduler does after an attempt that got through. */
    ghost function Promoted(a: Control): Control
      requires a.queue != [] && a.queue[0] in a.conns
    {
      var c := a.queue[0];
      a.(conns := a.conns[c := a.conns[c].(status := CONN_WORKING)], queue := a.queue[1..],
         waitingNum := a.waitingNum - 1, workingNum := a.workingNum + 1,
         h := a.h.(admitted := a.h.admitted + [c]))
    }

    lemma AdmittedView(k: Control)
      requires k.queue != [] && k.queue[0] in k.conns && NoDangling(k)
      ensures Admission.AdmitHead(k) == Promoted(AfterAttempt(k, k.queue[0], Started))
    {
      var c := k.queue[0];
      assert !Dangling(k, 1);
      var v := Attempted(k.conns[c], k.now, Started, NextPeer(k));
      assert k.conns[c := v][c := v.(status := CONN_WORKING)] == k.conns[c := v.(status := CONN_WORKING)];
    }

    lemma IdsTail(s: seq<Connection>)
      requires s != []
      ensures ConnIds(s[1..]) == ConnIds(s)[1..]
      ensures forall c :: c in s[1..] ==> c in s
    {
    }

    lemma PromotedView(a: Control, v: Conn)
      requires a.queue != [] && a.queue[0] in a.conns && a.conns[a.queue[0]] == v
      ensures Promoted(a)
           == a.(conns := a.conns[a.queue[0] := v.(status := CONN_WORKING)], queue := a.queue[1..],
                 waitingNum := a.waitingNum - 1, workingNum := a.workingNum + 1,
                 h := a.h.(admitted := a.h.admitted + [a.queue[0]]))
    {
    }

    /** The head of the queue becomes a working connection. */
    method Promote()
      requires Valid() && cqWaiting != [] && Live(cqWaiting[0])
      modifies this`cqWaiting, this`cqWaitingNum, this`workingNum, this`h, cqWaiting[0]
      ensures Valid() && View() == Promoted(old(View()))
    {
      hide NextPeer, Promoted;
      var pconn := cqWaiting[0];
      PromotedView(View(), pconn.View());
      IdsTail(cqWaiting);
      cqWaiting := cqWaiting[1..];
      cqWaitingNum := cqWaitingNum - 1;
      pconn.status := CONN_WORKING;
      workingNum := workingNum + 1;
      h := h.(admitted := h.admitted + [pconn.id]);
      OneChanged(pconn);
    }

    /** x_upstream_final up to its call of the scheduler */
    method ShutUpstream(c: Connection)
      requires Valid() && Live(c)
      modifies this`workingNum, c
      ensures Valid() && View() == Admission.ShutUpstream(old(View()), c.id)
    {
      assert c.View() == Conns()[c.id];
      c.Shut();
      workingNum := workingNum - 1;
      OneChanged(c);
    }

    lemma QueueLive()
      requires Valid()
      ensures NoDangling(View())
    {
      forall c | c in View().queue ensures c in View().conns {
        var i :| 0 <= i < |View().queue| && View().queue[i] == c;
        assert Live(cqWaiting[i]);
      }
    }

    /** x_upstream_handle */
    method UpstreamHandle(outs: seq<ConnectOutcome>) returns (rc: int, rest: seq<ConnectOutcome>)
      requires Valid()
      modifies this`cqWaiting, this`cqWaitingNum, this`workingNum, this`upstreamIndex, this`h, all
      ensures Valid()
      ensures HandleResult(View(), rest, rc) == Handle(old(View()), outs)
      decreases |outs|, if HeadOpen(View()) then 3 else 1
    {
      if cqWaiting == [] {
        return XNET_OK, outs;
      }
      if workingNum >= cf.workingMax {
        return XNET_BUSY, outs;
      }
      var pconn := cqWaiting[0];
      ghost var k := View();
      QueueLive();
      assert Live(pconn) && k.queue[0] == pconn.id;
      rc, rest := UpstreamInit(pconn, outs);
      if rc == XNET_OK {
        StartedTurn(k, outs);
        AdmittedView(k);
        Promote();
      } else {
        FailingTurn(k, outs);
        rest := UpstreamFinal(pconn, rest);
      }
    }

    /** x_upstream_final */
    method UpstreamFinal(c: Connection, outs: seq<ConnectOutcome>) returns (rest: seq<ConnectOutcome>)
      requires Valid() && Live(c)
      modifies this`cqWaiting, this`cqWaitingNum, this`workingNum, this`upstreamIndex, this`h, all
      ensures Valid()
      ensures View() == Final(old(View()), c.id, outs).k && rest == Final(old(View()), c.id, outs).outs
      decreases |outs|, if !Open(c.upcStatus) then 0 else if cqWaiting != [] && cqWaiting[0] == c then 2 else 4
    {
      rest := outs;
      if c.upcStatus == CONN_NONE {
        return;
      }
      if c.upcStatus != CONN_CLOSE {
        ShutUpstream(c);
        var rc;
        rc, rest := UpstreamHandle(outs);
      }
    }

    lemma CutIds(s: seq<Connection>, i: nat)
      requires i < |s|
      ensures ConnIds(s[..i] + s[i + 1..]) == ConnIds(s)[..i] + ConnIds(s)[i + 1..]
      ensures forall c :: c in s[..i] + s[i + 1..] ==> c in s
    {
    }

    lemma UnlinkSound(k: Control, i: nat)
      requires i < |k.queue| && NoDangling(k)
      ensures UnlinkAt(k, i) == k.(queue := k.queue[..i] + k.queue[i + 1..], waitingNum := k.waitingNum - 1)
    {
    }

    /** TAILQ_REMOVE from the waiting queue */
    method Unlink(c: Connection)
      requires Valid() && Live(c) && c.id in ConnIds(cqWaiting)
      modifies this`cqWaiting, this`cqWaitingNum
      ensures Valid()
      ensures View() == UnlinkAt(old(View()), Position(old(View()).queue, c.id))
    {
      QueueLive();
      assert forall x :: x in cqWaiting && x.id == c.id ==> Live(x) && x == c;
      PlaceIsPosition(cqWaiting, c);
      var i := PlaceOf(cqWaiting, c);
      UnlinkSound(View(), i);
      ghost var k := View();
      hide UnlinkAt, Position, PlaceOf, NoDangling, Dangling;
      CutIds(cqWaiting, i);
      assert forall j :: 0 <= j < |all| ==> all[j] as object != this;
      cqWaiting := cqWaiting[..i] + cqWaiting[i + 1..];
      cqWaitingNum := cqWaitingNum - 1;
      NoneChanged();
      hide Connection.View, Conns;
      forall x | x in cqWaiting ensures Live(x) {
        assert x in old(cqWaiting) && old(Live(x));
      }
      assert View() == k.(queue := ConnIds(cqWaiting), waitingNum := k.waitingNum - 1);
    }

    lemma UnlinkElsewhere(k: Control, i: nat, m: map<nat, Conn>)
      requires m.Keys == k.conns.Keys
      ensures UnlinkAt(k.(conns := m), i) == UnlinkAt(k, i).(conns := m)
    {
      var k1 := k.(conns := m);
      assert Dangling(k1, i - 1) == Dangling(k, i - 1) && Dangling(k1, i + 1) == Dangling(k, i + 1);
    }

    lemma PutTwice(m: map<nat, Conn>, c: nat, v: Conn, w: Conn)
      ensures m[c := v][c := w] == m[c := w]
    {
    }

    /** The steps of a close, put together. */
    lemma ClosingSteps(k: Control, c: nat, v: Conn, stopped: Conn, k1: Control, k2: Control, closed: Conn)
      requires c in k.conns && k.conns[c] == v
      requires stopped == v.(eRecv := false, eSend := false)
      requires closed == stopped.(status := CONN_CLOSE, eTimer := TimerAgain(k.now, CONN_FREE_TIMEOUT))
      requires k1 == Put(k, c, stopped)
      requires k2 == if v.status == CONN_WAITING then Dropped(k1, c) else k1
      ensures Put(k2, c, closed).(cCount := k2.cCount - 1) == Admission.CloseClient(k, c)
    {
      UnlinkElsewhere(k, Position(k.queue, c), k1.conns);
      PutTwice(k.conns, c, stopped, closed);
    }

    /** The state without c in its queue. */
    ghost function Dropped(k: Control, c: nat): Control {
      UnlinkAt(k, Position(k.queue, c)).(h := k.h.(dropped := k.h.dropped + {c}))
    }

    /** x_event_close once the upstream side is shut */
    method CloseClient(c: Connection)
      requires Valid() && Live(c) && (c.status == CONN_WAITING ==> c.id in ConnIds(cqWaiting))
      modifies this`cqWaiting, this`cqWaitingNum, this`cCount, this`h, c
      ensures Valid() && View() == Admission.CloseClient(old(View()), c.id)
      ensures c.status == CONN_CLOSE && c.eTimer == Some(now + CONN_FREE_TIMEOUT)
    {
      ghost var k, v := View(), c.View();
      StopClient(c);
      ghost var k1, stopped := View(), c.View();
      if c.status == CONN_WAITING {
        Drop(c);
      }
      ClosingSteps(k, c.id, v, stopped, k1, View(),
                   stopped.(status := CONN_CLOSE, eTimer := TimerAgain(now, CONN_FREE_TIMEOUT)));
      MarkClosed(c);
    }

    method Drop(c: Connection)
      requires Valid() && Live(c) && c.id in ConnIds(cqWaiting)
      modifies this`cqWaiting, this`cqWaitingNum, this`h
      ensures Valid() && View() == Dropped(old(View()), c.id)
    {
      ghost var gone := h.dropped + {c.id};
      Unlink(c);
      NoteDropped(gone);
    }

    /** The log of what has left the queue by a close */
    ghost method NoteDropped(gone: set<nat>)
      modifies this`h
      ensures h == old(h).(dropped := gone) && View() == old(View()).(h := old(h).(dropped := gone))
    {
      h := h.(dropped := gone);
    }

    method StopClient(c: Connection)
      requires Valid() && Live(c)
      modifies c`eRecv, c`eSend
      ensures Valid() && View() == Put(old(View()), c.id, old(c.View()).(eRecv := false, eSend := false))
      ensures c.View() == old(c.View()).(eRecv := false, eSend := false) && old(c.View()) == old(View()).conns[c.id]
    {
      assert c.View() == Conns()[c.id];
      c.eRecv := false;
      c.eSend := false;
      OneChanged(c);
    }

    method MarkClosed(c: Connection)
      requires Valid() && Live(c)
      modifies this`cCount, c
      ensures Valid()
      ensures View() == Put(old(View()), c.id, old(c.View()).(status := CONN_CLOSE,
                                                              eTimer := TimerAgain(now, CONN_FREE_TIMEOUT))).(
                          cCount := old(cCount) - 1)
      ensures c.status == CONN_CLOSE && c.eTimer == Some(now + CONN_FREE_TIMEOUT)
    {
      c.eTimer := TimerAgain(now, CONN_FREE_TIMEOUT);
      c.status := CONN_CLOSE;
      cCount := cCount - 1;
      OneChanged(c);
    }

    lemma ClosesAs(k: Control, c: nat, outs: seq<ConnectOutcome>)
      requires c in k.conns
      ensures Admission.EventClose(k, c, outs)
           == if k.conns[c].status == CONN_CLOSE then k else Admission.CloseClient(Final(k, c, outs).k, c)
    {
    }

    /** x_event_close */
    method EventClose(c: Connection, outs: seq<ConnectOutcome>)
      requires Valid() && Live(c)
      requires c.status != CONN_CLOSE ==> Unlinkable(Final(View(), c.id, outs).k, c.id)
      modifies this`cqWaiting, this`cqWaitingNum, this`workingNum, this`cCount, this`upstreamIndex, this`h, all
      ensures Valid() && View() == Admission.EventClose(old(View()), c.id, outs)
      ensures old(c.status) != CONN_CLOSE ==> c.status == CONN_CLOSE && c.eTimer == Some(now + CONN_FREE_TIMEOUT)
    {
      assert c.View() == View().conns[c.id];
      ClosesAs(View(), c.id, outs);
      hide Admission.EventClose, Final, Admission.CloseClient;
      if c.status != CONN_CLOSE {
        var rest := UpstreamFinal(c, outs);
        assert c.View() == View().conns[c.id];
        CloseClient(c);
      }
    }
  }
}
