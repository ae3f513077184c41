/** How a callback changes each single connection: the table of its moves. */
module ConnectionMoves {
  import opened Common
  import opened Admission
  import opened AdmissionInvariant
  import opened AdmissionSteps
  import opened Scheduler
  import opened ControlRuns

  /** The connection has no upstream server yet. */
  predicate Early(v: Conn) {
    v.status == CONN_NONE || v.status == CONN_WAITING
  }

  lemma AwakeClient(k: Control, c: nat)
    requires Inv(k) && c in k.conns && (k.conns[c].eRecv || k.conns[c].eSend)
    ensures k.conns[c].status != CONN_CLOSE
  {
    assert ConnOk(k.cf, k.now, k.conns[c]);
  }

  lemma ReactKeys(k: Control, sig: Signal, outs: seq<ConnectOutcome>)
    requires Enabled(k, sig)
    ensures React(k, sig, outs).conns.Keys
         == if sig.NewClient? && k.cCount < k.cf.accessMax then k.conns.Keys + {k.accepted}
            else if sig.AccessTimer? then k.conns.Keys - {sig.c} else k.conns.Keys
  {
  }

  // ---------- the moves of one connection ----------

  /** A call of the scheduler tries to open the upstream side of connection x. */
  ghost predicate Tries(call: Option<Control>, x: nat) {
    call.Some? && Turn(call.value) && call.value.queue[0] == x
  }

  /** What a call of the scheduler makes of a connection that goes into it as v. */
  ghost predicate Awaits(call: Option<Control>, outs: seq<ConnectOutcome>, x: nat, v: Conn, v': Conn) {
    if Tries(call, x) then
      var s, d := call.value, Refusals(outs);
      Served(v, v', s.now, d, Outcome(outs[d..]), Mod(s.upIndex + d, |s.cf.upTimeouts|))
    else v' == v
  }

  /** The upstream side is closed, and the client's sender is started to tell it. */
  predicate Parted(v: Conn, v': Conn) {
    v' == v.(upc := CONN_CLOSE, upRecv := false, upSend := false, upConnected := false, upTimer := None,
             eSend := true)
  }

  /** The client is closed, with its upstream side if it has one, and waits to be freed. */
  predicate HungUp(v: Conn, v': Conn, now: real) {
    v' == v.(status := CONN_CLOSE, eRecv := false, eSend := false, eTimer := Some(now + CONN_FREE_TIMEOUT),
             upc := if v.upc == CONN_NONE then CONN_NONE else CONN_CLOSE,
             upRecv := false, upSend := false, upConnected := false, upTimer := None)
  }

  predicate Concerns(sig: Signal, x: nat) {
    match sig
    case NewClient => false
    case Tick(_) => false
    case _ => sig.c == x
  }

  /** The move of the connection whose watcher has fired. */
  ghost predicate OwnMove(k: Control, m: Move, x: nat, v: Conn, v': Conn)
    requires Enabled(k, m.sig) && Concerns(m.sig, x)
  {
    match m.sig
    case ClientReadable(_, ok) =>
      if !ok then HungUp(v, v', k.now)
      else if v.status == CONN_NONE then Awaits(SchedulerCall(k, m.sig), m.outs, x, v.(status := CONN_WAITING), v')
      else v' == if v.upc == CONN_WORKING then v.(upSend := true) else v
    case ClientWritable(_, end) =>
      if end == SendError || (end == SendDry && v.upc == CONN_CLOSE) then HungUp(v, v', k.now)
      else v' == if end == SendDry then v.(eSend := false) else v
    case PeerConnected(_, ok) =>
      if !ok then Parted(v, v')
      else && v.peer.Some? && v.peer.value < |k.cf.upTimeouts|
           && v' == v.(upc := CONN_WORKING, upConnected := false, upSend := true,
                       upTimer := Some(k.now + k.cf.upTimeouts[v.peer.value] as real))
    case PeerReadable(_, ok) => if ok then v' == v.(eSend := true) else Parted(v, v')
    case PeerWritable(_, end) => if end == SendError then Parted(v, v') else v' == v.(upSend := false)
    case PeerTimer(_) => Parted(v, v')
    case AccessTimer(_) => false
  }

  ghost predicate Moves(k: Control, m: Move, x: nat, v: Conn, v': Conn)
    requires Enabled(k, m.sig)
  {
    if Concerns(m.sig, x) then OwnMove(k, m, x, v, v') else Awaits(SchedulerCall(k, m.sig), m.outs, x, v, v')
  }

  lemma HandleMoves(s: Control, outs: seq<ConnectOutcome>, x: nat)
    requires QueueIdle(s) && x in s.conns
    ensures Awaits(Some(s), outs, x, s.conns[x], Handle(s, outs).k.conns[x])
  {
    if Turn(s) {
      SchedulerAtOnce(s, outs);
      hide Handle, Served;
    }
  }

  lemma FinalMoves(k: Control, c: nat, outs: seq<ConnectOutcome>, x: nat)
    requires Mid(k) && c in k.conns && x in k.conns && x != c
    ensures Awaits(ShutCall(k, c), outs, x, k.conns[x], Final(k, c, outs).k.conns[x])
  {
    hide Mid, Awaits, Handle, QueueIdle;
    NotCalled(outs, x, k.conns[x]);
    if Open(k.conns[c].upc) {
      ShutKeeps(k, c);
      MidQueueIdle(ShutUpstream(k, c));
      HandleMoves(ShutUpstream(k, c), outs, x);
    }
  }

  lemma NotCalled(outs: seq<ConnectOutcome>, x: nat, v: Conn)
    ensures Awaits(None, outs, x, v, v)
  {
  }

  /** The upstream side of c, if it is open, is closed. */
  lemma FinalParts(k: Control, c: nat, outs: seq<ConnectOutcome>)
    requires Mid(k) && c in k.conns && Open(k.conns[c].upc)
    ensures Parted(k.conns[c], Final(k, c, outs).k.conns[c])
  {
    assert ConnOk(k.cf, k.now, k.conns[c]);
    hide Mid, Final;
    FinalKeeps(k, c, outs);
  }

  lemma CloseMoves(k: Control, c: nat, outs: seq<ConnectOutcome>, x: nat)
    requires Mid(k) && c in k.conns && x in k.conns && x != c && k.conns[c].status != CONN_CLOSE
    ensures Awaits(ShutCall(k, c), outs, x, k.conns[x], EventClose(k, c, outs).conns[x])
  {
    hide Mid, Awaits, Final, ShutCall, CloseClient;
    FinalMoves(k, c, outs, x);
    CloseElsewhere(Final(k, c, outs).k, c, x);
  }

  lemma CloseElsewhere(f: Control, c: nat, x: nat)
    requires c in f.conns && x in f.conns && x != c
    ensures CloseClient(f, c).conns[x] == f.conns[x]
  {
  }

  lemma CloseHangsUp(k: Control, c: nat, outs: seq<ConnectOutcome>)
    requires Mid(k) && c in k.conns && k.conns[c].status != CONN_CLOSE
    ensures HungUp(k.conns[c], EventClose(k, c, outs).conns[c], k.now)
  {
    assert ConnOk(k.cf, k.now, k.conns[c]);
    FinalKeeps(k, c, outs);
    hide Mid, Final, SameBase;
    ClosedAfter(k, Final(k, c, outs).k, c);
  }

  lemma ClosedAfter(k: Control, f: Control, c: nat)
    requires c in k.conns && c in f.conns && f.now == k.now && WatchersOk(k.conns[c])
    requires f.conns[c] == if Open(k.conns[c].upc) then Shut(k.conns[c]) else k.conns[c]
    ensures HungUp(k.conns[c], CloseClient(f, c).conns[c], k.now)
  {
  }

  // ---------- the moves at each callback ----------

  lemma FailedMoves(k: Control, c: nat, outs: seq<ConnectOutcome>, x: nat)
    requires Inv(k) && c in k.conns && k.conns[c].eRecv && x in k.conns
    ensures k.conns[c].status != CONN_CLOSE
    ensures var v, v' := k.conns[x], EventClose(k, c, outs).conns[x];
            if x == c then HungUp(v, v', k.now) else Awaits(ShutCall(k, c), outs, x, v, v')
  {
    hide Inv, Mid, Settled, Awaits, HungUp, EventClose, ShutCall;
    AwakeClient(k, c);
    InvMid(k);
    if x == c {
      CloseHangsUp(k, c, outs);
    } else {
      CloseMoves(k, c, outs, x);
    }
  }

  lemma ReceivedMoves(k: Control, m: Move, x: nat)
    requires Inv(k) && Enabled(k, m.sig) && x in k.conns && m.sig.ClientReadable?
    ensures Moves(k, m, x, k.conns[x], ClientReceived(k, m.sig.c, m.sig.ok, m.outs).conns[x])
  {
    hide Inv, Awaits, HungUp, EventClose, ShutCall, Enqueue, Handle;
    NotCalled(m.outs, x, k.conns[x]);
    if !m.sig.ok {
      FailedMoves(k, m.sig.c, m.outs, x);
    } else if k.conns[m.sig.c].status == CONN_NONE {
      hide ClientReceived;
      QueuedMoves(k, m.sig.c, m.outs, x);
    }
  }

  lemma QueuedMoves(k: Control, c: nat, outs: seq<ConnectOutcome>, x: nat)
    requires Inv(k) && c in k.conns && x in k.conns && k.conns[c].status == CONN_NONE
    ensures var e := Enqueue(k, c); var v := if x == c then k.conns[x].(status := CONN_WAITING) else k.conns[x];
            && Awaits(Some(e), outs, x, v, ClientReceived(k, c, true, outs).conns[x])
  {
    var e := Enqueue(k, c);
    assert PairOk(k.conns[c].status, k.conns[c].upc);
    EnqueueKeeps(k, c);
    MidQueueIdle(e);
    hide Mid, Inv, Handle;
    HandleMoves(e, outs, x);
    HandleMoves(e, outs, c);
    AwaitsUnconnected(Some(e), outs, c, e.conns[c], Handle(e, outs).k.conns[c]);
    hide Awaits;
  }

  lemma AwaitsUnconnected(call: Option<Control>, outs: seq<ConnectOutcome>, x: nat, v: Conn, v': Conn)
    requires Awaits(call, outs, x, v, v') && v.upc != CONN_WORKING
    ensures v'.upc != CONN_WORKING
  {
  }

  lemma SentOwn(k: Control, c: nat, end: SendOutcome, outs: seq<ConnectOutcome>)
    requires Inv(k) && c in k.conns && k.conns[c].eSend
    ensures var v, v' := k.conns[c], ClientSent(k, c, end, outs).conns[c];
            if end == SendError || (end == SendDry && v.upc == CONN_CLOSE) then HungUp(v, v', k.now)
            else v' == if end == SendDry then v.(eSend := false) else v
  {
    hide Inv, Mid, Settled, HungUp, EventClose;
    AwakeClient(k, c);
    if end == SendError || (end == SendDry && k.conns[c].upc == CONN_CLOSE) {
      InvMid(k);
      CloseHangsUp(k, c, outs);
    }
  }

  lemma InvMid(k: Control)
    requires Inv(k)
    ensures Mid(k)
  {
  }

  lemma SentOther(k: Control, c: nat, end: SendOutcome, outs: seq<ConnectOutcome>, x: nat)
    requires Inv(k) && c in k.conns && k.conns[c].eSend && x in k.conns && x != c
    ensures k.conns[c].status != CONN_CLOSE
    ensures var v, v' := k.conns[x], ClientSent(k, c, end, outs).conns[x];
            if end == SendError || (end == SendDry && k.conns[c].upc == CONN_CLOSE)
            then Awaits(ShutCall(k, c), outs, x, v, v') else v' == v
  {
    hide Inv, Mid, Settled, Awaits, EventClose, ShutCall;
    AwakeClient(k, c);
    if end == SendError || (end == SendDry && k.conns[c].upc == CONN_CLOSE) {
      InvMid(k);
      CloseMoves(k, c, outs, x);
    }
  }

  lemma SentMoves(k: Control, m: Move, x: nat)
    requires Inv(k) && Enabled(k, m.sig) && x in k.conns && m.sig.ClientWritable?
    ensures Moves(k, m, x, k.conns[x], ClientSent(k, m.sig.c, m.sig.sent, m.outs).conns[x])
  {
    hide Inv, Awaits, HungUp, ShutCall, ClientSent;
    NotCalled(m.outs, x, k.conns[x]);
    if x == m.sig.c {
      SentOwn(k, x, m.sig.sent, m.outs);
    } else {
      SentOther(k, m.sig.c, m.sig.sent, m.outs, x);
    }
  }

  lemma ExpiryMoves(k: Control, m: Move, x: nat)
    requires Inv(k) && Enabled(k, m.sig) && x in k.conns && m.sig.AccessTimer? && x != m.sig.c
    ensures x in AccessTimeout(k, m.sig.c, m.outs).conns
    ensures Moves(k, m, x, k.conns[x], AccessTimeout(k, m.sig.c, m.outs).conns[x])
  {
    var c, outs := m.sig.c, m.outs;
    hide Inv, Mid, Settled, Awaits;
    NotCalled(outs, x, k.conns[x]);
    if k.conns[c].status == CONN_WAITING {
      IdleWaiting(k, c);
      WaitingTimeout(k, c, outs);
    } else if k.conns[c].status != CONN_CLOSE {
      MarkedMid(k, c);
      hide ShutCall, EventClose;
      CloseMoves(Put(k, c, k.conns[c].(status := CONN_TIMEOUT)), c, outs, x);
    }
  }

  lemma IdleWaiting(k: Control, c: nat)
    requires Inv(k) && c in k.conns && k.conns[c].status == CONN_WAITING
    ensures !Open(k.conns[c].upc)
  {
    assert ConnOk(k.cf, k.now, k.conns[c]);
  }

  lemma ConnectedMoves(k: Control, m: Move, x: nat)
    requires Inv(k) && Enabled(k, m.sig) && x in k.conns && m.sig.PeerConnected?
    ensures Moves(k, m, x, k.conns[x], UpstreamConnected(k, m.sig.c, m.sig.ok, m.outs).conns[x])
  {
    PeerOpen(k, m.sig.c);
    hide Inv, Mid, Settled, Awaits, Parted, Final, ShutCall;
    NotCalled(m.outs, x, k.conns[x]);
    if !m.sig.ok {
      EndMoves(k, m.sig.c, m.outs, x);
    }
  }

  lemma UpstreamReceivedMoves(k: Control, m: Move, x: nat)
    requires Inv(k) && Enabled(k, m.sig) && x in k.conns && m.sig.PeerReadable?
    ensures Moves(k, m, x, k.conns[x], UpstreamReceived(k, m.sig.c, m.sig.ok, m.outs).conns[x])
  {
    PeerOpen(k, m.sig.c);
    hide Inv, Mid, Settled, Awaits, Parted, Final, ShutCall;
    NotCalled(m.outs, x, k.conns[x]);
    if !m.sig.ok {
      EndMoves(k, m.sig.c, m.outs, x);
    }
  }

  lemma UpstreamSentMoves(k: Control, m: Move, x: nat)
    requires Inv(k) && Enabled(k, m.sig) && x in k.conns && m.sig.PeerWritable?
    ensures Moves(k, m, x, k.conns[x], UpstreamSent(k, m.sig.c, m.sig.sent, m.outs).conns[x])
  {
    PeerOpen(k, m.sig.c);
    hide Inv, Mid, Settled, Awaits, Parted, Final, ShutCall;
    NotCalled(m.outs, x, k.conns[x]);
    if m.sig.sent == SendError {
      EndMoves(k, m.sig.c, m.outs, x);
    }
  }

  /** A watcher or timer of the upstream side is active only while that side is open. */
  lemma PeerOpen(k: Control, c: nat)
    requires Inv(k) && c in k.conns
    ensures var v := k.conns[c];
            (v.upConnected || v.upRecv || v.upSend || v.upTimer.Some?) ==>
              Open(v.upc) && v.peer.Some? && v.peer.value < |k.cf.upTimeouts|
  {
    assert ConnOk(k.cf, k.now, k.conns[c]);
  }

  lemma EndMoves(k: Control, c: nat, outs: seq<ConnectOutcome>, x: nat)
    requires Inv(k) && c in k.conns && x in k.conns && Open(k.conns[c].upc)
    ensures if x == c then Parted(k.conns[x], Final(k, c, outs).k.conns[x])
            else Awaits(ShutCall(k, c), outs, x, k.conns[x], Final(k, c, outs).k.conns[x])
  {
    hide Mid, Settled;
    if x == c {
      FinalParts(k, c, outs);
    } else {
      FinalMoves(k, c, outs, x);
    }
  }

  lemma UpstreamExpiryEnds(k: Control, c: nat, outs: seq<ConnectOutcome>, x: nat)
    requires c in k.conns && x in k.conns && k.conns[c].upc != CONN_CLOSE
    ensures var k1 := Put(k, c, k.conns[c].(upc := CONN_TIMEOUT)); var f := Final(k1, c, outs).k;
            var v' := UpstreamTimeout(k, c, outs).conns[x];
            && (x != c ==> v' == f.conns[x])
            && (x == c && Parted(k1.conns[c], f.conns[c]) ==> Parted(k.conns[c], v'))
  {
    hide Final;
  }

  lemma UpstreamExpiryOwn(k: Control, c: nat, outs: seq<ConnectOutcome>)
    requires Inv(k) && c in k.conns && k.conns[c].upTimer.Some?
    ensures Parted(k.conns[c], UpstreamTimeout(k, c, outs).conns[c])
  {
    hide Inv, Mid, Final, Parted, UpstreamTimeout;
    MarkTimeout(k, c);
    UpstreamExpiryEnds(k, c, outs, c);
    FinalParts(Put(k, c, k.conns[c].(upc := CONN_TIMEOUT)), c, outs);
  }

  lemma UpstreamExpiryOther(k: Control, c: nat, outs: seq<ConnectOutcome>, x: nat)
    requires Inv(k) && c in k.conns && k.conns[c].upTimer.Some? && x in k.conns && x != c
    ensures k.conns[c].upc != CONN_CLOSE
    ensures Awaits(ShutCall(Put(k, c, k.conns[c].(upc := CONN_TIMEOUT)), c), outs, x, k.conns[x],
                   UpstreamTimeout(k, c, outs).conns[x])
  {
    hide Inv, Mid, Final, Awaits, ShutCall, UpstreamTimeout;
    MarkTimeout(k, c);
    UpstreamExpiryEnds(k, c, outs, x);
    FinalMoves(Put(k, c, k.conns[c].(upc := CONN_TIMEOUT)), c, outs, x);
  }

  lemma UpstreamExpiryMoves(k: Control, m: Move, x: nat)
    requires Inv(k) && Enabled(k, m.sig) && x in k.conns && m.sig.PeerTimer?
    ensures Moves(k, m, x, k.conns[x], UpstreamTimeout(k, m.sig.c, m.outs).conns[x])
  {
    hide Inv, Awaits, Parted, ShutCall, UpstreamTimeout;
    if x == m.sig.c {
      UpstreamExpiryOwn(k, x, m.outs);
    } else {
      UpstreamExpiryOther(k, m.sig.c, m.outs, x);
    }
  }

  /** Every callback moves every connection as the table of its life says. */
  lemma ReactMoves(k: Control, m: Move, x: nat)
    requires Inv(k) && Enabled(k, m.sig) && x in k.conns && m.sig != AccessTimer(x)
    ensures x in React(k, m.sig, m.outs).conns && Moves(k, m, x, k.conns[x], React(k, m.sig, m.outs).conns[x])
  {
    ReactKeys(k, m.sig, m.outs);
    hide Inv, Moves, ClientReceived, ClientSent, AccessTimeout, UpstreamConnected, UpstreamReceived, UpstreamSent,
         UpstreamTimeout;
    match m.sig
    case NewClient => AcceptMoves(k, m, x);
    case ClientReadable(_, _) => ReceivedMoves(k, m, x);
    case ClientWritable(_, _) => SentMoves(k, m, x);
    case AccessTimer(_) => ExpiryMoves(k, m, x);
    case PeerConnected(_, _) => ConnectedMoves(k, m, x);
    case PeerReadable(_, _) => UpstreamReceivedMoves(k, m, x);
    case PeerWritable(_, _) => UpstreamSentMoves(k, m, x);
    case PeerTimer(_) => UpstreamExpiryMoves(k, m, x);
    case Tick(_) => AcceptMoves(k, m, x);
  }

  lemma AcceptMoves(k: Control, m: Move, x: nat)
    requires Inv(k) && Enabled(k, m.sig) && x in k.conns && (m.sig.NewClient? || m.sig.Tick?)
    ensures Moves(k, m, x, k.conns[x], React(k, m.sig, m.outs).conns[x])
  {
    AcceptedUnused(k);
  }

  lemma TriesWaiting(k: Control, sig: Signal, c: nat)
    requires Inv(k) && Enabled(k, sig) && c in k.conns && Tries(SchedulerCall(k, sig), c)
    ensures Early(k.conns[c])
  {
    hide ConnsOk, CountsOk, FifoOk, RobinOk, FreedOk, Settled;
    assert c in k.queue ==> k.conns[c].status == CONN_WAITING;
  }
}
