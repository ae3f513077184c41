/** The control state of the proxy: connection states, the waiting queue, the counters, the
    libev watchers and the clock (src/xtp_access.c, src/xtp_upstream.c).  No byte of any
    stream is visible here; the callbacks see only how their socket loops ended.

    Connections are numbered in the order in which they were accepted, and a number is never
    used again after the connection is freed.

    The outcome of every socket()/connect() pair comes from a finite list that the attempts of
    one callback consume in order.  Once the list is used up socket() fails, which ends the
    recursion of the scheduler, so every callback that returns is described by some list. */
module Admission {
  import opened Common

  const XNET_OK: int := 0
  const XNET_ERR: int := -1
  const XNET_BUSY: int := -3

  const CONN_FREE_TIMEOUT: real := 3.0
  const CONN_CONNECT_TIMEOUT: real := 0.5

  datatype Phase =
    | CONN_NONE | CONN_WAITING | CONN_WORKING | CONN_CONNECT | CONN_TIMEOUT | CONN_CLOSE | CONN_ERROR

  /** The upstream side holds a socket that x_upstream_final has not yet closed. */
  predicate Open(upc: Phase) {
    upc != CONN_NONE && upc != CONN_CLOSE
  }

  datatype RawConf = RawConf(accessMax: int, accessTimeout: int, upTimeouts: seq<int>, workingMax: int)

  /** A configuration: at least one upstream server and positive timeouts. */
  type Conf = c: RawConf |
      |c.upTimeouts| >= 1 && c.accessTimeout > 0 && forall i :: 0 <= i < |c.upTimeouts| ==> c.upTimeouts[i] > 0
    witness RawConf(0, 1, [1], 0)

  /** How one attempt to open an upstream connection ends: no usable socket, connect() failing at
      once, or connect() succeeding or being in progress. */
  datatype ConnectOutcome = SocketFailed | ConnectFailed | Started

  /** How the send loop of a callback ends: socket error, EAGAIN, or nothing left to send. */
  datatype SendOutcome = SendError | SendAgain | SendDry

  /** xtp_conn_s without its buffers; a timer is its deadline while it is active. */
  datatype Conn = Conn(
    status: Phase,
    upc: Phase,
    eRecv: bool,
    eSend: bool,
    eTimer: Option<real>,
    upRecv: bool,
    upSend: bool,
    upConnected: bool,
    upTimer: Option<real>,
    peer: Option<nat>,
    born: real)

  /** A freed connection: who, when it had been accepted, and when it was freed. */
  datatype Gone = Gone(id: nat, born: real, at: real)

  /** What has happened so far; no branch of the program looks at it. */
  datatype History = History(
    fails: nat,          // connect() calls that failed at once
    picks: seq<nat>,     // upstream servers in the order they were chosen
    enqueued: seq<nat>,  // connections put in the waiting queue
    admitted: seq<nat>,  // connections taken from its head to an upstream server
    dropped: set<nat>,   // connections unlinked from it because they were closed
    freed: seq<Gone>,
    accepts: seq<real>)  // when each connection was accepted

  /** xtp_conn_listen_s, the part of xtp_srvconf_s that changes, the unfreed connections and the
      clock.  `fault` records that freed memory has been touched. */
  datatype Control = Control(
    cf: Conf,
    conns: map<nat, Conn>,
    queue: seq<nat>,
    waitingNum: int,
    workingNum: int,
    cCount: int,
    upIndex: nat,
    now: real,
    accepted: nat,
    fault: bool,
    h: History)

  datatype HandleResult = HandleResult(k: Control, outs: seq<ConnectOutcome>, rc: int)

  function InitControl(cf: Conf): Control {
    Control(cf, map[], [], 0, 0, 0, 0, 0.0, 0, false, History(0, [], [], [], {}, [], []))
  }

  function Put(k: Control, c: nat, v: Conn): Control {
    k.(conns := k.conns[c := v])
  }

  /** ev_timer_again for a timer whose repeat value is `repeat`. */
  function TimerAgain(now: real, repeat: real): Option<real> {
    if repeat > 0.0 then Some(now + repeat) else None
  }

  // ---------- the wait queue ----------

  predicate Dangling(k: Control, i: int) {
    0 <= i < |k.queue| && k.queue[i] !in k.conns
  }

  /** TAILQ_INSERT_TAIL writes through the pointer to the last element. */
  function Enqueue(k: Control, c: nat): Control
    requires c in k.conns
  {
    Put(k, c, k.conns[c].(status := CONN_WAITING)).(
      fault := k.fault || Dangling(k, |k.queue| - 1),
      queue := k.queue + [c],
      waitingNum := k.waitingNum + 1,
      h := k.h.(enqueued := k.h.enqueued + [c]))
  }

  /** TAILQ_REMOVE of the element at position i; it writes into both neighbours.  Unlinking what
      is not linked goes through a pointer that leads nowhere. */
  function UnlinkAt(k: Control, i: nat): Control {
    if i >= |k.queue| then k.(fault := true)
    else k.(
      fault := k.fault || Dangling(k, i - 1) || Dangling(k, i + 1),
      queue := k.queue[..i] + k.queue[i + 1..],
      waitingNum := k.waitingNum - 1)
  }

  // ---------- upstream side ----------

  function NextPeer(k: Control): nat {
    Mod(k.upIndex, |k.cf.upTimeouts|)
  }

  /** The connection after x_upstream_connection_new, which fails before touching it only when it
      gets no socket, and after x_upstream_init has noted the server. */
  function Attempted(v: Conn, now: real, out: ConnectOutcome, peer: nat): Conn {
    if out == SocketFailed then v.(peer := Some(peer))
    else v.(upc := CONN_CONNECT, upRecv := true, upSend := false, upConnected := true,
            upTimer := Some(now + CONN_CONNECT_TIMEOUT), peer := Some(peer))
  }

  function Shut(v: Conn): Conn {
    v.(upRecv := false, upSend := false, upConnected := false, upTimer := None, upc := CONN_CLOSE,
       eSend := v.eSend || v.status != CONN_CLOSE)
  }

  /** x_upstream_final up to its call of the scheduler. */
  function ShutUpstream(k: Control, c: nat): Control
    requires c in k.conns
  {
    Put(k, c, Shut(k.conns[c])).(workingNum := k.workingNum - 1)
  }

  /** The head of the queue becomes a working connection. */
  function AdmitHead(k: Control): Control
    requires k.queue != [] && k.queue[0] in k.conns
  {
    var c := k.queue[0];
    k.(conns := k.conns[c := Attempted(k.conns[c], k.now, Started, NextPeer(k)).(status := CONN_WORKING)],
       queue := k.queue[1..],
       waitingNum := k.waitingNum - 1,
       workingNum := k.workingNum + 1,
       upIndex := NextPeer(k) + 1,
       fault := k.fault || Dangling(k, 1),
       h := k.h.(picks := k.h.picks + [NextPeer(k)], admitted := k.h.admitted + [c]))
  }

  /** An attempt whose connect() fails at once: the state is CONN_CONNECT already, so
      x_upstream_final closes the socket and takes one off working_num. */
  function FailedAttempt(k: Control, c: nat): Control
    requires c in k.conns
  {
    k.(conns := k.conns[c := Shut(Attempted(k.conns[c], k.now, ConnectFailed, NextPeer(k)))],
       workingNum := k.workingNum - 1,
       upIndex := NextPeer(k) + 1,
       h := k.h.(picks := k.h.picks + [NextPeer(k)], fails := k.h.fails + 1))
  }

  /** An attempt that gets no socket. */
  function NoSocket(k: Control, c: nat): Control
    requires c in k.conns
  {
    k.(conns := k.conns[c := Attempted(k.conns[c], k.now, SocketFailed, NextPeer(k))],
       upIndex := NextPeer(k) + 1,
       h := k.h.(picks := k.h.picks + [NextPeer(k)]))
  }

  predicate HeadOpen(k: Control) {
    k.queue != [] && k.queue[0] in k.conns && Open(k.conns[k.queue[0]].upc)
  }

  function Outcome(outs: seq<ConnectOutcome>): ConnectOutcome {
    if outs == [] then SocketFailed else outs[0]
  }

  function Rest(outs: seq<ConnectOutcome>): seq<ConnectOutcome> {
    if outs == [] then [] else outs[1..]
  }

  /** x_upstream_handle.  x_upstream_final, which it calls after a failure, is written out: it does
      something only if the upstream side is open, and ends by calling the scheduler again. */
  function Handle(k: Control, outs: seq<ConnectOutcome>): (r: HandleResult)
    ensures r.k.conns.Keys == k.conns.Keys
    decreases |outs|, HeadOpen(k)
  {
    if k.queue == [] then HandleResult(k, outs, XNET_OK)
    else if k.workingNum >= k.cf.workingMax then HandleResult(k, outs, XNET_BUSY)
    else if k.queue[0] !in k.conns then HandleResult(k.(fault := true), outs, XNET_ERR)
    else
      var c := k.queue[0];
      match Outcome(outs)
      case Started => HandleResult(AdmitHead(k), outs[1..], XNET_OK)
      case ConnectFailed => Handle(FailedAttempt(k, c), outs[1..]).(rc := XNET_ERR)
      case SocketFailed =>
        if Open(k.conns[c].upc) then Handle(ShutUpstream(NoSocket(k, c), c), Rest(outs)).(rc := XNET_ERR)
        else HandleResult(NoSocket(k, c), Rest(outs), XNET_ERR)
  }

  /** x_upstream_final */
  function Final(k: Control, c: nat, outs: seq<ConnectOutcome>): (r: HandleResult)
    requires c in k.conns
    ensures r.k.conns.Keys == k.conns.Keys
  {
    if !Open(k.conns[c].upc) then HandleResult(k, outs, XNET_OK)
    else Handle(ShutUpstream(k, c), outs)
  }

  // ---------- client side ----------

  /** x_event_close once the upstream side is shut. */
  function CloseClient(k: Control, c: nat): (r: Control)
    requires c in k.conns
    ensures r.conns.Keys == k.conns.Keys
  {
    var g := if k.conns[c].status == CONN_WAITING
             then UnlinkAt(k, Position(k.queue, c)).(h := k.h.(dropped := k.h.dropped + {c})) else k;
    Put(g, c, g.conns[c].(eRecv := false, eSend := false, status := CONN_CLOSE,
                          eTimer := TimerAgain(g.now, CONN_FREE_TIMEOUT))).(cCount := g.cCount - 1)
  }

  /** x_event_close */
  function EventClose(k: Control, c: nat, outs: seq<ConnectOutcome>): (r: Control)
    requires c in k.conns
    ensures r.conns.Keys == k.conns.Keys
  {
    if k.conns[c].status == CONN_CLOSE then k
    else CloseClient(Final(k, c, outs).k, c)
  }

  /** The end of x_timeout_cb: the timer is stopped and the memory given back. */
  function Release(k: Control, c: nat): Control
    requires c in k.conns
  {
    k.(conns := k.conns - {c}, h := k.h.(freed := k.h.freed + [Gone(c, k.conns[c].born, k.now)]))
  }

  /** x_timeout_cb */
  function AccessTimeout(k: Control, c: nat, outs: seq<ConnectOutcome>): Control
    requires c in k.conns
  {
    var v := k.conns[c];
    var k1 := if v.status != CONN_CLOSE then Put(k, c, v.(status := CONN_TIMEOUT)) else k;
    Release(EventClose(k1, c, outs), c)
  }

  /** x_accept_cb.  A failing accept() leads to a connection all the same. */
  function Accept(k: Control): Control {
    if k.cCount >= k.cf.accessMax then k
    else
      var v := Conn(CONN_NONE, CONN_NONE, true, false, Some(k.now + k.cf.accessTimeout as real),
                    false, false, false, None, None, k.now);
      Put(k, k.accepted, v).(accepted := k.accepted + 1, cCount := k.cCount + 1,
                             h := k.h.(accepts := k.h.accepts + [k.now]))
  }

  /** x_recv_cb after its receive loop; `ok` is false when the loop met an error or the end of the
      stream. */
  function ClientReceived(k: Control, c: nat, ok: bool, outs: seq<ConnectOutcome>): Control
    requires c in k.conns
  {
    if !ok then EventClose(k, c, outs)
    else
      var k1 := if k.conns[c].status == CONN_NONE then Handle(Enqueue(k, c), outs).k else k;
      if k1.conns[c].upc == CONN_WORKING then Put(k1, c, k1.conns[c].(upSend := true)) else k1
  }

  /** x_send_cb after its send loop. */
  function ClientSent(k: Control, c: nat, res: SendOutcome, outs: seq<ConnectOutcome>): Control
    requires c in k.conns
  {
    match res
    case SendError => EventClose(k, c, outs)
    case SendAgain => k
    case SendDry =>
      if k.conns[c].upc == CONN_CLOSE then EventClose(k, c, outs)
      else Put(k, c, k.conns[c].(eSend := false))
  }

  /** x_upstream_connected_cb; `ok` tells whether the pending socket error is zero. */
  function UpstreamConnected(k: Control, c: nat, ok: bool, outs: seq<ConnectOutcome>): Control
    requires c in k.conns
  {
    if !ok then Final(k, c, outs).k
    else
      var v := k.conns[c];
      var timeout := if v.peer.Some? && v.peer.value < |k.cf.upTimeouts|
                     then k.cf.upTimeouts[v.peer.value] as real else 0.0;
      Put(k, c, v.(upConnected := false, upSend := true, upTimer := TimerAgain(k.now, timeout),
                   upc := CONN_WORKING))
  }

  /** x_upstream_recv_cb after its receive loop. */
  function UpstreamReceived(k: Control, c: nat, ok: bool, outs: seq<ConnectOutcome>): Control
    requires c in k.conns
  {
    if !ok then Final(k, c, outs).k
    else Put(k, c, k.conns[c].(eSend := true))
  }

  /** x_upstream_send_cb after its send loop: unlike the client side, it stops its watcher on
      EAGAIN too. */
  function UpstreamSent(k: Control, c: nat, res: SendOutcome, outs: seq<ConnectOutcome>): Control
    requires c in k.conns
  {
    if res == SendError then Final(k, c, outs).k
    else Put(k, c, k.conns[c].(upSend := false))
  }

  /** x_upstream_timeout_cb */
  function UpstreamTimeout(k: Control, c: nat, outs: seq<ConnectOutcome>): Control
    requires c in k.conns
  {
    var v := k.conns[c];
    var k1 := if v.upc != CONN_CLOSE then Put(k, c, v.(upc := CONN_TIMEOUT)) else k;
    var k2 := Final(k1, c, outs).k;
    Put(k2, c, k2.conns[c].(upTimer := None))
  }

  // ---------- steps ----------

  datatype Signal =
    | NewClient
    | ClientReadable(c: nat, ok: bool)
    | ClientWritable(c: nat, sent: SendOutcome)
    | AccessTimer(c: nat)
    | PeerConnected(c: nat, ok: bool)
    | PeerReadable(c: nat, ok: bool)
    | PeerWritable(c: nat, sent: SendOutcome)
    | PeerTimer(c: nat)
    | Tick(t: real)

  predicate Due(timer: Option<real>, now: real) {
    timer.Some? && timer.value <= now
  }

  predicate NotPast(timer: Option<real>, t: real) {
    timer.Some? ==> t <= timer.value
  }

  /** A watcher can fire only while it is started, a timer only at its deadline, and time does not
      pass the deadline of an active timer.  Nothing is said once freed memory was touched. */
  ghost predicate Enabled(k: Control, sig: Signal) {
    && !k.fault
    && match sig
       case NewClient => true
       case ClientReadable(c, _) => c in k.conns && k.conns[c].eRecv
       case ClientWritable(c, _) => c in k.conns && k.conns[c].eSend
       case AccessTimer(c) => c in k.conns && Due(k.conns[c].eTimer, k.now)
       case PeerConnected(c, _) => c in k.conns && k.conns[c].upConnected
       case PeerReadable(c, _) => c in k.conns && k.conns[c].upRecv
       case PeerWritable(c, _) => c in k.conns && k.conns[c].upSend
       case PeerTimer(c) => c in k.conns && Due(k.conns[c].upTimer, k.now)
       case Tick(t) =>
         k.now <= t && forall c :: c in k.conns ==> NotPast(k.conns[c].eTimer, t) && NotPast(k.conns[c].upTimer, t)
  }

  ghost function React(k: Control, sig: Signal, outs: seq<ConnectOutcome>): Control
    requires Enabled(k, sig)
  {
    match sig
    case NewClient => Accept(k)
    case ClientReadable(c, ok) => ClientReceived(k, c, ok, outs)
    case ClientWritable(c, res) => ClientSent(k, c, res, outs)
    case AccessTimer(c) => AccessTimeout(k, c, outs)
    case PeerConnected(c, ok) => UpstreamConnected(k, c, ok, outs)
    case PeerReadable(c, ok) => UpstreamReceived(k, c, ok, outs)
    case PeerWritable(c, res) => UpstreamSent(k, c, res, outs)
    case PeerTimer(c) => UpstreamTimeout(k, c, outs)
    case Tick(t) => k.(now := t)
  }
}
