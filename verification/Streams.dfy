/** What every step keeps of the bytes: stream integrity, wakeups, draining before a close. */
module Streams {
  import opened Common
  import opened Admission
  import opened AdmissionInvariant
  import opened ConnectionMoves
  import opened Evolution
  import Nio
  import opened Pipe
  import opened Proxy

  /** The bytes sent are a prefix of the bytes committed, which are a prefix of the bytes received; what
      has been counted as sent, followed by what the chain still holds, is what was committed. */
  ghost predicate FlowOk(f: Flow, cap: nat) {
    && Shape(f.chain, cap)
    && f.inn == f.out + Unread(f.chain)
    && f.out <= f.wire
    && f.wire <= f.inn
    && f.inn <= f.src
  }

  /** What the state of a connection says about its bytes. */
  ghost predicate Agree(v: Conn, fs: Flows) {
    && (v.status != CONN_CLOSE ==> fs.up.src == fs.up.inn && fs.down.wire == fs.down.out)
    && (Open(v.upc) ==> fs.down.src == fs.down.inn && fs.up.wire == fs.up.out)
    && (Early(v) ==> fs.down == NO_FLOW && fs.up.out == [] && fs.up.wire == [])
    && (v.status != CONN_CLOSE && Unread(fs.down.chain) != [] ==> v.eSend)
  }

  ghost predicate FlowsOk(s: State) {
    && s.d.flows.Keys == s.k.conns.Keys
    && forall c :: c in s.d.flows ==>
         FlowOk(s.d.flows[c].up, s.d.cap) && FlowOk(s.d.flows[c].down, s.d.cap) && Agree(s.k.conns[c], s.d.flows[c])
  }

  lemma NoFlowOk(cap: nat)
    ensures FlowOk(NO_FLOW, cap)
  {
  }

  lemma FilledOk(f: Flow, d: Data, rx: seq<Nio.RecvEvent>)
    requires FlowOk(f, d.cap) && f.src == f.inn
    ensures var r := FillOf(d, f, rx); var g := Filled(f, r);
            && FlowOk(g, d.cap)
            && g.out == f.out && g.wire == f.wire
            && (r.ok ==> g.src == g.inn)
  {
    FillRefines(f.chain, d.pool, rx, d.cap);
    var r := FillOf(d, f, rx);
    ConcatAssoc(f.out, Unread(f.chain), r.got);
    assert r.ok ==> f.src + r.got + r.lost == f.inn + r.got;
  }

  /** Some of the unread bytes move on, and perhaps more of them reach the socket. */
  lemma Onward(out: seq<Byte>, sent: seq<Byte>, unread: seq<Byte>, over: seq<Byte>)
    requires over <= unread
    ensures out + (sent + unread) == (out + sent) + unread
    ensures out + sent <= out + sent + over <= out + (sent + unread)
  {
    ConcatAssoc(out, sent, unread);
    assert unread == over + unread[|over|..];
    ConcatAssoc(out + sent, over, unread[|over|..]);
  }

  lemma DrainedOk(f: Flow, d: Data, tx: seq<Nio.SendEvent>)
    requires FlowOk(f, d.cap) && f.wire == f.out
    ensures var r := DrainOf(d, f, tx); var g := Drained(f, r);
            && FlowOk(g, d.cap)
            && g.src == f.src && g.inn == f.inn
            && (r.end != SendError ==> g.wire == g.out)
            && (r.end == SendDry <==> Unread(g.chain) == [])
            && (f == NO_FLOW ==> g == NO_FLOW)
  {
    var r := DrainRefines(f.chain, d.pool, tx, d.cap);
    Onward(f.out, r.sent, Unread(r.chain), r.over);
  }

  lemma AgreeEvolves(v: Conn, v': Conn, fs: Flows)
    requires Agree(v, fs) && Evolves(v, v')
    ensures Agree(v', fs)
  {
  }

  /** A loop over one direction keeps the agreement, given how the control state reacts to its end. */
  lemma AgreeReceiving(v: Conn, v': Conn, fs: Flows, up: Flow, ok: bool)
    requires Agree(v, fs) && Evolves(v, v') && (!ok ==> v'.status == CONN_CLOSE)
    requires up.out == fs.up.out && up.wire == fs.up.wire && (ok ==> up.src == up.inn)
    ensures Agree(v', fs.(up := up))
  {
    AgreeEvolves(v, v', fs);
  }

  lemma AgreeSending(v: Conn, v': Conn, fs: Flows, down: Flow, end: SendOutcome)
    requires Agree(v, fs) && Evolves(if end == SendDry then v.(eSend := false) else v, v')
    requires v.eSend && (end == SendError ==> v'.status == CONN_CLOSE)
    requires down.src == fs.down.src && down.inn == fs.down.inn && (end != SendError ==> down.wire == down.out)
    requires end == SendDry ==> Unread(down.chain) == []
    requires fs.down == NO_FLOW ==> down == NO_FLOW
    ensures Agree(v', fs.(down := down))
  {
  }

  lemma AgreePeerReceiving(v: Conn, v': Conn, fs: Flows, down: Flow, ok: bool)
    requires Agree(v, fs) && Evolves(v, v') && !Early(v) && (!ok ==> v'.upc == CONN_CLOSE) && v'.eSend
    requires down.out == fs.down.out && down.wire == fs.down.wire && (ok ==> down.src == down.inn)
    requires v.status != CONN_CLOSE
    ensures Agree(v', fs.(down := down))
  {
  }

  lemma AgreePeerSending(v: Conn, v': Conn, fs: Flows, up: Flow, end: SendOutcome)
    requires Agree(v, fs) && Evolves(v, v') && !Early(v) && (end == SendError ==> v'.upc == CONN_CLOSE)
    requires up.src == fs.up.src && up.inn == fs.up.inn && (end != SendError ==> up.wire == up.out)
    ensures Agree(v', fs.(up := up))
  {
  }

  /** Whatever the control state makes of the signal, connection c goes on agreeing with its bytes. */
  ghost predicate Carries(v: Conn, sig: Signal, c: nat, fs': Flows, cap: nat) {
    && FlowOk(fs'.up, cap) && FlowOk(fs'.down, cap)
    && forall v' :: Reacts(sig, c, v, v') ==> Agree(v', fs')
  }

  lemma ReceivingCarries(v: Conn, fs: Flows, d: Data, c: nat, rx: seq<Nio.RecvEvent>)
    requires FlowOk(fs.up, d.cap) && FlowOk(fs.down, d.cap) && Agree(v, fs) && v.status != CONN_CLOSE
    ensures var r := FillOf(d, fs.up, rx);
            Carries(v, ClientReadable(c, r.ok), c, fs.(up := Filled(fs.up, r)), d.cap)
  {
    var r := FillOf(d, fs.up, rx);
    FilledOk(fs.up, d, rx);
    forall v' | Reacts(ClientReadable(c, r.ok), c, v, v') ensures Agree(v', fs.(up := Filled(fs.up, r))) {
      AgreeReceiving(v, v', fs, Filled(fs.up, r), r.ok);
    }
  }

  lemma SendingCarries(v: Conn, fs: Flows, d: Data, c: nat, tx: seq<Nio.SendEvent>)
    requires FlowOk(fs.up, d.cap) && FlowOk(fs.down, d.cap) && Agree(v, fs) && v.status != CONN_CLOSE && v.eSend
    ensures var r := DrainOf(d, fs.down, tx);
            Carries(v, ClientWritable(c, r.end), c, fs.(down := Drained(fs.down, r)), d.cap)
  {
    var r := DrainOf(d, fs.down, tx);
    DrainedOk(fs.down, d, tx);
    forall v' | Reacts(ClientWritable(c, r.end), c, v, v') ensures Agree(v', fs.(down := Drained(fs.down, r))) {
      AgreeSending(v, v', fs, Drained(fs.down, r), r.end);
    }
  }

  lemma PeerReceivingCarries(v: Conn, fs: Flows, d: Data, c: nat, rx: seq<Nio.RecvEvent>)
    requires FlowOk(fs.up, d.cap) && FlowOk(fs.down, d.cap) && Agree(v, fs)
    requires v.status == CONN_WORKING && Open(v.upc)
    ensures var r := FillOf(d, fs.down, rx);
            Carries(v, PeerReadable(c, r.ok), c, fs.(down := Filled(fs.down, r)), d.cap)
  {
    var r := FillOf(d, fs.down, rx);
    FilledOk(fs.down, d, rx);
    forall v' | Reacts(PeerReadable(c, r.ok), c, v, v') ensures Agree(v', fs.(down := Filled(fs.down, r))) {
      AgreePeerReceiving(v, v', fs, Filled(fs.down, r), r.ok);
    }
  }

  lemma PeerSendingCarries(v: Conn, fs: Flows, d: Data, c: nat, tx: seq<Nio.SendEvent>)
    requires FlowOk(fs.up, d.cap) && FlowOk(fs.down, d.cap) && Agree(v, fs)
    requires v.status == CONN_WORKING && Open(v.upc)
    ensures var r := DrainOf(d, fs.up, tx);
            Carries(v, PeerWritable(c, r.end), c, fs.(up := Drained(fs.up, r)), d.cap)
  {
    var r := DrainOf(d, fs.up, tx);
    DrainedOk(fs.up, d, tx);
    forall v' | Reacts(PeerWritable(c, r.end), c, v, v') ensures Agree(v', fs.(up := Drained(fs.up, r))) {
      AgreePeerSending(v, v', fs, Drained(fs.up, r), r.end);
    }
  }

  lemma IdleCarries(v: Conn, fs: Flows, cap: nat, sig: Signal, c: nat)
    requires FlowOk(fs.up, cap) && FlowOk(fs.down, cap) && Agree(v, fs) && sig != ClientWritable(c, SendDry)
    ensures Carries(v, sig, c, fs, cap)
  {
    forall v' | Reacts(sig, c, v, v') ensures Agree(v', fs) {
      AgreeEvolves(v, v', fs);
    }
  }

  /** What an enabled signal tells about the connection whose watcher fired. */
  ghost predicate Awake(k: Control, sig: Signal) {
    match sig
    case ClientReadable(c, _) => c in k.conns && k.conns[c].status != CONN_CLOSE
    case ClientWritable(c, _) => c in k.conns && k.conns[c].status != CONN_CLOSE && k.conns[c].eSend
    case PeerReadable(c, _) => c in k.conns && k.conns[c].status == CONN_WORKING && Open(k.conns[c].upc)
    case PeerWritable(c, _) => c in k.conns && k.conns[c].status == CONN_WORKING && Open(k.conns[c].upc)
    case AccessTimer(c) => c in k.conns
    case _ => true
  }

  lemma EnabledAwake(k: Control, sig: Signal)
    requires Inv(k) && Enabled(k, sig)
    ensures Awake(k, sig)
  {
    match sig
    case ClientReadable(c, _) => assert ConnOk(k.cf, k.now, k.conns[c]);
    case ClientWritable(c, _) => assert ConnOk(k.cf, k.now, k.conns[c]);
    case PeerReadable(c, _) => assert ConnOk(k.cf, k.now, k.conns[c]) && SettledConn(k.conns[c]);
    case PeerWritable(c, _) => assert ConnOk(k.cf, k.now, k.conns[c]) && SettledConn(k.conns[c]);
    case _ =>
  }

  /** What an event does to the bytes of all connections. */
  ghost predicate Carriage(k: Control, d: Data, sig: Signal, d': Data) {
    && d'.cap == d.cap
    && d'.flows.Keys == (if sig.NewClient? && k.cCount < k.cf.accessMax then d.flows.Keys + {k.accepted}
                         else if sig.AccessTimer? then d.flows.Keys - {sig.c} else d.flows.Keys)
    && (forall c :: c in d'.flows && c in k.conns ==> Carries(k.conns[c], sig, c, d'.flows[c], d.cap))
    && (forall c :: c in d'.flows && c !in k.conns ==> d'.flows[c] == Flows(NO_FLOW, NO_FLOW))
  }

  ghost predicate Targets(e: Event, c: nat) {
    match e
    case Receiving(x, _) => x == c
    case Sending(x, _) => x == c
    case PeerReceiving(x, _) => x == c
    case PeerSending(x, _) => x == c
    case _ => false
  }

  lemma TransferTarget(k: Control, d: Data, e: Event, c: nat)
    requires FlowsOk(State(k, d)) && Awake(k, SignalOf(d, e)) && c in k.conns && Targets(e, c)
    ensures Carries(k.conns[c], SignalOf(d, e), c, Transfer(k, d, e).flows[c], d.cap)
  {
    match e
    case Receiving(_, rx) => ReceivingCarries(k.conns[c], d.flows[c], d, c, rx);
    case Sending(_, tx) => SendingCarries(k.conns[c], d.flows[c], d, c, tx);
    case PeerReceiving(_, rx) => PeerReceivingCarries(k.conns[c], d.flows[c], d, c, rx);
    case PeerSending(_, tx) => PeerSendingCarries(k.conns[c], d.flows[c], d, c, tx);
  }

  lemma TransferOthers(k: Control, d: Data, e: Event, c: nat)
    requires !Targets(e, c) && c in d.flows && c in Transfer(k, d, e).flows
    requires e.Accepting? ==> c != k.accepted
    ensures Transfer(k, d, e).flows[c] == d.flows[c] && SignalOf(d, e) != ClientWritable(c, SendDry)
  {
  }

  lemma TransferShape(k: Control, d: Data, e: Event)
    requires Awake(k, SignalOf(d, e)) && d.flows.Keys == k.conns.Keys && k.accepted !in k.conns
    ensures var d', sig := Transfer(k, d, e), SignalOf(d, e);
            && d'.cap == d.cap
            && d'.flows.Keys == (if sig.NewClient? && k.cCount < k.cf.accessMax then d.flows.Keys + {k.accepted}
                                 else if sig.AccessTimer? then d.flows.Keys - {sig.c} else d.flows.Keys)
            && (forall c :: c in d'.flows && c !in k.conns ==> d'.flows[c] == Flows(NO_FLOW, NO_FLOW))
  {
  }

  lemma TransferCarriage(k: Control, d: Data, e: Event, sig: Signal, d': Data)
    requires FlowsOk(State(k, d)) && Awake(k, sig) && k.accepted !in k.conns
    requires sig == SignalOf(d, e) && d' == Transfer(k, d, e)
    ensures Carriage(k, d, sig, d')
  {
    TransferShape(k, d, e);
    forall c | c in d'.flows && c in k.conns ensures Carries(k.conns[c], sig, c, d'.flows[c], d.cap) {
      if Targets(e, c) {
        TransferTarget(k, d, e, c);
      } else {
        TransferOthers(k, d, e, c);
        IdleCarries(k.conns[c], d.flows[c], d.cap, sig, c);
      }
    }
  }

  lemma FlowsKeep(k: Control, d: Data, sig: Signal, k': Control, d': Data)
    requires FlowsOk(State(k, d)) && Reaction(k, sig, k') && Carriage(k, d, sig, d')
    ensures FlowsOk(State(k', d'))
  {
    NoFlowOk(d.cap);
    forall c | c in d'.flows
      ensures FlowOk(d'.flows[c].up, d.cap) && FlowOk(d'.flows[c].down, d.cap) && Agree(k'.conns[c], d'.flows[c])
    {
      if c in k.conns {
        assert Carries(k.conns[c], sig, c, d'.flows[c], d.cap);
      }
    }
  }

  /** Every step keeps the agreement between the bytes and the control state. */
  lemma NextFlows(s: State, step: Step)
    requires Inv(s.k) && FlowsOk(s) && Proxy.Ready(s, step.e)
    ensures FlowsOk(Next(s, step))
  {
    ReactReaction(s.k, SignalOf(s.d, step.e), step.outs);
    EnabledAwake(s.k, SignalOf(s.d, step.e));
    var s' := Next(s, step);
    TransferCarriage(s.k, s.d, step.e, SignalOf(s.d, step.e), s'.d);
    FlowsKeep(s.k, s.d, SignalOf(s.d, step.e), s'.k, s'.d);
  }
}
