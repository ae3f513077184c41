/** How a callback changes the state of each single connection. */
module Evolution {
  import opened Admission
  import opened AdmissionInvariant
  import opened ControlRuns
  import opened ConnectionMoves

  /** A connection that has left the queue never goes back; its two sides never open again; and its
      client keeps being served until it is closed. */
  predicate Evolves(v: Conn, v': Conn) {
    Early(v) ||
    (&& !Early(v')
     && (v.status == CONN_CLOSE ==> v'.status == CONN_CLOSE)
     && (Open(v'.upc) ==> Open(v.upc))
     && (v'.status != CONN_CLOSE && v.eSend ==> v'.eSend))
  }

  /** Finding nothing left to send turns the sender of the client off, or closes the client. */
  function BeforeEvolving(v: Conn, sig: Signal, x: nat): Conn {
    if sig == ClientWritable(x, SendDry) then v.(eSend := false) else v
  }

  /** What a signal does to connection x, whose state goes from v to v'. */
  predicate Reacts(sig: Signal, x: nat, v: Conn, v': Conn) {
    && Evolves(BeforeEvolving(v, sig, x), v')
    && (sig == ClientReadable(x, false) ==> v'.status == CONN_CLOSE)
    && (sig == ClientWritable(x, SendError) ==> v'.status == CONN_CLOSE)
    && (sig == PeerReadable(x, false) ==> v'.upc == CONN_CLOSE)
    && (sig == PeerWritable(x, SendError) ==> v'.upc == CONN_CLOSE)
    && (sig.PeerReadable? && sig.c == x ==> v'.eSend)
  }

  lemma OwnReacts(k: Control, m: Move, x: nat, v: Conn, v': Conn)
    requires Enabled(k, m.sig) && Concerns(m.sig, x) && OwnMove(k, m, x, v, v')
    requires x in k.conns && k.conns[x] == v && ConnOk(k.cf, k.now, v) && SettledConn(v)
    requires Tries(SchedulerCall(k, m.sig), x) ==> Early(v)
    ensures Reacts(m.sig, x, v, v')
  {
  }

  lemma ReactReacts(k: Control, sig: Signal, outs: seq<ConnectOutcome>, x: nat)
    requires Inv(k) && Enabled(k, sig) && x in k.conns && sig != AccessTimer(x)
    ensures x in React(k, sig, outs).conns && Reacts(sig, x, k.conns[x], React(k, sig, outs).conns[x])
  {
    hide Inv, React, OwnMove, Reacts, Tries;
    MoveFacts(k, Move(sig, outs), x);
    if Concerns(sig, x) {
      OwnReacts(k, Move(sig, outs), x, k.conns[x], React(k, sig, outs).conns[x]);
    } else {
      OtherReacts(k, Move(sig, outs), x, k.conns[x], React(k, sig, outs).conns[x]);
    }
  }

  lemma OtherReacts(k: Control, m: Move, x: nat, v: Conn, v': Conn)
    requires Enabled(k, m.sig) && !Concerns(m.sig, x) && Awaits(SchedulerCall(k, m.sig), m.outs, x, v, v')
    requires Tries(SchedulerCall(k, m.sig), x) ==> Early(v)
    ensures Reacts(m.sig, x, v, v')
  {
    hide SchedulerCall;
  }

  lemma MoveFacts(k: Control, m: Move, x: nat)
    requires Inv(k) && Enabled(k, m.sig) && x in k.conns && m.sig != AccessTimer(x)
    ensures x in React(k, m.sig, m.outs).conns && Moves(k, m, x, k.conns[x], React(k, m.sig, m.outs).conns[x])
    ensures ConnOk(k.cf, k.now, k.conns[x]) && SettledConn(k.conns[x])
    ensures Tries(SchedulerCall(k, m.sig), x) ==> Early(k.conns[x])
  {
    ReactMoves(k, m, x);
    if Tries(SchedulerCall(k, m.sig), x) {
      TriesWaiting(k, m.sig, x);
    }
  }

  lemma NewClientReacts(k: Control)
    requires k.cCount < k.cf.accessMax
    ensures var v := Accept(k).conns[k.accepted];
            v.status == CONN_NONE && v.upc == CONN_NONE
  {
  }

  /** The effect of one callback on all connections. */
  ghost predicate Reaction(k: Control, sig: Signal, k': Control) {
    && k'.conns.Keys == (if sig.NewClient? && k.cCount < k.cf.accessMax then k.conns.Keys + {k.accepted}
                         else if sig.AccessTimer? then k.conns.Keys - {sig.c} else k.conns.Keys)
    && (forall x :: x in k.conns && x in k'.conns ==> Reacts(sig, x, k.conns[x], k'.conns[x]))
    && (forall x :: x in k'.conns && x !in k.conns ==>
          k'.conns[x].status == CONN_NONE && k'.conns[x].upc == CONN_NONE)
  }

  lemma ReactReaction(k: Control, sig: Signal, outs: seq<ConnectOutcome>)
    requires Inv(k) && Enabled(k, sig)
    ensures Reaction(k, sig, React(k, sig, outs))
  {
    var k' := React(k, sig, outs);
    ReactKeys(k, sig, outs);
    forall x | x in k.conns && x in k'.conns ensures Reacts(sig, x, k.conns[x], k'.conns[x]) {
      ReactReacts(k, sig, outs, x);
    }
    if sig.NewClient? && k.cCount < k.cf.accessMax {
      NewClientReacts(k);
    }
  }

  // ---------- the sender towards the server ----------

  /** How a signal leaves the watcher of the sender towards the server, when that side is connected. */
  predicate SenderMoves(sig: Signal, x: nat, v: Conn, v': Conn) {
    && (v'.upc == CONN_WORKING ==>
          if sig == PeerConnected(x, true) || (sig.ClientReadable? && sig.c == x) then v'.upSend
          else v.upc == CONN_WORKING && v'.upSend == (v.upSend && !(sig.PeerWritable? && sig.c == x)))
    && (sig == PeerWritable(x, SendAgain) ==> v'.upc == v.upc && !v'.upSend)
  }

  lemma OwnSenderMoves(k: Control, m: Move, x: nat, v: Conn, v': Conn)
    requires Enabled(k, m.sig) && Concerns(m.sig, x) && OwnMove(k, m, x, v, v')
    requires x in k.conns && k.conns[x] == v && ConnOk(k.cf, k.now, v) && SettledConn(v)
    ensures SenderMoves(m.sig, x, v, v')
  {
  }

  lemma OtherSenderMoves(k: Control, m: Move, x: nat, v: Conn, v': Conn)
    requires Enabled(k, m.sig) && !Concerns(m.sig, x) && Awaits(SchedulerCall(k, m.sig), m.outs, x, v, v')
    ensures SenderMoves(m.sig, x, v, v')
  {
    hide SchedulerCall;
  }

  lemma ReactSender(k: Control, sig: Signal, outs: seq<ConnectOutcome>, x: nat)
    requires Inv(k) && Enabled(k, sig) && x in k.conns && sig != AccessTimer(x)
    ensures x in React(k, sig, outs).conns && SenderMoves(sig, x, k.conns[x], React(k, sig, outs).conns[x])
  {
    hide Inv, React, OwnMove, SenderMoves, Tries;
    MoveFacts(k, Move(sig, outs), x);
    if Concerns(sig, x) {
      OwnSenderMoves(k, Move(sig, outs), x, k.conns[x], React(k, sig, outs).conns[x]);
    } else {
      OtherSenderMoves(k, Move(sig, outs), x, k.conns[x], React(k, sig, outs).conns[x]);
    }
  }
}
