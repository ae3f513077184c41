/** Whole runs of the proxy, bytes included: any sequence of enabled callbacks with any answers of
    the sockets. */
module ProxyRuns {
  import opened Common
  import opened Admission
  import opened AdmissionInvariant
  import opened AdmissionSteps
  import opened ConnectionMoves
  import opened Evolution
  import ControlRuns
  import Nio
  import opened BufPool
  import opened Pipe
  import opened Proxy
  import opened Streams
  import opened Ownership

  ghost predicate Sound(s: State) {
    Inv(s.k) && FlowsOk(s) && Owned(s.d)
  }

  lemma StartSound(cf: Conf, cap: nat)
    requires cap > 0
    ensures Sound(Start(cf, cap))
  {
    InitInv(cf);
    StartOwned(cf, cap);
  }

  lemma AcceptedUnused(k: Control)
    requires Inv(k)
    ensures k.accepted !in k.conns
  {
  }

  lemma NextSound(s: State, step: Step)
    requires Sound(s) && Proxy.Ready(s, step.e)
    ensures Sound(Next(s, step))
  {
    ReactKeeps(s.k, SignalOf(s.d, step.e), step.outs);
    NextFlows(s, step);
    AcceptedUnused(s.k);
    TransferOwned(s.k, s.d, step.e);
  }

  lemma {:induction false} ExecSound(s: State, run: seq<Step>)
    requires Sound(s) && Legal(s, run)
    ensures Sound(Exec(s, run))
    decreases |run|
  {
    if run != [] {
      NextSound(s, run[0]);
      ExecSound(Next(s, run[0]), run[1..]);
    }
  }

  /** The control state of a run with bytes goes through a run of the control state, so everything
      shown of those runs holds here. */
  lemma {:induction false} ControlRunOf(s: State, run: seq<Step>) returns (moves: seq<ControlRuns.Move>)
    requires Legal(s, run)
    ensures |moves| == |run|
    ensures ControlRuns.Legal(s.k, moves) && ControlRuns.Exec(s.k, moves) == Exec(s, run).k
    decreases |run|
  {
    moves := [];
    if run != [] {
      var rest := ControlRunOf(Next(s, run[0]), run[1..]);
      moves := [ControlRuns.Move(SignalOf(s.d, run[0].e), run[0].outs)] + rest;
      assert moves[1..] == rest;
    }
  }

  // ---------- streams ----------

  /** For every connection, in both directions and after every run: what has been counted as sent,
      followed by the unread bytes of the buffer chain, is what was committed; and the destination has
      got a prefix of the source's stream, in order and without repetition. */
  lemma StreamIntegrity(cf: Conf, cap: nat, run: seq<Step>, c: nat)
    requires cap > 0 && Legal(Start(cf, cap), run) && c in Exec(Start(cf, cap), run).d.flows
    ensures var fs := Exec(Start(cf, cap), run).d.flows[c];
            forall f :: f == fs.up || f == fs.down ==>
              f.out + Unread(f.chain) == f.inn && f.out <= f.wire && f.wire <= f.inn && f.inn <= f.src
  {
    StartSound(cf, cap);
    ExecSound(Start(cf, cap), run);
  }

  /** As long as neither end has failed, nothing is lost and nothing is sent uncounted. */
  lemma NothingLostWhileOpen(cf: Conf, cap: nat, run: seq<Step>, c: nat)
    requires cap > 0 && Legal(Start(cf, cap), run) && c in Exec(Start(cf, cap), run).d.flows
    ensures var s := Exec(Start(cf, cap), run);
            && c in s.k.conns
            && (s.k.conns[c].status != CONN_CLOSE ==>
                  s.d.flows[c].up.src == s.d.flows[c].up.inn && s.d.flows[c].down.wire == s.d.flows[c].down.out)
            && (Open(s.k.conns[c].upc) ==>
                  s.d.flows[c].down.src == s.d.flows[c].down.inn && s.d.flows[c].up.wire == s.d.flows[c].up.out)
  {
    StartSound(cf, cap);
    ExecSound(Start(cf, cap), run);
  }

  /** The client's bytes come from the socket of the client and go to that of the server, and the server's
      bytes the other way: no event takes bytes from, or gives them to, any other end. */
  ghost predicate OwnSockets(e: Event, c: nat, fs: Flows, fs': Flows) {
    && fs.up.src <= fs'.up.src && fs.up.wire <= fs'.up.wire
    && fs.down.src <= fs'.down.src && fs.down.wire <= fs'.down.wire
    && (fs'.up.src != fs.up.src ==> e.Receiving? && e.c == c && fs'.up.src[|fs.up.src|..] <= Nio.Stream(e.rx))
    && (fs'.up.wire != fs.up.wire ==> e.PeerSending? && e.c == c)
    && (fs'.down.src != fs.down.src ==>
          e.PeerReceiving? && e.c == c && fs'.down.src[|fs.down.src|..] <= Nio.Stream(e.rx))
    && (fs'.down.wire != fs.down.wire ==> e.Sending? && e.c == c)
  }

  lemma FilledFrom(f: Flow, d: Data, rx: seq<Nio.RecvEvent>)
    requires FlowOk(f, d.cap)
    ensures var g := Filled(f, FillOf(d, f, rx));
            f.src <= g.src && g.src[|f.src|..] <= Nio.Stream(rx) && g.wire == f.wire
  {
    FillRefines(f.chain, d.pool, rx, d.cap);
    var r := FillOf(d, f, rx);
    assert f.src + r.got + r.lost == f.src + (r.got + r.lost);
  }

  lemma DrainedInto(f: Flow, d: Data, tx: seq<Nio.SendEvent>)
    ensures var g := Drained(f, DrainOf(d, f, tx)); f.wire <= g.wire && g.src == f.src
  {
    var r := DrainOf(d, f, tx);
    assert f.wire + r.sent + r.over == f.wire + (r.sent + r.over);
  }

  /** After any run every event keeps to that. */
  lemma EndToEnd(cf: Conf, cap: nat, run: seq<Step>, step: Step, c: nat)
    requires cap > 0 && Legal(Start(cf, cap), run) && Proxy.Ready(Exec(Start(cf, cap), run), step.e)
    requires var s := Exec(Start(cf, cap), run); c in s.d.flows && c in Next(s, step).d.flows
    ensures var s := Exec(Start(cf, cap), run); OwnSockets(step.e, c, s.d.flows[c], Next(s, step).d.flows[c])
  {
    StartSound(cf, cap);
    ExecSound(Start(cf, cap), run);
    var s := Exec(Start(cf, cap), run);
    AcceptedUnused(s.k);
    hide Exec, Start, Inv, React, Owned, Legal, Proxy.Ready;
    FlowSockets(s.k, s.d, step.e, c);
  }

  lemma FlowSockets(k: Control, d: Data, e: Event, c: nat)
    requires c in d.flows && FlowOk(d.flows[c].up, d.cap) && FlowOk(d.flows[c].down, d.cap)
    requires k.accepted !in d.flows && c in Transfer(k, d, e).flows
    ensures OwnSockets(e, c, d.flows[c], Transfer(k, d, e).flows[c])
  {
    if !Targets(e, c) {
      TransferOthers(k, d, e, c);
    } else {
      match e
      case Receiving(_, rx) => FilledFrom(d.flows[c].up, d, rx);
      case PeerReceiving(_, rx) => FilledFrom(d.flows[c].down, d, rx);
      case Sending(_, tx) => DrainedInto(d.flows[c].down, d, tx);
      case PeerSending(_, tx) => DrainedInto(d.flows[c].up, d, tx);
    }
  }

  // ---------- buffers ----------

  /** After every run each buffer ever made is at exactly one place, the pool or one direction of one
      unfreed connection, and the counters of the pool are right. */
  lemma ExclusiveOwnership(cf: Conf, cap: nat, run: seq<Step>)
    requires cap > 0 && Legal(Start(cf, cap), run)
    ensures var d := Exec(Start(cf, cap), run).d;
            && (forall x: nat, p, q :: Held(d, x, p) && Held(d, x, q) ==> p == q)
            && (forall x: nat :: x < d.pool.made <==> Somewhere(d, x))
            && (forall p :: Distinct(Holding(d, p)))
            && d.pool.n == |d.pool.free| && d.pool.max == d.pool.made
            && d.flows.Keys == Exec(Start(cf, cap), run).k.conns.Keys
  {
    StartSound(cf, cap);
    ExecSound(Start(cf, cap), run);
  }

  lemma AllBuffersReturn(cf: Conf, cap: nat, run: seq<Step>)
    requires cap > 0 && Legal(Start(cf, cap), run) && Exec(Start(cf, cap), run).k.conns == map[]
    ensures var p := Exec(Start(cf, cap), run).d.pool; p.n == p.max == p.made
  {
    StartSound(cf, cap);
    ExecSound(Start(cf, cap), run);
    assert Exec(Start(cf, cap), run).d.flows.Keys == {};
    AllReturned(Exec(Start(cf, cap), run).d);
  }

  // ---------- growth of the pool ----------

  /** The buffers that some chain holds. */
  ghost function InChains(d: Data): set<nat> {
    set x | x in Below(d.pool.made) && exists p :: p != InPool && Held(d, x, p)
  }

  /** The chains hold what has been made and is not in the pool. */
  lemma ChainsHold(d: Data)
    requires Owned(d)
    ensures |InChains(d)| == Out(d.pool)
  {
    assert Distinct(Holding(d, InPool));
    MembersCount(d.pool.free);
    BelowCount(d.pool.made);
    var made := Below(d.pool.made);
    forall x: nat ensures x in made <==> x in InChains(d) || x in Members(d.pool.free) {
      OneOrOther(d, x);
    }
    forall x | x in InChains(d) ensures x !in Members(d.pool.free) {
      OneOrOther(d, x);
    }
    hide InChains, Members;
    assert made == InChains(d) + Members(d.pool.free) && InChains(d) !! Members(d.pool.free);
  }

  lemma OneOrOther(d: Data, x: nat)
    requires Owned(d)
    ensures x < d.pool.made <==> x in InChains(d) || x in d.pool.free
    ensures x in InChains(d) ==> x !in d.pool.free
  {
    BelowCount(d.pool.made);
    assert x in d.pool.free <==> Held(d, x, InPool);
    if x < d.pool.made {
      assert Somewhere(d, x);
    }
  }

  /** The largest number of buffers that chains hold after any step of the run. */
  ghost function Peak(s: State, run: seq<Step>): int
    requires Legal(s, run)
    decreases |run|
  {
    var now := |InChains(s.d)|;
    if run == [] then now else Max(now, Peak(Next(s, run[0]), run[1..]))
  }

  lemma TransferGrows(k: Control, d: Data, e: Event)
    requires PoolOk(d.pool)
    ensures var p := Transfer(k, d, e).pool; p.max <= Max(d.pool.max, 2 * (Out(p) - 1))
  {
    match e
    case Receiving(c, rx) => FillGrows(FlowsOf(d, c).up.chain, d.pool, rx, d.cap);
    case Sending(c, tx) => DrainMakesNone(FlowsOf(d, c).down.chain, d.pool, tx, d.cap);
    case PeerReceiving(c, rx) => FillGrows(FlowsOf(d, c).down.chain, d.pool, rx, d.cap);
    case PeerSending(c, tx) => DrainMakesNone(FlowsOf(d, c).up.chain, d.pool, tx, d.cap);
    case Expiring(c) =>
      var ids := Ids(FlowsOf(d, c).up.chain);
      FreeAllOk(d.pool, ids);
      FreeAllOk(FreeAll(d.pool, ids), Ids(FlowsOf(d, c).down.chain));
    case _ =>
  }

  lemma NextGrows(s: State, step: Step)
    requires Sound(s) && Proxy.Ready(s, step.e)
    ensures var d := Next(s, step).d; d.pool.max <= Max(s.d.pool.max, 2 * (|InChains(d)| - 1))
  {
    NextSound(s, step);
    hide InChains;
    TransferGrows(s.k, s.d, step.e);
    ChainsHold(Next(s, step).d);
  }

  lemma {:induction false} GrowthFrom(s: State, run: seq<Step>, start: nat, peak: int)
    requires Sound(s) && Legal(s, run) && s.d.pool.max <= Max(start, 2 * (peak - 1))
    ensures Exec(s, run).d.pool.max <= Max(start, 2 * (Max(peak, Peak(s, run)) - 1))
    decreases |run|
  {
    hide Sound, Next, InChains;
    if run != [] {
      var s' := Next(s, run[0]);
      NextSound(s, run[0]);
      NextGrows(s, run[0]);
      PeakNow(s', run[1..]);
      GrowthFrom(s', run[1..], start, Max(peak, |InChains(s'.d)|));
    }
  }

  lemma PeakNow(s: State, run: seq<Step>)
    requires Legal(s, run)
    ensures |InChains(s.d)| <= Peak(s, run)
  {
  }

  /** The pool never becomes larger than twice one less than the most buffers that have ever been in the
      chains of connections, and the counters are right. */
  lemma PoolGrowth(cf: Conf, cap: nat, run: seq<Step>)
    requires cap > 0 && Legal(Start(cf, cap), run)
    ensures var p := Exec(Start(cf, cap), run).d.pool;
            && p.max <= Max(1, 2 * (Peak(Start(cf, cap), run) - 1))
            && p.n + |InChains(Exec(Start(cf, cap), run).d)| == p.max
  {
    StartSound(cf, cap);
    ExecSound(Start(cf, cap), run);
    GrowthFrom(Start(cf, cap), run, 1, 0);
    PeakNow(Start(cf, cap), run);
    ChainsHold(Exec(Start(cf, cap), run).d);
  }

  // ---------- wakeups ----------

  /** A client that is not closed is woken for every unsent byte and for the close of the server. */
  lemma NoLostWakeup(cf: Conf, cap: nat, run: seq<Step>, c: nat)
    requires cap > 0 && Legal(Start(cf, cap), run) && c in Exec(Start(cf, cap), run).k.conns
    ensures var s := Exec(Start(cf, cap), run); var v := s.k.conns[c];
            c in s.d.flows &&
            (v.status != CONN_CLOSE && (Unread(s.d.flows[c].down.chain) != [] || v.upc == CONN_CLOSE) ==> v.eSend)
  {
    StartSound(cf, cap);
    ExecSound(Start(cf, cap), run);
    var s := Exec(Start(cf, cap), run);
    assert ConnOk(s.k.cf, s.k.now, s.k.conns[c]);
  }

  /** Bytes wait for the connected server and nothing will send them. */
  ghost predicate Stalled(s: State, c: nat) {
    && c in s.k.conns && c in s.d.flows
    && s.k.conns[c].upc == CONN_WORKING && !s.k.conns[c].upSend && Unread(s.d.flows[c].up.chain) != []
  }

  /** The exit of x_upstream_send_cb on EAGAIN. */
  ghost predicate GivesUp(s: State, e: Event, c: nat) {
    SignalOf(s.d, e) == PeerWritable(c, SendAgain)
  }

  lemma UpUntouched(k: Control, d: Data, e: Event, c: nat)
    requires c in d.flows && c in Transfer(k, d, e).flows && k.accepted != c
    requires !(e.PeerSending? && e.c == c) && !(e.Receiving? && e.c == c)
    ensures Transfer(k, d, e).flows[c].up == d.flows[c].up
  {
    match e
    case Sending(x, tx) =>
    case PeerReceiving(x, rx) =>
    case _ =>
  }

  lemma UpSent(k: Control, d: Data, c: nat, tx: seq<Nio.SendEvent>)
    requires c in d.flows && FlowOk(d.flows[c].up, d.cap) && d.flows[c].up.wire == d.flows[c].up.out
    ensures var r := DrainOf(d, d.flows[c].up, tx); var up := Transfer(k, d, PeerSending(c, tx)).flows[c].up;
            r.end == SendDry <==> Unread(up.chain) == []
  {
    DrainedOk(d.flows[c].up, d, tx);
  }

  /** The wakeup towards the server, in the states of one connection. */
  lemma StallFrom(sig: Signal, c: nat, v: Conn, v': Conn, up: Flow, up': Flow)
    requires SenderMoves(sig, c, v, v')
    requires !(v.upc == CONN_WORKING && !v.upSend && Unread(up.chain) != [])
    requires !(sig.PeerWritable? && sig.c == c) && !(sig.ClientReadable? && sig.c == c) ==> up' == up
    requires sig.PeerWritable? && sig.c == c ==>
               v.upc == CONN_WORKING && (sig.sent == SendDry <==> Unread(up'.chain) == [])
    requires sig == PeerWritable(c, SendError) ==> v'.upc == CONN_CLOSE
    ensures v'.upc == CONN_WORKING && !v'.upSend && Unread(up'.chain) != [] <==> sig == PeerWritable(c, SendAgain)
  {
  }

  lemma SenderConnected(k: Control, c: nat, res: SendOutcome)
    requires Inv(k) && Enabled(k, PeerWritable(c, res))
    ensures k.conns[c].upc == CONN_WORKING
  {
    assert ConnOk(k.cf, k.now, k.conns[c]) && SettledConn(k.conns[c]);
  }

  lemma StallBytes(k: Control, d: Data, e: Event, c: nat, sig: Signal, d': Data)
    requires sig == SignalOf(d, e) && d' == Transfer(k, d, e)
    requires c in d.flows && k.accepted != c && sig != AccessTimer(c)
    requires sig.PeerWritable? && sig.c == c ==> FlowOk(d.flows[c].up, d.cap) && d.flows[c].up.wire == d.flows[c].up.out
    ensures c in d'.flows
    ensures !(sig.PeerWritable? && sig.c == c) && !(sig.ClientReadable? && sig.c == c) ==>
              d'.flows[c].up == d.flows[c].up
    ensures sig.PeerWritable? && sig.c == c ==> (sig.sent == SendDry <==> Unread(d'.flows[c].up.chain) == [])
  {
    if e.PeerSending? && e.c == c {
      UpSent(k, d, c, e.tx);
    } else if !(e.Receiving? && e.c == c) {
      UpUntouched(k, d, e, c);
    }
  }

  lemma StallAfter(k: Control, sig: Signal, outs: seq<ConnectOutcome>, c: nat, up: Flow, d': Data)
    requires Inv(k) && Enabled(k, sig) && c in k.conns && sig != AccessTimer(c) && c in d'.flows
    requires !(k.conns[c].upc == CONN_WORKING && !k.conns[c].upSend && Unread(up.chain) != [])
    requires !(sig.PeerWritable? && sig.c == c) && !(sig.ClientReadable? && sig.c == c) ==> d'.flows[c].up == up
    requires sig.PeerWritable? && sig.c == c ==>
               k.conns[c].upc == CONN_WORKING && (sig.sent == SendDry <==> Unread(d'.flows[c].up.chain) == [])
    ensures Stalled(State(React(k, sig, outs), d'), c) <==> sig == PeerWritable(c, SendAgain)
  {
    ReactSender(k, sig, outs, c);
    ReactReacts(k, sig, outs, c);
    StallFrom(sig, c, k.conns[c], React(k, sig, outs).conns[c], up, d'.flows[c].up);
  }

  /** After any run, a step loses the wakeup towards the server iff it takes that exit. */
  lemma StallIffGivesUp(cf: Conf, cap: nat, run: seq<Step>, step: Step, c: nat)
    requires cap > 0 && Legal(Start(cf, cap), run)
    requires var s := Exec(Start(cf, cap), run); Proxy.Ready(s, step.e) && c in s.k.conns && !Stalled(s, c)
    ensures var s := Exec(Start(cf, cap), run); Stalled(Next(s, step), c) <==> GivesUp(s, step.e, c)
  {
    StartSound(cf, cap);
    ExecSound(Start(cf, cap), run);
    hide Exec, Stalled, GivesUp, Next, Proxy.Ready;
    StallStep(Exec(Start(cf, cap), run), step, c);
  }

  /** The bytes of c towards the server after an event that does not free c. */
  lemma StallTarget(s: State, e: Event, c: nat)
    requires Inv(s.k) && FlowsOk(s) && Proxy.Ready(s, e) && c in s.k.conns && SignalOf(s.d, e) != AccessTimer(c)
    ensures var sig, d' := SignalOf(s.d, e), Transfer(s.k, s.d, e);
            && c in s.d.flows && c in d'.flows
            && (!(sig.PeerWritable? && sig.c == c) && !(sig.ClientReadable? && sig.c == c) ==>
                  d'.flows[c].up == s.d.flows[c].up)
            && (sig.PeerWritable? && sig.c == c ==>
                  s.k.conns[c].upc == CONN_WORKING && (sig.sent == SendDry <==> Unread(d'.flows[c].up.chain) == []))
  {
    var sig := SignalOf(s.d, e);
    AcceptedUnused(s.k);
    hide Inv, Transfer, SignalOf;
    if sig.PeerWritable? && sig.c == c {
      SenderConnected(s.k, c, sig.sent);
      assert Agree(s.k.conns[c], s.d.flows[c]);
    }
    StallBytes(s.k, s.d, e, c, sig, Transfer(s.k, s.d, e));
  }

  lemma StallStep(s: State, step: Step, c: nat)
    requires Inv(s.k) && FlowsOk(s) && Proxy.Ready(s, step.e) && c in s.k.conns && !Stalled(s, c)
    ensures Stalled(Next(s, step), c) <==> GivesUp(s, step.e, c)
  {
    hide Inv, React, Transfer, SignalOf, FlowsOk;
    var sig := SignalOf(s.d, step.e);
    if sig == AccessTimer(c) {
      ReactKeys(s.k, sig, step.outs);
    } else {
      StallTarget(s, step.e, c);
      StallAfter(s.k, sig, step.outs, c, s.d.flows[c].up, Transfer(s.k, s.d, step.e));
    }
  }

  /** In the run, x_upstream_send_cb never meets EAGAIN for connection c. */
  ghost predicate NeverGivesUp(s: State, run: seq<Step>, c: nat)
    requires Legal(s, run)
    decreases |run|
  {
    run == [] || (!GivesUp(s, run[0].e, c) && NeverGivesUp(Next(s, run[0]), run[1..], c))
  }

  /** A connection that has just been accepted has no upstream side yet. */
  lemma NewNotStalled(s: State, step: Step, c: nat)
    requires Inv(s.k) && Proxy.Ready(s, step.e) && c !in s.k.conns
    ensures !Stalled(Next(s, step), c)
  {
    ReactKeys(s.k, SignalOf(s.d, step.e), step.outs);
    if step.e.Accepting? {
      assert Next(s, step).k == Accept(s.k);
    }
  }

  lemma {:induction false} UnstalledFrom(s: State, run: seq<Step>, c: nat)
    requires Sound(s) && Legal(s, run) && !Stalled(s, c) && NeverGivesUp(s, run, c)
    ensures !Stalled(Exec(s, run), c)
    decreases |run|
  {
    if run != [] {
      NextSound(s, run[0]);
      if c in s.k.conns {
        StallStep(s, run[0], c);
      } else {
        NewNotStalled(s, run[0], c);
      }
      UnstalledFrom(Next(s, run[0]), run[1..], c);
    }
  }

  /** In a run without that exit, unsent bytes of a client whose server is connected always have a
      watcher that will send them. */
  lemma NoLostWakeupTowardsServer(cf: Conf, cap: nat, run: seq<Step>, c: nat)
    requires cap > 0 && Legal(Start(cf, cap), run) && NeverGivesUp(Start(cf, cap), run, c)
    ensures !Stalled(Exec(Start(cf, cap), run), c)
  {
    StartSound(cf, cap);
    UnstalledFrom(Start(cf, cap), run, c);
  }

  // ---------- draining ----------

  lemma DownSent(k: Control, d: Data, c: nat, tx: seq<Nio.SendEvent>)
    requires c in d.flows && FlowOk(d.flows[c].down, d.cap) && d.flows[c].down.wire == d.flows[c].down.out
    requires DrainOf(d, d.flows[c].down, tx).end == SendDry
    ensures var down := Transfer(k, d, Sending(c, tx)).flows[c].down;
            down.out == down.inn && down.wire == down.inn
  {
    DrainedOk(d.flows[c].down, d, tx);
  }

  /** After any run, when x_send_cb closes the client because the server has closed, every committed
      byte has been sent to it. */
  lemma DrainBeforeClose(cf: Conf, cap: nat, run: seq<Step>, step: Step)
    requires cap > 0 && Legal(Start(cf, cap), run)
    requires var s := Exec(Start(cf, cap), run);
             && Proxy.Ready(s, step.e) && step.e.Sending? && s.k.conns[step.e.c].upc == CONN_CLOSE
             && SignalOf(s.d, step.e) == ClientWritable(step.e.c, SendDry)
    ensures var c := step.e.c; var s' := Next(Exec(Start(cf, cap), run), step);
            && c in s'.k.conns && s'.k.conns[c].status == CONN_CLOSE
            && c in s'.d.flows && s'.d.flows[c].down.out == s'.d.flows[c].down.inn
            && s'.d.flows[c].down.wire == s'.d.flows[c].down.inn
  {
    StartSound(cf, cap);
    ExecSound(Start(cf, cap), run);
    DrainedAtClose(Exec(Start(cf, cap), run), step);
  }

  lemma DrainedAtClose(s: State, step: Step)
    requires Inv(s.k) && FlowsOk(s)
    requires Proxy.Ready(s, step.e) && step.e.Sending? && s.k.conns[step.e.c].upc == CONN_CLOSE
    requires SignalOf(s.d, step.e) == ClientWritable(step.e.c, SendDry)
    ensures var c := step.e.c; var s' := Next(s, step);
            && c in s'.k.conns && s'.k.conns[c].status == CONN_CLOSE
            && c in s'.d.flows && s'.d.flows[c].down.out == s'.d.flows[c].down.inn
            && s'.d.flows[c].down.wire == s'.d.flows[c].down.inn
  {
    var c := step.e.c;
    EnabledAwake(s.k, SignalOf(s.d, step.e));
    EventCloseKeeps(s.k, c, step.outs);
    DownSent(s.k, s.d, c, step.e.tx);
    SentState(s, step);
    hide Next, EventClose, Mid, Settled, Inv, Drain, DrainOf, Transfer, FlowsOk;
  }

  lemma SentState(s: State, step: Step)
    requires Proxy.Ready(s, step.e) && step.e.Sending? && s.k.conns[step.e.c].upc == CONN_CLOSE && step.e.c in s.d.flows
    requires SignalOf(s.d, step.e) == ClientWritable(step.e.c, SendDry)
    ensures Next(s, step)
         == State(EventClose(s.k, step.e.c, step.outs), Transfer(s.k, s.d, Sending(step.e.c, step.e.tx)))
    ensures step.e.c in Next(s, step).d.flows
  {
  }
}
