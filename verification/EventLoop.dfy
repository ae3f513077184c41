/** libev's loop: the callback of a watcher that may fire is run, again and again. */
module EventLoop {
  import opened Common
  import opened Admission
  import opened AdmissionInvariant
  import opened AdmissionSteps
  import Nio
  import opened Buffers
  import opened Chains
  import opened Proxy
  import opened Listeners
  import opened Transfers
  import opened Callbacks

  ghost function StateOf(ln: Listener): State
    requires ln.pool.cap > 0
    reads *
  {
    State(ln.View(), ln.DataView())
  }

  /** The connection that an event is about. */
  function About(e: Event): Option<nat> {
    match e
    case Accepting => None
    case Passing(_) => None
    case _ => Some(e.c)
  }

  lemma ReadyLive(ln: Listener, e: Event)
    requires Intact(ln) && Ready(StateOf(ln), e)
    ensures About(e).Some? ==> var i := About(e).value;
              && i < |ln.all| && ln.Live(ln.all[i]) && ln.all[i].id == i
              && ln.View().conns[i] == ln.all[i].View()
  {
  }

  /** The memory of a live connection. */
  lemma Within(ln: Listener, c: Connection)
    requires ln.Valid() && ln.Live(c)
    ensures c in ln.all
    ensures c.pipe1 in Footprint(ln) && c.pipe2 in Footprint(ln) && ln.pool in Footprint(ln)
    ensures Region(c.pipe1.bufs) <= Footprint(ln) && Region(c.pipe2.bufs) <= Footprint(ln)
    ensures Region(ln.pool.free) <= Footprint(ln)
    ensures forall b :: b in c.pipe1.bufs || b in c.pipe2.bufs ==> b in Footprint(ln)
  {
    assert ln.all[c.id] == c;
    InFootprint(ln, Up(c.id));
    InFootprint(ln, Down(c.id));
    assert forall b :: b in c.pipe1.bufs ==> b in Region(c.pipe1.bufs);
    assert forall b :: b in c.pipe2.bufs ==> b in Region(c.pipe2.bufs);
  }

  /** The socket of the event will give the answers that the event says. */
  predicate Answers(e: Event, s: Nio.Socket)
    reads s
  {
    match e
    case Receiving(_, rx) => s.incoming == rx
    case PeerReceiving(_, rx) => s.incoming == rx
    case Sending(_, tx) => s.outgoing == tx
    case PeerSending(_, tx) => s.outgoing == tx
    case _ => true
  }

  // What the model does at each event.

  lemma NextReceived(s: State, c: nat, rx: seq<Nio.RecvEvent>, outs: seq<ConnectOutcome>, ok: bool)
    requires Ready(s, Receiving(c, rx)) && SignalOf(s.d, Receiving(c, rx)) == ClientReadable(c, ok)
    ensures Next(s, Step(Receiving(c, rx), outs))
         == State(ClientReceived(s.k, c, ok, outs), Transfer(s.k, s.d, Receiving(c, rx)))
  {
  }

  lemma NextConnected(s: State, c: nat, ok: bool, outs: seq<ConnectOutcome>)
    requires Ready(s, Connecting(c, ok))
    ensures Next(s, Step(Connecting(c, ok), outs)) == State(UpstreamConnected(s.k, c, ok, outs), s.d)
  {
  }

  lemma NextPeerExpired(s: State, c: nat, outs: seq<ConnectOutcome>)
    requires Ready(s, PeerExpiring(c))
    ensures Next(s, Step(PeerExpiring(c), outs)) == State(UpstreamTimeout(s.k, c, outs), s.d)
  {
  }

  lemma NextExpired(s: State, c: nat, outs: seq<ConnectOutcome>)
    requires Ready(s, Expiring(c))
    ensures Next(s, Step(Expiring(c), outs)) == State(AccessTimeout(s.k, c, outs), Transfer(s.k, s.d, Expiring(c)))
  {
  }

  lemma NextAccepted(s: State, outs: seq<ConnectOutcome>)
    requires Ready(s, Accepting)
    ensures Next(s, Step(Accepting, outs)) == State(Accept(s.k), Transfer(s.k, s.d, Accepting))
  {
  }

  lemma NextTicked(s: State, t: real, outs: seq<ConnectOutcome>)
    requires Ready(s, Passing(t))
    ensures Next(s, Step(Passing(t), outs)) == State(s.k.(now := t), s.d)
  {
  }

  lemma AwakeClosable(k: Control, sig: Signal, outs: seq<ConnectOutcome>)
    requires Inv(k) && Enabled(k, sig) && (sig.ClientReadable? || sig.ClientWritable?)
    ensures Closable(k, sig.c, outs)
  {
    assert ConnOk(k.cf, k.now, k.conns[sig.c]);
    hide Mid, ConnsOk, Closable;
    MidClosable(k, sig.c, outs);
  }

  lemma PendingPeer(k: Control, c: nat, ok: bool)
    requires Inv(k) && Enabled(k, PeerConnected(c, ok))
    ensures k.conns[c].peer.Some? && k.conns[c].peer.value < |k.cf.upTimeouts|
  {
    assert ConnOk(k.cf, k.now, k.conns[c]);
  }

  method FireRecv(ln: Listener, step: Step, s: Nio.Socket)
    requires step.e.Receiving? && Answers(step.e, s)
    requires Intact(ln) && Inv(ln.View()) && Ready(StateOf(ln), step.e)
    modifies ln, ln.all, Footprint(ln), s
    ensures Grown(ln)
    ensures Intact(ln)
    ensures StateOf(ln) == Next(old(StateOf(ln)), step)
  {
    ReadyLive(ln, step.e);
    var c := ln.all[step.e.c];
    Within(ln, c);
    AwakeClosable(ln.View(), SignalOf(ln.DataView(), step.e), step.outs);
    assert Closable(ln.View(), c.id, step.outs);
    ghost var was := StateOf(ln);
    hide Inv, Closable, ClientReceived, Transfer, SignalOf, Region, Footprint;
    var ok := RecvCb(ln, c, s, step.outs);
    hide Next;
    NextReceived(was, step.e.c, step.e.rx, step.outs, ok);
  }

  method FireSend(ln: Listener, step: Step, s: Nio.Socket)
    requires step.e.Sending? && Answers(step.e, s)
    requires Intact(ln) && Inv(ln.View()) && Ready(StateOf(ln), step.e)
    modifies ln, ln.all, Footprint(ln), s
    ensures Grown(ln)
    ensures Intact(ln)
    ensures StateOf(ln) == Next(old(StateOf(ln)), step)
  {
    ReadyLive(ln, step.e);
    var c := ln.all[step.e.c];
    Within(ln, c);
    AwakeClosable(ln.View(), SignalOf(ln.DataView(), step.e), step.outs);
    assert Closable(ln.View(), c.id, step.outs);
    hide Inv, Closable, ClientReceived, ClientSent, Transfer, Footprint;
    var end := SendCb(ln, c, s, step.outs);
  }

  method FireUpstreamRecv(ln: Listener, step: Step, s: Nio.Socket)
    requires step.e.PeerReceiving? && Answers(step.e, s)
    requires Intact(ln) && Ready(StateOf(ln), step.e)
    modifies ln, ln.all, Footprint(ln), s
    ensures Grown(ln)
    ensures Intact(ln)
    ensures StateOf(ln) == Next(old(StateOf(ln)), step)
  {
    ReadyLive(ln, step.e);
    var c := ln.all[step.e.c];
    Within(ln, c);
    var ok := UpstreamRecvCb(ln, c, s, step.outs);
  }

  method FireUpstreamSend(ln: Listener, step: Step, s: Nio.Socket)
    requires step.e.PeerSending? && Answers(step.e, s)
    requires Intact(ln) && Ready(StateOf(ln), step.e)
    modifies ln, ln.all, Footprint(ln), s
    ensures Grown(ln)
    ensures Intact(ln)
    ensures StateOf(ln) == Next(old(StateOf(ln)), step)
  {
    ReadyLive(ln, step.e);
    var c := ln.all[step.e.c];
    Within(ln, c);
    var end := UpstreamSendCb(ln, c, s, step.outs);
  }

  /** The queue after the access timer of c holds c exactly if c was waiting. */
  lemma TimeoutQueue(k: Control, c: nat, outs: seq<ConnectOutcome>)
    requires Inv(k) && c in k.conns
    ensures c in AccessTimeout(k, c, outs).queue <==> k.conns[c].status == CONN_WAITING
  {
    if k.conns[c].status == CONN_WAITING {
      TimeoutWaiting(k, c, outs);
    } else {
      TimeoutLeavesQueue(k, c, outs);
    }
  }

  lemma TimeoutLeavesQueue(k: Control, c: nat, outs: seq<ConnectOutcome>)
    requires Inv(k) && c in k.conns && k.conns[c].status != CONN_WAITING
    ensures c !in AccessTimeout(k, c, outs).queue
  {
    if k.conns[c].status != CONN_CLOSE {
      PutKeeps(k, c, k.conns[c].(status := CONN_TIMEOUT));
      EventCloseKeeps(Marked(k, c), c, outs);
    }
  }

  method FireTimer(ln: Listener, step: Step)
    requires Intact(ln) && Inv(ln.View()) && Ready(StateOf(ln), step.e) && step.e.Expiring?
    modifies ln, ln.all, Footprint(ln)
    ensures Grown(ln)
    ensures ln.Stores() && StateOf(ln) == Next(old(StateOf(ln)), step)
    ensures Intact(ln) <==> old(ln.View()).conns[step.e.c].status != CONN_WAITING
  {
    NextExpired(StateOf(ln), step.e.c, step.outs);
    ReadyLive(ln, step.e);
    var c := ln.all[step.e.c];
    Within(ln, c);
    InvExpirable(ln.View(), step.e.c, step.outs);
    TimeoutQueue(ln.View(), step.e.c, step.outs);
    hide AccessTimeout, Expirable, Inv, Transfer, Next, Ready;
    TimeoutCb(ln, c, step.outs);
  }

  twostate lemma NothingNew(ln: Listener)
    requires Footprint(ln) <= old(Footprint(ln)) && ln.all == old(ln.all)
    ensures Grown(ln)
  {
  }

  method FireConnected(ln: Listener, step: Step)
    requires Intact(ln) && Inv(ln.View()) && Ready(StateOf(ln), step.e) && step.e.Connecting?
    modifies ln, ln.all
    ensures Grown(ln)
    ensures Intact(ln)
    ensures StateOf(ln) == Next(old(StateOf(ln)), step)
  {
    NextConnected(StateOf(ln), step.e.c, step.e.ok, step.outs);
    ReadyLive(ln, step.e);
    PendingPeer(ln.View(), step.e.c, step.e.ok);
    hide Inv, UpstreamConnected, Next, Ready, Footprint, Grown;
    ConnectedApart(ln, ln.all[step.e.c], step.e.ok, step.outs);
    NothingNew(ln);
  }

  method FirePeerTimer(ln: Listener, step: Step)
    requires Intact(ln) && Ready(StateOf(ln), step.e) && step.e.PeerExpiring?
    modifies ln, ln.all
    ensures Grown(ln)
    ensures Intact(ln)
    ensures StateOf(ln) == Next(old(StateOf(ln)), step)
  {
    NextPeerExpired(StateOf(ln), step.e.c, step.outs);
    ReadyLive(ln, step.e);
    hide UpstreamTimeout, Next, Ready, Footprint, Grown;
    UpstreamTimeoutApart(ln, ln.all[step.e.c], step.outs);
    NothingNew(ln);
  }

  method FireQuiet(ln: Listener, step: Step)
    requires Intact(ln) && Ready(StateOf(ln), step.e) && (step.e.Accepting? || step.e.Passing?)
    modifies ln
    ensures Grown(ln)
    ensures Intact(ln)
    ensures StateOf(ln) == Next(old(StateOf(ln)), step)
  {
    if step.e.Accepting? {
      NextAccepted(StateOf(ln), step.outs);
      hide Next, Ready, Accept, Transfer;
      AcceptCb(ln);
    } else {
      NextTicked(StateOf(ln), step.e.t, step.outs);
      hide Next, Ready, Transfer;
      PassTime(ln, step.e.t);
    }
  }

  method Fire(ln: Listener, step: Step, s: Nio.Socket)
    requires Answers(step.e, s)
    requires Intact(ln) && Inv(ln.View()) && Ready(StateOf(ln), step.e)
    modifies ln, ln.all, Footprint(ln), s
    ensures Grown(ln)
    ensures ln.Stores() && StateOf(ln) == Next(old(StateOf(ln)), step)
    ensures Intact(ln) <==> !(step.e.Expiring? && old(ln.View()).conns[step.e.c].status == CONN_WAITING)
  {
    hide Inv, Next, Ready, StateOf;
    if step.e.Receiving? {
      FireRecv(ln, step, s);
    } else if step.e.Sending? {
      FireSend(ln, step, s);
    } else if step.e.PeerReceiving? {
      FireUpstreamRecv(ln, step, s);
    } else if step.e.PeerSending? {
      FireUpstreamSend(ln, step, s);
    } else if step.e.Expiring? {
      FireTimer(ln, step);
    } else if step.e.Accepting? || step.e.Passing? {
      FireQuiet(ln, step);
    } else if step.e.Connecting? {
      FireConnected(ln, step);
    } else {
      FirePeerTimer(ln, step);
    }
  }

  /** The program takes the step that the model takes, and so goes on in the invariant.  Its queue stays
      sound exactly if the step is not the access timer of a waiting connection. */
  method Dispatch(ln: Listener, step: Step, s: Nio.Socket)
    requires Answers(step.e, s)
    requires Intact(ln) && Inv(ln.View()) && Ready(StateOf(ln), step.e)
    modifies ln, ln.all, Footprint(ln), s
    ensures Grown(ln)
    ensures ln.Stores() && StateOf(ln) == Next(old(StateOf(ln)), step) && Inv(ln.View())
    ensures Intact(ln) <==> !old(TimesOutWaiting(ln.View(), SignalOf(ln.DataView(), step.e)))
  {
    ReactKeeps(ln.View(), SignalOf(ln.DataView(), step.e), step.outs);
    Fire(ln, step, s);
  }

  // ---------- whole runs ----------

  /** The access timer never fires on a waiting connection. */
  ghost predicate SparesWaiting(s: State, run: seq<Step>)
    requires Legal(s, run)
    decreases |run|
  {
    run == [] || (!TimesOutWaiting(s.k, SignalOf(s.d, run[0].e)) && SparesWaiting(Next(s, run[0]), run[1..]))
  }

  /** The memory of the whole proxy. */
  ghost function World(ln: Listener): set<object>
    reads *
  {
    {ln} + (set c | c in ln.all :: c as object) + Footprint(ln)
  }

  /** A socket that gives the answers of an event. */
  method SocketFor(e: Event) returns (s: Nio.Socket)
    ensures fresh(s) && Answers(e, s)
  {
    var rx := match e case Receiving(_, rx) => rx case PeerReceiving(_, rx) => rx case _ => [];
    var tx := match e case Sending(_, tx) => tx case PeerSending(_, tx) => tx case _ => [];
    s := new Nio.Socket(rx, tx);
  }

  /** Making a socket changes nothing that the proxy holds. */
  method Prepare(ln: Listener, e: Event) returns (s: Nio.Socket)
    requires Intact(ln)
    ensures fresh(s) && Answers(e, s)
    ensures Intact(ln) && StateOf(ln) == old(StateOf(ln)) && Footprint(ln) <= old(Footprint(ln))
  {
    ghost var f := FootprintOff(ln);
    s := SocketFor(e);
    assert AllStill(f);
    DataSame(ln, f);
  }

  /** From s the steps from number i on lead to the state `last`. */
  ghost predicate Leads(s: State, run: seq<Step>, i: nat, last: State) {
    i <= |run| && Legal(s, run[i..]) && SparesWaiting(s, run[i..]) && Exec(s, run[i..]) == last
  }

  lemma LeadsOn(s: State, run: seq<Step>, i: nat, last: State)
    requires Leads(s, run, i, last) && i < |run|
    ensures Ready(s, run[i].e) && !TimesOutWaiting(s.k, SignalOf(s.d, run[i].e))
    ensures Leads(Next(s, run[i]), run, i + 1, last)
  {
    assert run[i..][0] == run[i] && run[i..][1..] == run[i + 1..];
  }

  lemma LeadsFrom(s: State, run: seq<Step>)
    requires Legal(s, run) && SparesWaiting(s, run)
    ensures Leads(s, run, 0, Exec(s, run))
  {
    assert run[0..] == run;
  }

  lemma LeadsTo(s: State, run: seq<Step>, last: State)
    requires Leads(s, run, |run|, last)
    ensures s == last
  {
  }

  /** One round, with the socket that it needs. */
  method Round(ln: Listener, step: Step)
    requires Intact(ln) && Inv(ln.View()) && Ready(StateOf(ln), step.e)
    requires !TimesOutWaiting(StateOf(ln).k, SignalOf(StateOf(ln).d, step.e))
    modifies ln, ln.all, Footprint(ln)
    ensures Grown(ln)
    ensures Intact(ln) && Inv(ln.View())
    ensures StateOf(ln) == Next(old(StateOf(ln)), step)
  {
    var s := Prepare(ln, step.e);
    hide Footprint, Inv, Next, Ready, Intact, TimesOutWaiting, SignalOf;
    Dispatch(ln, step, s);
  }

  lemma InWorld(ln: Listener) returns (world: set<object>)
    ensures world == World(ln) && ln in world && Footprint(ln) <= world && forall c :: c in ln.all ==> c in world
  {
    world := World(ln);
  }

  /** The same, for a caller that sees the memory as a whole. */
  method RoundIn(ln: Listener, step: Step)
    requires ln.pool.cap > 0 && Intact(ln) && Inv(ln.View()) && Ready(StateOf(ln), step.e)
    requires !TimesOutWaiting(StateOf(ln).k, SignalOf(StateOf(ln).d, step.e))
    modifies World(ln)
    ensures forall o :: o in World(ln) ==> o in old(World(ln)) || fresh(o)
    ensures Intact(ln) && Inv(ln.View())
    ensures StateOf(ln) == Next(old(StateOf(ln)), step)
  {
    hide Inv, Next, Ready, Intact, TimesOutWaiting, SignalOf, StateOf, Footprint;
    ghost var world := InWorld(ln);
    Round(ln, step);
    forall o | o in World(ln) ensures o in world || fresh(o) {
      if o != ln && o !in Footprint(ln) {
        var c :| c in ln.all && o == c;
      }
    }
  }

  lemma StartWorld(ln: Listener, o: object)
    requires ln.all == [] && o in World(ln)
    ensures o == ln || o == ln.pool || exists b :: b in ln.pool.free && (o == b || o == b.mem)
  {
    if o != ln {
      FootprintParts(ln, o);
      if o in Region(ln.pool.free) {
        RegionParts(ln.pool.free, o);
      }
    }
  }

  /** x_access_in, up to the start of the event loop */
  method Begin(cf: Conf, cap: nat) returns (ln: Listener)
    requires cap > 0
    ensures forall o :: o in World(ln) ==> fresh(o)
    ensures Intact(ln) && Inv(ln.View()) && StateOf(ln) == Start(cf, cap)
  {
    ln := new Listener(cf, cap);
    forall o | o in World(ln) ensures fresh(o) {
      StartWorld(ln, o);
    }
    hide Inv;
    InitInv(cf);
    assert ln.View() == InitControl(cf);
  }

  /** The program: after every run that the model allows, the memory represents the state that the
      model reaches, as long as no access timer fires on a waiting connection. */
  method Run(cf: Conf, cap: nat, run: seq<Step>) returns (ln: Listener)
    requires cap > 0 && Legal(Start(cf, cap), run) && SparesWaiting(Start(cf, cap), run)
    ensures Intact(ln) && StateOf(ln) == Exec(Start(cf, cap), run)
  {
    hide World, Inv, Next, Ready, TimesOutWaiting, SignalOf, Legal, SparesWaiting, Exec, Leads, Start, StateOf;
    ln := Begin(cf, cap);
    assert ln.pool.cap > 0;
    ghost var last := Exec(Start(cf, cap), run);
    LeadsFrom(Start(cf, cap), run);
    hide Intact;
    for i := 0 to |run|
      invariant ln.pool.cap > 0 && Intact(ln) && Inv(ln.View()) && Leads(StateOf(ln), run, i, last)
      invariant forall o :: o in World(ln) ==> fresh(o)
    {
      LeadsOn(StateOf(ln), run, i, last);
      RoundIn(ln, run[i]);
    }
    LeadsTo(StateOf(ln), run, last);
  }
}
