/** The whole proxy: the control state together with the bytes.  A callback first runs its socket
    loop over one direction of one connection and then reacts to how the loop ended. */
module Proxy {
  import opened Common
  import opened Admission
  import Nio
  import opened BufPool
  import opened Pipe

  /** One direction of a connection.  Besides the chain of buffers: the bytes taken from the source
      socket, those of them committed to the buffers, those counted as sent, and those that the
      destination socket has really taken. */
  datatype Flow = Flow(chain: seq<Buf>, src: seq<Byte>, inn: seq<Byte>, out: seq<Byte>, wire: seq<Byte>)

  /** pipe1 carries the client's bytes to the server, pipe2 the server's bytes to the client. */
  datatype Flows = Flows(up: Flow, down: Flow)

  const NO_FLOW: Flow := Flow([], [], [], [], [])

  datatype RawData = RawData(cap: nat, pool: Pool, flows: map<nat, Flows>)

  /** The data bytes of a buffer are fewer than its size, but there are some. */
  type Data = d: RawData | d.cap > 0 witness RawData(1, Pool([], 0, 0, 0), map[])

  datatype State = State(k: Control, d: Data)

  /** A callback together with the answers its socket is going to give. */
  datatype Event =
    | Accepting
    | Receiving(c: nat, rx: seq<Nio.RecvEvent>)
    | Sending(c: nat, tx: seq<Nio.SendEvent>)
    | Expiring(c: nat)
    | Connecting(c: nat, ok: bool)
    | PeerReceiving(c: nat, rx: seq<Nio.RecvEvent>)
    | PeerSending(c: nat, tx: seq<Nio.SendEvent>)
    | PeerExpiring(c: nat)
    | Passing(t: real)

  datatype Step = Step(e: Event, outs: seq<ConnectOutcome>)

  /** x_access_in: a pool with one buffer and no connection. */
  function Start(cf: Conf, cap: nat): State
    requires cap > 0
  {
    State(InitControl(cf), RawData(cap, InitPool(1), map[]))
  }

  function FlowsOf(d: Data, c: nat): Flows {
    if c in d.flows then d.flows[c] else Flows(NO_FLOW, NO_FLOW)
  }

  function Filled(f: Flow, r: FillResult): Flow {
    Flow(r.chain, f.src + r.got + r.lost, f.inn + r.got, f.out, f.wire)
  }

  function Drained(f: Flow, r: DrainResult): Flow {
    Flow(r.chain, f.src, f.inn, f.out + r.sent, f.wire + r.sent + r.over)
  }

  function FillOf(d: Data, f: Flow, rx: seq<Nio.RecvEvent>): FillResult {
    Fill(f.chain, d.pool, rx, d.cap)
  }

  function DrainOf(d: Data, f: Flow, tx: seq<Nio.SendEvent>): DrainResult {
    Drain(f.chain, d.pool, tx, d.cap)
  }

  /** What the control state learns from an event. */
  function SignalOf(d: Data, e: Event): Signal {
    match e
    case Accepting => NewClient
    case Receiving(c, rx) => ClientReadable(c, FillOf(d, FlowsOf(d, c).up, rx).ok)
    case Sending(c, tx) => ClientWritable(c, DrainOf(d, FlowsOf(d, c).down, tx).end)
    case Expiring(c) => AccessTimer(c)
    case Connecting(c, ok) => PeerConnected(c, ok)
    case PeerReceiving(c, rx) => PeerReadable(c, FillOf(d, FlowsOf(d, c).down, rx).ok)
    case PeerSending(c, tx) => PeerWritable(c, DrainOf(d, FlowsOf(d, c).up, tx).end)
    case PeerExpiring(c) => PeerTimer(c)
    case Passing(t) => Tick(t)
  }

  /** What happens to the bytes. */
  function Transfer(k: Control, d: Data, e: Event): Data {
    match e
    case Accepting =>
      if k.cCount >= k.cf.accessMax then d else d.(flows := d.flows[k.accepted := Flows(NO_FLOW, NO_FLOW)])
    case Receiving(c, rx) =>
      var fs := FlowsOf(d, c);
      var r := FillOf(d, fs.up, rx);
      d.(pool := r.pool, flows := d.flows[c := fs.(up := Filled(fs.up, r))])
    case Sending(c, tx) =>
      var fs := FlowsOf(d, c);
      var r := DrainOf(d, fs.down, tx);
      d.(pool := r.pool, flows := d.flows[c := fs.(down := Drained(fs.down, r))])
    case PeerReceiving(c, rx) =>
      var fs := FlowsOf(d, c);
      var r := FillOf(d, fs.down, rx);
      d.(pool := r.pool, flows := d.flows[c := fs.(down := Filled(fs.down, r))])
    case PeerSending(c, tx) =>
      var fs := FlowsOf(d, c);
      var r := DrainOf(d, fs.up, tx);
      d.(pool := r.pool, flows := d.flows[c := fs.(up := Drained(fs.up, r))])
    case Expiring(c) =>
      var fs := FlowsOf(d, c);
      d.(pool := FreeAll(FreeAll(d.pool, Ids(fs.up.chain)), Ids(fs.down.chain)), flows := d.flows - {c})
    case Connecting(c, ok) => d
    case PeerExpiring(c) => d
    case Passing(t) => d
  }

  ghost predicate Ready(s: State, e: Event) {
    Enabled(s.k, SignalOf(s.d, e))
  }

  ghost function Next(s: State, step: Step): State
    requires Ready(s, step.e)
  {
    State(React(s.k, SignalOf(s.d, step.e), step.outs), Transfer(s.k, s.d, step.e))
  }

  ghost predicate Legal(s: State, run: seq<Step>)
    decreases |run|
  {
    run == [] || (Ready(s, run[0].e) && Legal(Next(s, run[0]), run[1..]))
  }

  ghost function Exec(s: State, run: seq<Step>): State
    requires Legal(s, run)
    decreases |run|
  {
    if run == [] then s else Exec(Next(s, run[0]), run[1..])
  }
}
