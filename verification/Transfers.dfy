/** The socket loops of the callbacks, seen from all the buffers of the proxy: what a loop does to one
    direction of one connection and to the pool, and that it does nothing else. */
module Transfers {
  import opened Common
  import opened Admission
  import Nio
  import BufPool
  import Pipe
  import opened Buffers
  import opened Chains
  import opened Proxy
  import opened Listeners

  function FlowAt(fs: Flows, p: Side): Flow {
    if p.Up? then fs.up else fs.down
  }

  function WithFlow(fs: Flows, p: Side, f: Flow): Flows {
    if p.Up? then fs.(up := f) else fs.(down := f)
  }

  function FillEvent(p: Side, rx: seq<Nio.RecvEvent>): Event {
    if p.Up? then Receiving(p.i, rx) else PeerReceiving(p.i, rx)
  }

  /** pipe2 is sent to the client, pipe1 to the server. */
  function DrainEvent(p: Side, tx: seq<Nio.SendEvent>): Event {
    if p.Up? then PeerSending(p.i, tx) else Sending(p.i, tx)
  }

  lemma FillTransfer(k: Control, d: Data, p: Side, rx: seq<Nio.RecvEvent>, r: Pipe.FillResult)
    requires p.i in d.flows && r == Pipe.Fill(FlowAt(d.flows[p.i], p).chain, d.pool, rx, d.cap)
    ensures Transfer(k, d, FillEvent(p, rx))
         == d.(pool := r.pool,
               flows := d.flows[p.i := WithFlow(d.flows[p.i], p, Filled(FlowAt(d.flows[p.i], p), r))])
    ensures SignalOf(d, FillEvent(p, rx)) == if p.Up? then ClientReadable(p.i, r.ok) else PeerReadable(p.i, r.ok)
  {
  }

  lemma DrainTransfer(k: Control, d: Data, p: Side, tx: seq<Nio.SendEvent>, r: Pipe.DrainResult)
    requires p.i in d.flows && r == Pipe.Drain(FlowAt(d.flows[p.i], p).chain, d.pool, tx, d.cap)
    ensures Transfer(k, d, DrainEvent(p, tx))
         == d.(pool := r.pool,
               flows := d.flows[p.i := WithFlow(d.flows[p.i], p, Drained(FlowAt(d.flows[p.i], p), r))])
    ensures SignalOf(d, DrainEvent(p, tx)) == if p.Up? then PeerWritable(p.i, r.end) else ClientWritable(p.i, r.end)
  {
  }

  /** A chain and its buffers have been left alone. */
  twostate predicate Still(y: Chain)
    reads *
  {
    unchanged(y) && forall i :: 0 <= i < |y.bufs| ==> unchanged(y.bufs[i]) && unchanged(y.bufs[i].mem)
  }

  twostate predicate OthersSpared(ln: Listener, p: Side)
    requires old(ln.LiveSide(p))
    reads *
  {
    && unchanged(ln`all) && unchanged(ln`live)
    && forall q :: ln.LiveSide(q) && q != p ==> Still(ln.ChainAt(q))
  }

  twostate lemma OtherSide(ln: Listener, new p: Side, new q: Side)
    requires old(ln.Stores()) && old(ln.LiveSide(p)) && OthersSpared(ln, p)
    requires ln.LiveSide(q) && q != p && ln.pool.Valid()
    requires var x := ln.ChainAt(p); FromBoth(old(x.bufs), old(ln.pool.free), x.bufs, ln.pool.free)
    ensures ln.ChainAt(q).Valid(ln.pool) && ln.ChainAt(q).FlowView() == old(ln.ChainAt(q).FlowView())
    ensures Apart(ln.ChainAt(q).bufs, ln.ChainAt(p).bufs) && unchanged(ln.ChainAt(q))
  {
    var x, y := ln.ChainAt(p), ln.ChainAt(q);
    assert old(ln.LiveSide(q)) && y == old(ln.ChainAt(q)) && x == old(ln.ChainAt(p)) && Still(y);
    ln.Untouched(y, x);
  }

  lemma ApartBack(s: seq<Buffer>, t: seq<Buffer>)
    requires Apart(s, t)
    ensures Apart(t, s)
  {
  }

  twostate lemma BothSame(ln: Listener, new p: Side, new q: Side)
    requires old(ln.Stores()) && unchanged(ln`all) && ln.live <= old(ln.live)
    requires ln.LiveSide(p) && ln.LiveSide(q) && p != q && unchanged(ln.ChainAt(p)) && unchanged(ln.ChainAt(q))
    ensures ln.ChainAt(p) != ln.ChainAt(q) && Apart(ln.ChainAt(p).bufs, ln.ChainAt(q).bufs)
  {
    assert old(ln.LiveSide(p)) && old(ln.LiveSide(q));
    assert ln.ChainAt(p) == old(ln.ChainAt(p)) && ln.ChainAt(q) == old(ln.ChainAt(q));
  }

  twostate lemma StoresAgain(ln: Listener, new p: Side)
    requires old(ln.Stores()) && old(ln.LiveSide(p)) && unchanged(ln`all) && unchanged(ln`live)
    requires ln.pool.Valid() && ln.ChainAt(p).Valid(ln.pool)
    requires forall q :: ln.LiveSide(q) && q != p ==>
               ln.ChainAt(q).Valid(ln.pool) && Apart(ln.ChainAt(q).bufs, ln.ChainAt(p).bufs) && unchanged(ln.ChainAt(q))
    ensures ln.Stores()
  {
    forall q, r | ln.LiveSide(q) && ln.LiveSide(r) && q != r
      ensures ln.ChainAt(q) != ln.ChainAt(r) && Apart(ln.ChainAt(q).bufs, ln.ChainAt(r).bufs)
    {
      assert old(ln.LiveSide(q)) && old(ln.LiveSide(r));
      assert ln.ChainAt(q) == old(ln.ChainAt(q)) && ln.ChainAt(r) == old(ln.ChainAt(r));
      if q == p {
        ApartBack(ln.ChainAt(r).bufs, ln.ChainAt(q).bufs);
      } else if r != p {
        BothSame(ln, q, r);
      }
    }
  }

  /** An operation on one direction and the pool. */
  twostate lemma OneSide(ln: Listener, new p: Side, new f: Flow)
    requires old(ln.Stores()) && old(ln.LiveSide(p)) && OthersSpared(ln, p)
    requires var x := ln.ChainAt(p);
             && x.Valid(ln.pool) && FromBoth(old(x.bufs), old(ln.pool.free), x.bufs, ln.pool.free) && x.FlowView() == f
    ensures ln.Stores()
    ensures var d := old(ln.DataView());
            ln.DataView() == d.(pool := ln.pool.View(), flows := d.flows[p.i := WithFlow(d.flows[p.i], p, f)])
  {
    forall q | ln.LiveSide(q) && q != p
      ensures ln.ChainAt(q).Valid(ln.pool) && ln.ChainAt(q).FlowView() == old(ln.ChainAt(q).FlowView())
      ensures Apart(ln.ChainAt(q).bufs, ln.ChainAt(p).bufs) && unchanged(ln.ChainAt(q))
    {
      OtherSide(ln, p, q);
    }
    StoresAgain(ln, p);
    OneFlow(ln, p, f);
  }

  lemma FlowKeys(ln: Listener)
    ensures forall i :: i in ln.FlowMap() <==> i in ln.live && i < |ln.all|
  {
  }

  twostate lemma SameFlowKeys(ln: Listener)
    requires unchanged(ln`all) && unchanged(ln`live)
    ensures ln.FlowMap().Keys == old(ln.FlowMap()).Keys
  {
  }

  twostate lemma OneFlow(ln: Listener, new p: Side, new f: Flow)
    requires unchanged(ln`all) && unchanged(ln`live) && ln.LiveSide(p) && ln.ChainAt(p).FlowView() == f
    requires forall q :: ln.LiveSide(q) && q != p ==> ln.ChainAt(q).FlowView() == old(ln.ChainAt(q).FlowView())
    ensures var m := old(ln.FlowMap()); ln.FlowMap() == m[p.i := WithFlow(m[p.i], p, f)]
  {
    var m := old(ln.FlowMap());
    ThisFlow(ln, p, f);
    SameFlowKeys(ln);
    FlowKeys(ln);
    forall i | i in m && i != p.i ensures ln.FlowMap()[i] == m[i] {
      OtherFlow(ln, p, i);
    }
    hide *;
    assert m.Keys == m.Keys + {p.i};
    PutAt(m, ln.FlowMap(), p.i, WithFlow(m[p.i], p, f));
  }

  twostate lemma ThisFlow(ln: Listener, new p: Side, new f: Flow)
    requires unchanged(ln`all) && unchanged(ln`live) && ln.LiveSide(p) && ln.ChainAt(p).FlowView() == f
    requires forall q :: ln.LiveSide(q) && q != p ==> ln.ChainAt(q).FlowView() == old(ln.ChainAt(q).FlowView())
    ensures old(p.i in ln.FlowMap()) && ln.FlowMap()[p.i] == WithFlow(old(ln.FlowMap())[p.i], p, f)
  {
    BothSides(ln, p.i);
    BothWere(ln, p.i);
  }

  twostate lemma OtherFlow(ln: Listener, new p: Side, new i: nat)
    requires unchanged(ln`all) && unchanged(ln`live) && i in ln.live && i < |ln.all| && i != p.i
    requires forall q :: ln.LiveSide(q) && q != p ==> ln.ChainAt(q).FlowView() == old(ln.ChainAt(q).FlowView())
    ensures old(i in ln.FlowMap()) && ln.FlowMap()[i] == old(ln.FlowMap())[i]
  {
    BothSides(ln, i);
    BothWere(ln, i);
  }

  twostate lemma BothWere(ln: Listener, new i: nat)
    requires unchanged(ln`all) && unchanged(ln`live) && i in ln.live && i < |ln.all|
    ensures old(i in ln.FlowMap())
    ensures old(ln.FlowMap())[i] == Flows(old(ln.ChainAt(Up(i)).FlowView()), old(ln.ChainAt(Down(i)).FlowView()))
  {
  }

  lemma BothSides(ln: Listener, i: nat)
    requires i in ln.live && i < |ln.all|
    ensures ln.LiveSide(Up(i)) && ln.LiveSide(Down(i))
    ensures ln.FlowMap()[i] == Flows(ln.ChainAt(Up(i)).FlowView(), ln.ChainAt(Down(i)).FlowView())
  {
  }

  lemma SideFlow(ln: Listener, p: Side)
    requires ln.LiveSide(p)
    ensures p.i in ln.FlowMap() && FlowAt(ln.FlowMap()[p.i], p) == ln.ChainAt(p).FlowView()
  {
  }

  ghost function ChainObjects(y: Chain): set<object>
    reads y
  {
    {y} + Region(y.bufs)
  }

  /** The memory that holds bytes or free buffers. */
  ghost function Footprint(ln: Listener): set<object>
    reads *
  {
    {ln.pool} + Region(ln.pool.free)
    + (set i, o | i in ln.live && i < |ln.all|
                  && o in ChainObjects(ln.all[i].pipe1) + ChainObjects(ln.all[i].pipe2) :: o)
  }

  /** What an operation on one direction and the pool may touch. */
  ghost function Touched(ln: Listener, x: Chain): set<object>
    reads *
  {
    {ln.pool} + Region(ln.pool.free) + ChainObjects(x)
  }

  lemma ObjectKinds(y: Chain, o: object)
    requires o in ChainObjects(y)
    ensures o == y || (exists b :: b in y.bufs && (o == b || o == b.mem))
    ensures o is Chain || o is Buffer || o is array<Byte>
  {
  }

  lemma ChainApart(ln: Listener, p: Side, q: Side)
    requires ln.Stores() && ln.LiveSide(p) && ln.LiveSide(q) && p != q
    ensures ChainObjects(ln.ChainAt(q)) !! Touched(ln, ln.ChainAt(p))
  {
    var x, y := ln.ChainAt(p), ln.ChainAt(q);
    SeparateSplit(y.bufs, ln.pool.free);
    forall o | o in ChainObjects(y) ensures o !in Touched(ln, x) {
      ObjectApart(ln.pool, x, y, o);
    }
  }

  lemma ObjectApart(pool: BufferPool, x: Chain, y: Chain, o: object)
    requires o in ChainObjects(y) && x != y && Apart(y.bufs, x.bufs) && Apart(y.bufs, pool.free)
    ensures o !in {pool} + Region(pool.free) + ChainObjects(x)
  {
    ObjectKinds(y, o);
    if o != y {
      var b :| b in y.bufs && (o == b || o == b.mem);
      PartsApart(b, o, x.bufs);
      PartsApart(b, o, pool.free);
    }
  }

  lemma PartsApart(b: Buffer, o: object, s: seq<Buffer>)
    requires (o == b || o == b.mem) && forall c :: c in s ==> c != b && c.mem != b.mem
    ensures o !in Region(s)
  {
  }

  lemma InFootprint(ln: Listener, p: Side)
    requires ln.LiveSide(p)
    ensures ChainObjects(ln.ChainAt(p)) <= Footprint(ln)
  {
    forall o | o in ChainObjects(ln.ChainAt(p)) ensures o in Footprint(ln) {
      assert o in ChainObjects(ln.all[p.i].pipe1) + ChainObjects(ln.all[p.i].pipe2);
    }
  }

  /** The listener, its connections, and the memory of the other directions. */
  lemma RestOff(ln: Listener, p: Side, s: Nio.Socket?) returns (f: set<object>)
    requires ln.Stores() && ln.LiveSide(p)
    ensures var x := ln.ChainAt(p);
            && x !in f && ln.pool !in f && (s != null ==> s !in f)
            && (forall b :: b in x.bufs ==> b !in f)
            && (forall b :: b in ln.pool.free ==> b !in f)
            && Region(x.bufs) !! f && Region(ln.pool.free) !! f
    ensures forall q :: ln.LiveSide(q) && q != p ==> ChainObjects(ln.ChainAt(q)) <= f
    ensures ln in f && forall c :: c in ln.all ==> c in f
  {
    var x := ln.ChainAt(p);
    var touched := Touched(ln, x) + if s == null then {} else {s};
    f := Footprint(ln) - touched + {ln} + (set c | c in ln.all :: c as object);
    forall q | ln.LiveSide(q) && q != p ensures ChainObjects(ln.ChainAt(q)) <= f {
      InFootprint(ln, q);
      ChainApart(ln, p, q);
      forall o | o in ChainObjects(ln.ChainAt(q)) ensures o != s {
        ObjectKinds(ln.ChainAt(q), o);
      }
    }
    forall o | o in touched ensures o !in f {
      TouchedKinds(ln, x, o);
    }
  }

  lemma TouchedKinds(ln: Listener, x: Chain, o: object)
    ensures o in Touched(ln, x) ==> !(o is Listener) && !(o is Connection)
  {
  }

  /** The control state, when neither the listener nor a connection has changed. */
  twostate lemma ControlSame(ln: Listener)
    requires unchanged(ln) && forall c :: c in ln.all ==> unchanged(c)
    ensures (old(ln.Valid()) ==> ln.Valid()) && ln.View() == old(ln.View())
  {
    forall i | i in ln.live && i < |ln.all| ensures ln.Conns()[i] == old(ln.Conns())[i] {
      assert ln.all[i] in ln.all;
    }
    assert ln.Conns() == old(ln.Conns());
  }

  twostate predicate AllStill(f: set<object>)
    reads *
  {
    forall o :: o in f ==> unchanged(o)
  }

  twostate lemma RestSame(ln: Listener, new p: Side, new f: set<object>)
    requires old(allocated(f)) && old(ln.LiveSide(p)) && unchanged(ln`all) && unchanged(ln`live)
    requires forall q :: old(ln.LiveSide(q)) && q != p ==> old(ChainObjects(ln.ChainAt(q))) <= f
    requires AllStill(f)
    ensures OthersSpared(ln, p)
  {
    forall q | ln.LiveSide(q) && q != p ensures Still(ln.ChainAt(q)) {
      var y := ln.ChainAt(q);
      assert old(ln.LiveSide(q)) && y == old(ln.ChainAt(q));
      ChainStill(y, f);
    }
  }

  twostate lemma ChainStill(y: Chain, new f: set<object>)
    requires old(allocated(f)) && old(ChainObjects(y)) <= f && AllStill(f)
    ensures Still(y)
  {
    assert y in old(ChainObjects(y));
    forall i | 0 <= i < |y.bufs| ensures unchanged(y.bufs[i]) && unchanged(y.bufs[i].mem) {
      assert y.bufs[i] in y.bufs;
      assert y.bufs[i] in old(Region(y.bufs)) && y.bufs[i].mem in old(Region(y.bufs));
      assert y.bufs[i] in old(ChainObjects(y)) && y.bufs[i].mem in old(ChainObjects(y));
    }
  }

  // ---------- no memory from elsewhere ----------

  /** All buffers, chains and connections were there before or have just been made. */
  twostate predicate Grown(ln: Listener)
    reads *
  {
    && (forall o :: o in Footprint(ln) ==> o in old(Footprint(ln)) || fresh(o))
    && (forall c :: c in ln.all ==> c in old(ln.all) || fresh(c))
  }

  /** Where an object of the footprint is. */
  lemma FootprintParts(ln: Listener, o: object)
    requires o in Footprint(ln)
    ensures o == ln.pool || o in Region(ln.pool.free) || exists p :: ln.LiveSide(p) && o in ChainObjects(ln.ChainAt(p))
  {
    if o != ln.pool && o !in Region(ln.pool.free) {
      var i :| i in ln.live && i < |ln.all| && o in ChainObjects(ln.all[i].pipe1) + ChainObjects(ln.all[i].pipe2);
      assert ln.LiveSide(Up(i)) && ln.LiveSide(Down(i));
      assert ln.ChainAt(Up(i)) == ln.all[i].pipe1 && ln.ChainAt(Down(i)) == ln.all[i].pipe2;
    }
  }

  lemma PartsInFootprint(ln: Listener) returns (f: set<object>)
    ensures f == Footprint(ln) && ln.pool in f && Region(ln.pool.free) <= f
    ensures forall p :: ln.LiveSide(p) ==> ChainObjects(ln.ChainAt(p)) <= f
  {
    f := Footprint(ln);
    forall p | ln.LiveSide(p) ensures ChainObjects(ln.ChainAt(p)) <= Footprint(ln) {
      InFootprint(ln, p);
    }
  }

  lemma RegionParts(s: seq<Buffer>, o: object)
    requires o in Region(s)
    ensures exists b :: b in s && (o == b || o == b.mem)
  {
  }

  /** After an operation on one direction and the pool. */
  twostate lemma SideGrown(ln: Listener, new p: Side, new f: set<object>)
    requires old(allocated(f)) && f == old(Footprint(ln))
    requires old(ln.LiveSide(p)) && ln.LiveSide(p) && OthersSpared(ln, p)
    requires old(ChainObjects(ln.ChainAt(p))) <= f && old(Region(ln.pool.free)) <= f && ln.pool in f
    requires forall q :: old(ln.LiveSide(q)) ==> old(ChainObjects(ln.ChainAt(q))) <= f
    requires var x := ln.ChainAt(p); FromBoth(old(x.bufs), old(ln.pool.free), x.bufs, ln.pool.free)
    ensures Grown(ln)
  {
    var x := ln.ChainAt(p);
    forall o | o in Footprint(ln) ensures o in f || fresh(o) {
      FootprintParts(ln, o);
      if o in Region(ln.pool.free) {
        FromParts(old(x.bufs), old(ln.pool.free), ln.pool.free, f, o);
      } else if o != ln.pool {
        var q :| ln.LiveSide(q) && o in ChainObjects(ln.ChainAt(q));
        if q == p {
          assert x in old(ChainObjects(ln.ChainAt(p)));
          if o != x {
            FromParts(old(x.bufs), old(ln.pool.free), x.bufs, f, o);
          }
        } else {
          assert Still(ln.ChainAt(q)) && old(ln.LiveSide(q)) && ln.ChainAt(q) == old(ln.ChainAt(q));
        }
      }
    }
  }

  twostate lemma FromParts(s1: seq<Buffer>, new s2: seq<Buffer>, new t: seq<Buffer>, new f: set<object>, new o: object)
    requires Region(s1) <= f && Region(s2) <= f && o in Region(t)
    requires forall b :: b in t ==> b in s1 || b in s2 || (fresh(b) && fresh(b.mem))
    ensures o in f || fresh(o)
  {
    RegionParts(t, o);
    var b :| b in t && (o == b || o == b.mem);
    if b in s1 {
      assert b in Region(s1) && b.mem in Region(s1);
    } else if b in s2 {
      assert b in Region(s2) && b.mem in Region(s2);
    }
  }

  // ---------- the loops ----------

  /** A fill leaves alone what it does not hold. */
  method FillBeside(pool: BufferPool, x: Chain, s: Nio.Socket, ghost f: set<object>) returns (ok: bool)
    requires x.Valid(pool) && pool.cap > 0
    requires x !in f && pool !in f && s !in f
    requires forall b :: b in x.bufs || b in pool.free ==> b !in f
    requires Region(x.bufs) !! f && Region(pool.free) !! f
    modifies x, Region(x.bufs), pool, Region(pool.free), s`incoming
    ensures x.Valid(pool) && FromBoth(old(x.bufs), old(pool.free), x.bufs, pool.free)
    ensures var r := Pipe.Fill(old(x.View()), old(pool.View()), old(s.incoming), pool.cap);
            r.pool == pool.View() && r.ok == ok && x.FlowView() == Filled(old(x.FlowView()), r)
    ensures forall o :: o in f ==> unchanged(o)
  {
    ok := x.Fill(pool, s);
  }

  /** The chain of one direction is filled. */
  method FillAt(ln: Listener, ghost p: Side, x: Chain, s: Nio.Socket) returns (ok: bool)
    requires ln.Stores() && ln.LiveSide(p) && x == ln.ChainAt(p)
    modifies x, Region(x.bufs), ln.pool, Region(ln.pool.free), s`incoming
    ensures (old(ln.Valid()) ==> ln.Valid()) && ln.View() == old(ln.View())
    ensures Grown(ln)
    ensures OthersSpared(ln, p) && x.Valid(ln.pool) && FromBoth(old(x.bufs), old(ln.pool.free), x.bufs, ln.pool.free)
    ensures var r := Pipe.Fill(old(x.View()), old(ln.pool.View()), old(s.incoming), ln.pool.cap);
            r.pool == ln.pool.View() && r.ok == ok && x.FlowView() == Filled(old(x.FlowView()), r)
  {
    ghost var g := PartsInFootprint(ln);
    ghost var f := RestOff(ln, p, s);
    ok := FillBeside(ln.pool, x, s, f);
    ControlSame(ln);
    RestSame(ln, p, f);
    SideGrown(ln, p, g);
  }

  /** The chain of one direction is sent from. */
  method DrainAt(ln: Listener, ghost p: Side, x: Chain, s: Nio.Socket) returns (end: SendOutcome)
    requires ln.Stores() && ln.LiveSide(p) && x == ln.ChainAt(p)
    modifies x, x.bufs, ln.pool, s`outgoing, s`wire
    ensures (old(ln.Valid()) ==> ln.Valid()) && ln.View() == old(ln.View())
    ensures Grown(ln)
    ensures OthersSpared(ln, p) && x.Valid(ln.pool) && FromBoth(old(x.bufs), old(ln.pool.free), x.bufs, ln.pool.free)
    ensures var r := Pipe.Drain(old(x.View()), old(ln.pool.View()), old(s.outgoing), ln.pool.cap);
            r.pool == ln.pool.View() && r.end == end && x.FlowView() == Drained(old(x.FlowView()), r)
  {
    ghost var g := PartsInFootprint(ln);
    ghost var f := RestOff(ln, p, s);
    end := x.Drain(ln.pool, s);
    forall o | o in f ensures unchanged(o) {
      assert o != x && o != ln.pool;
    }
    ControlSame(ln);
    RestSame(ln, p, f);
    SideGrown(ln, p, g);
  }

  /** The receive loop of x_recv_cb or x_upstream_recv_cb */
  method FillSide(ln: Listener, ghost p: Side, x: Chain, s: Nio.Socket) returns (ok: bool)
    requires ln.Valid() && ln.Stores() && ln.LiveSide(p) && x == ln.ChainAt(p)
    modifies x, Region(x.bufs)
    modifies ln.pool, Region(ln.pool.free), s`incoming
    ensures Grown(ln)
    ensures ln.Valid() && ln.Stores() && ln.View() == old(ln.View())
    ensures ln.DataView() == Transfer(old(ln.View()), old(ln.DataView()), FillEvent(p, old(s.incoming)))
    ensures SignalOf(old(ln.DataView()), FillEvent(p, old(s.incoming)))
         == if p.Up? then ClientReadable(p.i, ok) else PeerReadable(p.i, ok)
  {
    hide Grown;
    SideFlow(ln, p);
    ghost var r := Pipe.Fill(x.View(), ln.pool.View(), s.incoming, ln.pool.cap);
    FillTransfer(ln.View(), ln.DataView(), p, s.incoming, r);
    ghost var f := Filled(x.FlowView(), r);
    ok := FillAt(ln, p, x, s);
    OneSide(ln, p, f);
  }

  /** The send loop of x_send_cb or x_upstream_send_cb */
  method DrainSide(ln: Listener, ghost p: Side, x: Chain, s: Nio.Socket) returns (end: SendOutcome)
    requires ln.Valid() && ln.Stores() && ln.LiveSide(p) && x == ln.ChainAt(p)
    modifies x, x.bufs, ln.pool, s`outgoing, s`wire
    ensures Grown(ln)
    ensures ln.Valid() && ln.Stores() && ln.View() == old(ln.View())
    ensures ln.DataView() == Transfer(old(ln.View()), old(ln.DataView()), DrainEvent(p, old(s.outgoing)))
    ensures SignalOf(old(ln.DataView()), DrainEvent(p, old(s.outgoing)))
         == if p.Up? then PeerWritable(p.i, end) else ClientWritable(p.i, end)
  {
    hide Grown;
    SideFlow(ln, p);
    ghost var r := Pipe.Drain(x.View(), ln.pool.View(), s.outgoing, ln.pool.cap);
    DrainTransfer(ln.View(), ln.DataView(), p, s.outgoing, r);
    ghost var f := Drained(x.FlowView(), r);
    end := DrainAt(ln, p, x, s);
    OneSide(ln, p, f);
  }

  /** The loop of x_timeout_cb over one chain */
  method ReleaseSide(ln: Listener, ghost p: Side, x: Chain)
    requires ln.Valid() && ln.Stores() && ln.LiveSide(p) && x == ln.ChainAt(p)
    modifies x, x.bufs, ln.pool
    ensures Grown(ln)
    ensures ln.Valid() && ln.Stores() && ln.View() == old(ln.View())
    ensures ln.DataView() == Released(old(ln.DataView()), p)
  {
    hide Grown;
    SideFlow(ln, p);
    ghost var f := x.FlowView().(chain := []);
    ReleaseAt(ln, p, x);
    OneSide(ln, p, f);
  }

  ghost function Released(d: RawData, p: Side): RawData
    requires p.i in d.flows
  {
    var f := FlowAt(d.flows[p.i], p);
    d.(pool := BufPool.FreeAll(d.pool, Pipe.Ids(f.chain)),
       flows := d.flows[p.i := WithFlow(d.flows[p.i], p, f.(chain := []))])
  }

  method ReleaseBeside(pool: BufferPool, x: Chain, ghost f: set<object>)
    requires x.Valid(pool) && x !in f && pool !in f && forall b :: b in x.bufs ==> b !in f
    modifies x, x.bufs, pool
    ensures x.Valid(pool) && FromBoth(old(x.bufs), old(pool.free), x.bufs, pool.free)
    ensures pool.View() == BufPool.FreeAll(old(pool.View()), Pipe.Ids(old(x.View())))
    ensures x.FlowView() == old(x.FlowView()).(chain := [])
    ensures forall o :: o in f ==> unchanged(o)
  {
    ghost var v, g := x.View(), x.FlowView();
    assert g.chain == v;
    x.Release(pool);
    assert x.View() == [];
  }

  method ReleaseAt(ln: Listener, ghost p: Side, x: Chain)
    requires ln.Stores() && ln.LiveSide(p) && x == ln.ChainAt(p)
    modifies x, x.bufs, ln.pool
    ensures (old(ln.Valid()) ==> ln.Valid()) && ln.View() == old(ln.View())
    ensures Grown(ln)
    ensures OthersSpared(ln, p) && x.Valid(ln.pool) && FromBoth(old(x.bufs), old(ln.pool.free), x.bufs, ln.pool.free)
    ensures ln.pool.View() == BufPool.FreeAll(old(ln.pool.View()), Pipe.Ids(old(x.View())))
    ensures x.FlowView() == old(x.FlowView()).(chain := [])
  {
    ghost var g := PartsInFootprint(ln);
    ghost var f := RestOff(ln, p, null);
    ReleaseBeside(ln.pool, x, f);
    ControlSame(ln);
    RestSame(ln, p, f);
    SideGrown(ln, p, g);
  }

  twostate lemma ChainSame(pool: BufferPool, new y: Chain)
    requires old(allocated(y))
    requires old(y.Valid(pool)) && pool.Valid() && unchanged(pool)
    requires Still(y)
    ensures y.Valid(pool) && y.FlowView() == old(y.FlowView())
  {
    SameView(y.bufs);
  }

  lemma FootprintOff(ln: Listener) returns (f: set<object>)
    ensures f == Footprint(ln) && ln !in f && forall c :: c in ln.all ==> c !in f
  {
    f := Footprint(ln);
    forall o | o in f ensures o is Chain || o is Buffer || o is array<Byte> || o is BufferPool {
    }
  }

  /** What does not touch the buffers leaves the bytes as they are. */
  twostate lemma DataSame(ln: Listener, new f: set<object>)
    requires old(allocated(f)) && f == old(Footprint(ln)) && AllStill(f)
    requires old(ln.Stores()) && unchanged(ln`all) && unchanged(ln`live)
    ensures Footprint(ln) <= f
    ensures ln.Stores() && ln.DataView() == old(ln.DataView())
  {
    DataFewer(ln, f);
    assert old(ln.live) - ln.live == {};
  }

  /** The same when connections are freed. */
  twostate lemma DataFewer(ln: Listener, new f: set<object>)
    requires old(allocated(f)) && f == old(Footprint(ln)) && AllStill(f)
    requires old(ln.Stores()) && unchanged(ln`all) && ln.live <= old(ln.live)
    ensures Footprint(ln) <= f
    ensures ln.Stores()
    ensures ln.DataView() == old(ln.DataView()).(flows := ln.FlowMap())
    ensures ln.FlowMap() == old(ln.FlowMap()) - (old(ln.live) - ln.live)
  {
    PoolStill(ln, f);
    forall p | ln.LiveSide(p)
      ensures Still(ln.ChainAt(p)) && ln.ChainAt(p).Valid(ln.pool)
      ensures ln.ChainAt(p).FlowView() == old(ln.ChainAt(p).FlowView())
    {
      assert old(ln.LiveSide(p));
      KeptChain(ln, p, f);
      ChainSame(ln.pool, ln.ChainAt(p));
    }
    forall p, q | ln.LiveSide(p) && ln.LiveSide(q) && p != q
      ensures ln.ChainAt(p) != ln.ChainAt(q) && Apart(ln.ChainAt(p).bufs, ln.ChainAt(q).bufs)
    {
      assert Still(ln.ChainAt(p)) && Still(ln.ChainAt(q));
      BothSame(ln, p, q);
    }
    FlowsSame(ln);
    FootprintFewer(ln, f);
  }

  twostate lemma FootprintFewer(ln: Listener, new f: set<object>)
    requires old(allocated(f)) && f == old(Footprint(ln)) && AllStill(f)
    requires unchanged(ln`all) && ln.live <= old(ln.live)
    requires unchanged(ln.pool) && forall p :: ln.LiveSide(p) ==> Still(ln.ChainAt(p))
    ensures Footprint(ln) <= f
  {
    forall o | o in Footprint(ln) ensures o in f {
      FootprintParts(ln, o);
      if o in Region(ln.pool.free) {
        assert o in old(Region(ln.pool.free));
      } else if o != ln.pool {
        var p :| ln.LiveSide(p) && o in ChainObjects(ln.ChainAt(p));
        assert Still(ln.ChainAt(p)) && old(ln.LiveSide(p)) && ln.ChainAt(p) == old(ln.ChainAt(p));
        assert o in old(ChainObjects(ln.all[p.i].pipe1) + ChainObjects(ln.all[p.i].pipe2));
      }
    }
  }

  /** The chain of a connection that was there before. */
  twostate lemma KeptChain(ln: Listener, new p: Side, new f: set<object>)
    requires old(allocated(f)) && f == old(Footprint(ln)) && AllStill(f)
    requires old(ln.Stores()) && old(ln.LiveSide(p)) && p.i < |ln.all| && ln.all[p.i] == old(ln.all)[p.i]
    ensures Still(ln.ChainAt(p)) && ln.ChainAt(p) == old(ln.ChainAt(p))
    ensures old(ln.ChainAt(p).Valid(ln.pool))
  {
    var y := ln.ChainAt(p);
    assert y == old(ln.ChainAt(p));
    assert old(ChainObjects(y)) <= f by {
      forall o | o in old(ChainObjects(y)) ensures o in f {
        assert o in old(ChainObjects(ln.all[p.i].pipe1) + ChainObjects(ln.all[p.i].pipe2));
      }
    }
    ChainStill(y, f);
  }

  twostate lemma FlowsSame(ln: Listener)
    requires unchanged(ln`all) && ln.live <= old(ln.live)
    requires forall p :: ln.LiveSide(p) ==> ln.ChainAt(p).FlowView() == old(ln.ChainAt(p).FlowView())
    ensures ln.FlowMap() == old(ln.FlowMap()) - (old(ln.live) - ln.live)
  {
    forall i | i in ln.live && i < |ln.all| ensures ln.FlowMap()[i] == old(ln.FlowMap())[i] {
      assert ln.LiveSide(Up(i)) && ln.LiveSide(Down(i));
      assert ln.ChainAt(Up(i)) == ln.all[i].pipe1 && ln.ChainAt(Down(i)) == ln.all[i].pipe2;
    }
  }

  /** A new connection with empty chains joins. */
  twostate predicate Joining(ln: Listener, new c: Connection)
    reads *
  {
    && ln.all == old(ln.all) + [c] && ln.live == old(ln.live) + {|old(ln.all)|}
    && fresh(c) && fresh(c.pipe1) && fresh(c.pipe2) && c.pipe1 != c.pipe2
    && c.pipe1.bufs == c.pipe2.bufs == [] && c.FlowsView() == Flows(NO_FLOW, NO_FLOW)
  }

  /** What is known of a chain afterwards. */
  twostate predicate OldOrEmpty(ln: Listener, p: Side)
    requires ln.LiveSide(p)
    reads *
  {
    if p.i < |old(ln.all)|
    then old(ln.LiveSide(p)) && ln.ChainAt(p) == old(ln.ChainAt(p)) && unchanged(ln.ChainAt(p))
    else fresh(ln.ChainAt(p)) && ln.ChainAt(p).bufs == []
  }

  twostate lemma JoinedSide(ln: Listener, new c: Connection, new p: Side, new f: set<object>)
    requires old(allocated(f)) && f == old(Footprint(ln)) && AllStill(f)
    requires old(ln.Stores()) && Joining(ln, c) && ln.LiveSide(p)
    ensures ln.ChainAt(p).Valid(ln.pool) && OldOrEmpty(ln, p)
    ensures p.i < |old(ln.all)| ==> ln.ChainAt(p).FlowView() == old(ln.ChainAt(p).FlowView())
  {
    PoolStill(ln, f);
    if p.i < |old(ln.all)| {
      assert ln.all[p.i] == old(ln.all)[p.i];
      KeptChain(ln, p, f);
      ChainSame(ln.pool, ln.ChainAt(p));
    } else {
      assert ln.all[p.i] == c;
      EmptyChain(ln.pool, ln.ChainAt(p));
    }
  }

  twostate lemma JoinedPair(ln: Listener, new c: Connection, new p: Side, new q: Side)
    requires old(ln.Stores()) && Joining(ln, c) && ln.LiveSide(p) && ln.LiveSide(q) && p != q
    requires OldOrEmpty(ln, p) && OldOrEmpty(ln, q)
    ensures ln.ChainAt(p) != ln.ChainAt(q) && Apart(ln.ChainAt(p).bufs, ln.ChainAt(q).bufs)
  {
    var n := |old(ln.all)|;
    assert p.i >= n ==> ln.all[p.i] == c;
    assert q.i >= n ==> ln.all[q.i] == c;
  }

  twostate lemma JoinedFlows(ln: Listener, new c: Connection)
    requires Joining(ln, c)
    requires forall p :: ln.LiveSide(p) && p.i < |old(ln.all)| ==>
               old(ln.LiveSide(p)) && ln.ChainAt(p).FlowView() == old(ln.ChainAt(p).FlowView())
    ensures ln.FlowMap() == old(ln.FlowMap())[|old(ln.all)| := Flows(NO_FLOW, NO_FLOW)]
  {
    var n, m := |old(ln.all)|, old(ln.FlowMap());
    assert ln.all[n] == c;
    forall i | i in m && i != n ensures ln.FlowMap()[i] == m[i] {
      JoinedFlow(ln, c, i);
    }
    assert ln.FlowMap().Keys == m.Keys + {n};
    assert ln.FlowMap()[n] == c.FlowsView();
    hide *;
    PutAt(m, ln.FlowMap(), n, Flows(NO_FLOW, NO_FLOW));
  }

  twostate lemma JoinedFlow(ln: Listener, new c: Connection, new i: nat)
    requires ln.all == old(ln.all) + [c] && i < |old(ln.all)| && i in ln.live && i in old(ln.live)
    requires forall p :: ln.LiveSide(p) && p.i < |old(ln.all)| ==>
               old(ln.LiveSide(p)) && ln.ChainAt(p).FlowView() == old(ln.ChainAt(p).FlowView())
    ensures ln.FlowMap()[i] == old(ln.FlowMap())[i]
  {
    BothSides(ln, i);
    assert ln.LiveSide(Up(i)) && ln.LiveSide(Down(i));
    assert ln.ChainAt(Up(i)) == ln.all[i].pipe1 && ln.ChainAt(Down(i)) == ln.all[i].pipe2;
  }

  twostate lemma JoinedGrown(ln: Listener, new c: Connection, new f: set<object>)
    requires old(allocated(f)) && f == old(Footprint(ln)) && AllStill(f)
    requires Joining(ln, c) && fresh(c) && unchanged(ln.pool)
    requires forall p :: ln.LiveSide(p) ==> OldOrEmpty(ln, p)
    ensures Grown(ln)
  {
    forall o | o in Footprint(ln) ensures o in f || fresh(o) {
      FootprintParts(ln, o);
      if o in Region(ln.pool.free) {
        assert o in old(Region(ln.pool.free));
      } else if o != ln.pool {
        var p :| ln.LiveSide(p) && o in ChainObjects(ln.ChainAt(p));
        assert OldOrEmpty(ln, p);
        if p.i < |old(ln.all)| {
          assert o in old(ChainObjects(ln.ChainAt(p)));
          assert o in old(ChainObjects(ln.all[p.i].pipe1) + ChainObjects(ln.all[p.i].pipe2));
        }
      }
    }
  }

  twostate lemma Joined(ln: Listener, new c: Connection, new f: set<object>)
    requires old(allocated(f)) && f == old(Footprint(ln)) && AllStill(f)
    requires old(ln.Stores()) && Joining(ln, c)
    ensures Grown(ln)
    ensures ln.Stores()
    ensures var d := old(ln.DataView());
            ln.DataView() == d.(flows := d.flows[|old(ln.all)| := Flows(NO_FLOW, NO_FLOW)])
  {
    PoolStill(ln, f);
    forall p | ln.LiveSide(p)
      ensures ln.ChainAt(p).Valid(ln.pool) && OldOrEmpty(ln, p)
      ensures p.i < |old(ln.all)| ==> ln.ChainAt(p).FlowView() == old(ln.ChainAt(p).FlowView())
    {
      JoinedSide(ln, c, p, f);
    }
    forall p, q | ln.LiveSide(p) && ln.LiveSide(q) && p != q
      ensures ln.ChainAt(p) != ln.ChainAt(q) && Apart(ln.ChainAt(p).bufs, ln.ChainAt(q).bufs)
    {
      JoinedPair(ln, c, p, q);
    }
    JoinedFlows(ln, c);
    JoinedGrown(ln, c, f);
  }

  lemma EmptyChain(pool: BufferPool, y: Chain)
    requires pool.Valid() && y.bufs == []
    ensures y.Valid(pool)
  {
    assert y.bufs + pool.free == pool.free;
  }

  twostate lemma PoolStill(ln: Listener, new f: set<object>)
    requires old(allocated(f)) && f == old(Footprint(ln)) && AllStill(f)
    requires old(ln.Stores())
    ensures unchanged(ln.pool) && ln.pool.Valid() && ln.pool.View() == old(ln.pool.View())
  {
    ghost var free := old(ln.pool.free);
    forall i | 0 <= i < |free| ensures unchanged(free[i]) {
      assert free[i] in free;
      assert free[i] in old(Region(ln.pool.free));
      assert free[i] in f;
    }
    assert ln.pool in f;
    PoolSame(ln.pool);
  }
}
