/** Runs in which the wakeup towards the server is lost, and the last bytes of a server. */
module ProxyWitnesses {
  import opened Admission
  import opened AdmissionInvariant
  import Nio
  import opened BufPool
  import opened Pipe
  import opened Proxy
  import opened ProxyRuns

  const ONE_SERVER: Conf := RawConf(10, 60, [5], 1)
  const SMALL := 4

  /** A client comes and sends one byte; the server is reached; its socket is not ready to take the byte. */
  const STALLING_RUN: seq<Step> := [
    Step(Accepting, []),
    Step(Receiving(0, [Nio.Arrived([1])]), [Started]),
    Step(Connecting(0, true), []),
    Step(PeerSending(0, []), [])]

  lemma LegalStep(s: State, step: Step, rest: seq<Step>)
    requires Proxy.Ready(s, step.e) && Legal(Next(s, step), rest)
    ensures Legal(s, [step] + rest) && Exec(s, [step] + rest) == Exec(Next(s, step), rest)
  {
    assert ([step] + rest)[1..] == rest;
  }

  /** The chain of the client's bytes. */
  const ONE_BYTE: seq<Buf> := [Buf(0, [1], 0)]

  lemma OneByteArrives(pool: Pool)
    requires pool == InitPool(1)
    ensures var r := Fill([], pool, [Nio.Arrived([1])], SMALL); r.chain == ONE_BYTE && r.ok
  {
    assert pool.free == [0];
    var chain, rx := Link([], pool), [Nio.Arrived([1])];
    assert rx[1..] == [] && chain == [Fresh(0)];
    assert Nio.Received([], 3) == Nio.RecvResult(0, [], []);
    assert Nio.Received(rx, SMALL) == Nio.RecvResult(0, [1], []);
    FillTailPass(chain, Alloc(pool), rx, SMALL, Nio.Received(rx, SMALL));
    assert Append(chain, [1]) == ONE_BYTE by {
      assert chain[..0] == [] && Fresh(0).data + [1] == [1];
    }
    FillTailPass(ONE_BYTE, Alloc(pool), [], SMALL, Nio.Received([], 3));
  }

  lemma NotTaken(pool: Pool)
    ensures var r := Drain(ONE_BYTE, pool, [], SMALL); r.chain == ONE_BYTE && r.end == SendAgain
  {
  }

  lemma ArrivesControl(k: Control, k': Control)
    requires k == Accept(InitControl(ONE_SERVER)) && k' == ClientReceived(k, 0, true, [Started])
    ensures !k'.fault && k'.conns.Keys == {0} && k'.conns[0].upc == CONN_CONNECT && k'.conns[0].upConnected
  {
    var e := Enqueue(k, 0);
    assert e.queue == [0];
    StartedTurn(e, [Started]);
  }

  lemma Arrives(s: State, s': State)
    requires s == Next(Start(ONE_SERVER, SMALL), STALLING_RUN[0])
    requires Proxy.Ready(s, STALLING_RUN[1].e) && s' == Next(s, STALLING_RUN[1])
    ensures !s'.k.fault && s'.k.conns.Keys == {0} && s'.k.conns[0].upc == CONN_CONNECT && s'.k.conns[0].upConnected
    ensures s'.d.cap == SMALL && 0 in s'.d.flows && s'.d.flows[0].up.chain == ONE_BYTE
    ensures Proxy.Ready(s', STALLING_RUN[2].e)
  {
    hide ClientReceived, Fill, Accept, InitControl;
    OneByteArrives(s.d.pool);
    ArrivesControl(s.k, s'.k);
  }

  lemma Connects(s: State, s': State)
    requires !s.k.fault && s.k.conns.Keys == {0} && s.k.conns[0].upc == CONN_CONNECT && s.k.conns[0].upConnected
    requires s.d.cap == SMALL && 0 in s.d.flows && s.d.flows[0].up.chain == ONE_BYTE
    requires s' == Next(s, STALLING_RUN[2])
    ensures !s'.k.fault && s'.k.conns.Keys == {0} && s'.k.conns[0].upc == CONN_WORKING && s'.k.conns[0].upSend
    ensures s'.d == s.d && Proxy.Ready(s', STALLING_RUN[3].e)
  {
  }

  lemma GivesBack(s: State, s': State)
    requires !s.k.fault && s.k.conns.Keys == {0} && s.k.conns[0].upc == CONN_WORKING && s.k.conns[0].upSend
    requires s.d.cap == SMALL && 0 in s.d.flows && s.d.flows[0].up.chain == ONE_BYTE
    requires Proxy.Ready(s, STALLING_RUN[3].e) && s' == Next(s, STALLING_RUN[3])
    ensures Stalled(s', 0)
  {
    NotTaken(s.d.pool);
    UnreadOne(ONE_BYTE[0]);
  }

  lemma FirstReads(s: State)
    requires s == Start(ONE_SERVER, SMALL)
    ensures Proxy.Ready(s, STALLING_RUN[0].e) && Proxy.Ready(Next(s, STALLING_RUN[0]), STALLING_RUN[1].e)
  {
  }

  /** x_upstream_send_cb stops its watcher when the socket is not ready, although a byte is left. */
  lemma WakeupIsLost()
    ensures Legal(Start(ONE_SERVER, SMALL), STALLING_RUN)
    ensures Stalled(Exec(Start(ONE_SERVER, SMALL), STALLING_RUN), 0)
  {
    hide Start, Next, Stalled, Proxy.Ready;
    var run := STALLING_RUN;
    var s0 := Start(ONE_SERVER, SMALL);
    FirstReads(s0);
    var s1 := Next(s0, run[0]);
    var s2 := Next(s1, run[1]);
    Arrives(s1, s2);
    var s3 := Next(s2, run[2]);
    Connects(s2, s3);
    GivesBack(s3, Next(s3, run[3]));
    LegalStep(s3, run[3], []);
    LegalStep(s2, run[2], [run[3]] + []);
    LegalStep(s1, run[1], [run[2]] + ([run[3]] + []));
    LegalStep(s0, run[0], [run[1]] + ([run[2]] + ([run[3]] + [])));
    assert run == [run[0]] + ([run[1]] + ([run[2]] + ([run[3]] + [])));
  }

  /** A server answers with one byte and closes at once, so that one call of x_recvn meets both. */
  const ANSWER: seq<Nio.RecvEvent> := [Nio.Arrived([7]), Nio.Arrived([])]

  const LOSING_RUN: seq<Step> := [
    Step(Accepting, []),
    Step(Receiving(0, [Nio.Arrived([1])]), [Started]),
    Step(Connecting(0, true), []),
    Step(PeerReceiving(0, ANSWER), []),
    Step(Sending(0, []), [])]

  lemma AnswerLost(pool: Pool)
    ensures var r := Fill([], pool, ANSWER, SMALL);
            |r.chain| == 1 && r.chain[0].data == [] && r.chain[0].pos == 0 && !r.ok && r.got == [] && r.lost == [7]
  {
    var chain := Link([], pool);
    assert ANSWER[1..] == [Nio.Arrived([])] && [Nio.Arrived([])][1..] == [];
    assert Nio.Received(ANSWER[1..], 3) == Nio.RecvResult(-2, [], []);
    assert Nio.Received(ANSWER, SMALL) == Nio.RecvResult(-2, [7], []);
    FillTailPass(chain, Alloc(pool), ANSWER, SMALL, Nio.Received(ANSWER, SMALL));
  }

  lemma Starts(s: State, s': State)
    requires s == Next(Start(ONE_SERVER, SMALL), STALLING_RUN[0])
    requires Proxy.Ready(s, STALLING_RUN[1].e) && s' == Next(s, STALLING_RUN[1])
    ensures s'.k.queue == [] && s'.k.conns.Keys == {0} && s'.k.conns[0].upRecv && s'.k.conns[0].status == CONN_WORKING
    ensures 0 in s'.d.flows && s'.d.flows[0].down == NO_FLOW
  {
    hide ClientReceived, Fill, Accept, InitControl;
    OneByteArrives(s.d.pool);
    StartsControl(s.k, s'.k);
  }

  lemma StartsControl(k: Control, k': Control)
    requires k == Accept(InitControl(ONE_SERVER)) && k' == ClientReceived(k, 0, true, [Started])
    ensures k'.queue == [] && k'.conns.Keys == {0} && k'.conns[0].upRecv && k'.conns[0].status == CONN_WORKING
  {
    var e := Enqueue(k, 0);
    assert e.queue == [0];
    StartedTurn(e, [Started]);
  }

  /** The answer has been taken from the server, and nothing is there to be sent. */
  predicate Unanswered(f: Flow) {
    && |f.chain| == 1 && f.chain[0].data == [] && f.chain[0].pos == 0
    && f.src == [7] && f.inn == [] && f.wire == []
  }

  lemma Answers(s: State, s': State)
    requires !s.k.fault && s.k.queue == [] && s.k.conns.Keys == {0}
    requires s.k.conns[0].upc == CONN_WORKING && s.k.conns[0].status == CONN_WORKING && s.k.conns[0].upRecv
    requires s.d.cap == SMALL && 0 in s.d.flows && s.d.flows[0].down == NO_FLOW
    requires Proxy.Ready(s, LOSING_RUN[3].e) && s' == Next(s, LOSING_RUN[3])
    ensures !s'.k.fault && s'.k.conns.Keys == {0} && s'.k.conns[0].upc == CONN_CLOSE && s'.k.conns[0].eSend
    ensures s'.k.conns[0].status == CONN_WORKING && s'.d.cap == SMALL && 0 in s'.d.flows
    ensures Unanswered(s'.d.flows[0].down)
    ensures Proxy.Ready(s', LOSING_RUN[4].e)
  {
    hide Fill;
    AnswerLost(s.d.pool);
  }

  lemma ClosesUntold(s: State, s': State)
    requires !s.k.fault && s.k.conns.Keys == {0} && s.k.conns[0].upc == CONN_CLOSE && s.k.conns[0].eSend
    requires s.k.conns[0].status == CONN_WORKING && s.d.cap == SMALL && 0 in s.d.flows
    requires Unanswered(s.d.flows[0].down)
    requires Proxy.Ready(s, LOSING_RUN[4].e) && s' == Next(s, LOSING_RUN[4])
    ensures 0 in s'.k.conns && s'.k.conns[0].status == CONN_CLOSE
    ensures 0 in s'.d.flows && s'.d.flows[0].down.src == [7] && s'.d.flows[0].down.wire == []
  {
  }

  /** x_recvn has taken the byte when it meets the close, and reports the close only: the client is closed
      without having been sent what its server had answered. */
  lemma LastBytesAreLost()
    ensures Legal(Start(ONE_SERVER, SMALL), LOSING_RUN)
    ensures var s := Exec(Start(ONE_SERVER, SMALL), LOSING_RUN);
            && 0 in s.k.conns && s.k.conns[0].status == CONN_CLOSE
            && 0 in s.d.flows && s.d.flows[0].down.src == [7] && s.d.flows[0].down.wire == []
  {
    hide Start, Next, Proxy.Ready;
    var run := LOSING_RUN;
    var s0 := Start(ONE_SERVER, SMALL);
    FirstReads(s0);
    var s1 := Next(s0, run[0]);
    var s2 := Next(s1, run[1]);
    Arrives(s1, s2);
    Starts(s1, s2);
    var s3 := Next(s2, run[2]);
    ConnectsOn(s2, s3);
    var s4 := Next(s3, run[3]);
    Answers(s3, s4);
    ClosesUntold(s4, Next(s4, run[4]));
    LegalStep(s4, run[4], []);
    LegalStep(s3, run[3], [run[4]] + []);
    LegalStep(s2, run[2], [run[3]] + ([run[4]] + []));
    LegalStep(s1, run[1], [run[2]] + ([run[3]] + ([run[4]] + [])));
    LegalStep(s0, run[0], [run[1]] + ([run[2]] + ([run[3]] + ([run[4]] + []))));
    assert run == [run[0]] + ([run[1]] + ([run[2]] + ([run[3]] + ([run[4]] + []))));
  }

  lemma ConnectsOn(s: State, s': State)
    requires !s.k.fault && s.k.conns.Keys == {0} && s.k.conns[0].upc == CONN_CONNECT && s.k.conns[0].upConnected
    requires s.k.queue == [] && s.k.conns[0].upRecv && s.k.conns[0].status == CONN_WORKING
    requires s.d.cap == SMALL && 0 in s.d.flows && s.d.flows[0].down == NO_FLOW
    requires s' == Next(s, LOSING_RUN[2])
    ensures !s'.k.fault && s'.k.queue == [] && s'.k.conns.Keys == {0} && s'.k.conns[0].upRecv
    ensures s'.k.conns[0].upc == CONN_WORKING && s'.k.conns[0].status == CONN_WORKING
    ensures s'.d == s.d && Proxy.Ready(s', LOSING_RUN[3].e)
  {
  }
}
