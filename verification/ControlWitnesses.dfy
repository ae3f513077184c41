/** Runs that show what the program does not promise. */
module ControlWitnesses {
  import opened Common
  import opened Admission
  import opened AdmissionInvariant
  import opened Scheduler
  import opened ControlRuns

  lemma LegalStep(k: Control, m: Move, rest: seq<Move>)
    requires Enabled(k, m.sig) && Legal(React(k, m.sig, m.outs), rest)
    ensures Legal(k, [m] + rest) && Exec(k, [m] + rest) == Exec(React(k, m.sig, m.outs), rest)
  {
    assert ([m] + rest)[1..] == rest;
  }

  const ONE_AT_A_TIME: Conf := RawConf(10, 60, [5, 5], 1)

  /** One upstream connection at a time is allowed, two servers, the first of which refuses: the
      refusal makes room for a second connection. */
  lemma RefusalOvershoots() returns (run: seq<Move>)
    ensures Legal(InitControl(ONE_AT_A_TIME), run)
    ensures var k := Exec(InitControl(ONE_AT_A_TIME), run);
            k.h.fails == 1 && |Opened(k.conns)| == 2 && k.workingNum == 1 && k.cf.workingMax == 1
  {
    var k0 := InitControl(ONE_AT_A_TIME);
    var k1 := Accept(k0);
    var k2 := Accept(k1);
    var m2 := Move(ClientReadable(0, true), [ConnectFailed, Started]);
    var m3 := Move(ClientReadable(1, true), [Started]);
    var k3 := React(k2, m2.sig, m2.outs);
    FirstClient(k2, k3);
    var k4 := React(k3, m3.sig, m3.outs);
    SecondClient(k3, k4);
    LegalStep(k3, m3, []);
    LegalStep(k2, m2, [m3]);
    LegalStep(k1, Move(NewClient, []), [m2] + [m3]);
    LegalStep(k0, Move(NewClient, []), [Move(NewClient, [])] + ([m2] + [m3]));
    run := [Move(NewClient, [])] + ([Move(NewClient, [])] + ([m2] + [m3]));
  }

  lemma FirstClient(k: Control, k': Control)
    requires k == Accept(Accept(InitControl(ONE_AT_A_TIME)))
    requires k' == ClientReceived(k, 0, true, [ConnectFailed, Started])
    ensures k'.conns.Keys == {0, 1} && k'.cf == ONE_AT_A_TIME && !k'.fault && k'.queue == []
    ensures k'.workingNum == 0 && k'.h.fails == 1 && k'.upIndex == 2
    ensures k'.conns[0].upc == CONN_CONNECT && k'.conns[1] == k.conns[1]
  {
    var e := Enqueue(k, 0);
    var f := FailedAttempt(e, 0);
    assert e.queue == [0] && f.queue == [0];
    RefusedTurn(e, [ConnectFailed, Started]);
    assert [ConnectFailed, Started][1..] == [Started];
    StartedTurn(f, [Started]);
    assert NextPeer(f) == 1;
  }

  lemma SecondClient(k: Control, k': Control)
    requires k.conns.Keys == {0, 1} && k.cf == ONE_AT_A_TIME && !k.fault && k.queue == []
    requires k.workingNum == 0 && k.h.fails == 1
    requires k.conns[0].upc == CONN_CONNECT && k.conns[1].status == CONN_NONE && k.conns[1].upc == CONN_NONE
    requires k' == ClientReceived(k, 1, true, [Started])
    ensures k'.h.fails == 1 && |Opened(k'.conns)| == 2 && k'.workingNum == 1 && k'.cf == k.cf
  {
    var e := Enqueue(k, 1);
    assert e.queue == [1];
    StartedTurn(e, [Started]);
    assert Opened(k'.conns) == {0, 1};
  }

  /** n refusals. */
  function Refusing(n: nat): (outs: seq<ConnectOutcome>)
    ensures |outs| == n && forall i :: 0 <= i < n ==> outs[i] == ConnectFailed
  {
    seq(n, _ => ConnectFailed)
  }

  function RefusedRun(n: nat): seq<Move> {
    [Move(NewClient, []), Move(ClientReadable(0, true), Refusing(n))]
  }

  /** One client has come and sends its first bytes while every server refuses: the callback goes
      through any number of attempts, each of which takes one off working_num, and the client stays
      where it is.  Only a failing socket() ends the recursion. */
  lemma RefusalsWithoutEnd(n: nat)
    ensures Legal(InitControl(ONE_AT_A_TIME), RefusedRun(n))
    ensures var k := Exec(InitControl(ONE_AT_A_TIME), RefusedRun(n));
            k.h.fails == n && k.workingNum == 0 - n && k.queue == [0] && |Opened(k.conns)| == 0
  {
    var k0 := InitControl(ONE_AT_A_TIME);
    var k1 := Accept(k0);
    var m := Move(ClientReadable(0, true), Refusing(n));
    LegalStep(k1, m, []);
    LegalStep(k0, Move(NewClient, []), [m]);
    assert [m] + [] == [m] && [Move(NewClient, [])] + [m] == RefusedRun(n);
    AllRefuseFirst(k1, React(k1, m.sig, m.outs), n);
    UpstreamConcurrency(ONE_AT_A_TIME, RefusedRun(n));
    InitInv(ONE_AT_A_TIME);
    ExecKeeps(k0, RefusedRun(n));
  }

  lemma AllRefuseFirst(k: Control, k': Control, n: nat)
    requires k == Accept(InitControl(ONE_AT_A_TIME))
    requires k' == ClientReceived(k, 0, true, Refusing(n))
    ensures k'.h.fails == n && k'.workingNum == 0 - n && k'.queue == [0]
  {
    var e := Enqueue(k, 0);
    assert e.queue == [0] && Turn(e) && QueueIdle(e);
    AllRefused(e, Refusing(n));
  }

  const NO_PLACES: Conf := RawConf(10, 60, [5], 0)

  /** A connection times out in the queue; the next one to be queued is linked behind it. */
  lemma TimeoutInQueueTouchesFreedMemory() returns (run: seq<Move>)
    ensures Legal(InitControl(NO_PLACES), run)
    ensures Exec(InitControl(NO_PLACES), run).fault
  {
    var k0 := InitControl(NO_PLACES);
    var k1 := Accept(k0);
    var m1 := Move(ClientReadable(0, true), []);
    var k2 := React(k1, m1.sig, m1.outs);
    QueuedClient(k1, k2);
    var m2 := Move(Tick(60.0), []);
    var k3 := k2.(now := 60.0);
    var m3 := Move(AccessTimer(0), []);
    var k4 := AccessTimeout(k3, 0, []);
    LostClient(k3, k4);
    var k5 := Accept(k4);
    var m5 := Move(ClientReadable(1, true), []);
    BehindTheLost(k4, k5, React(k5, m5.sig, m5.outs));
    LegalStep(k5, m5, []);
    run := [m5] + [];
    LegalStep(k4, Move(NewClient, []), run);
    run := [Move(NewClient, [])] + run;
    LegalStep(k3, m3, run);
    run := [m3] + run;
    LegalStep(k2, m2, run);
    run := [m2] + run;
    LegalStep(k1, m1, run);
    run := [m1] + run;
    LegalStep(k0, Move(NewClient, []), run);
    run := [Move(NewClient, [])] + run;
  }

  lemma QueuedClient(k: Control, k': Control)
    requires k == Accept(InitControl(NO_PLACES)) && k' == ClientReceived(k, 0, true, [])
    ensures k'.queue == [0] && k'.conns.Keys == {0} && k'.conns[0].status == CONN_WAITING && !k'.fault
    ensures k'.conns[0].eTimer == Some(60.0) && k'.conns[0].upTimer == None && k'.conns[0].upc == CONN_NONE
    ensures k'.now == 0.0 && k'.accepted == 1 && k'.cCount == 1 && k'.cf == NO_PLACES
  {
  }

  lemma LostClient(k: Control, k': Control)
    requires k.queue == [0] && k.conns.Keys == {0} && k.conns[0].status == CONN_WAITING && k.conns[0].upc == CONN_NONE
    requires k' == AccessTimeout(k, 0, [])
    ensures k'.queue == [0] && k'.conns == map[] && k'.accepted == k.accepted && k'.cCount == k.cCount - 1
    ensures k'.fault == k.fault && k'.cf == k.cf
  {
  }

  lemma BehindTheLost(k4: Control, k5: Control, k6: Control)
    requires k4.queue == [0] && k4.conns == map[] && k4.accepted == 1 && k4.cCount == 0 && k4.cf == NO_PLACES
    requires k5 == Accept(k4) && k6 == ClientReceived(k5, 1, true, [])
    ensures k5.conns.Keys == {1} && k5.conns[1].eRecv && k5.fault == k4.fault && k6.fault
  {
    assert Dangling(k5, 0);
  }
}
