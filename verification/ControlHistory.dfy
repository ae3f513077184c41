/** What whole runs do to the histories kept beside the control state: nothing logged is ever changed,
    connections are served in the order in which they came to the queue, and the deadline of a
    connection is settled when it is accepted. */
module ControlHistory {
  import opened Common
  import opened Admission
  import opened AdmissionInvariant
  import opened AdmissionSteps
  import opened ConnectionMoves
  import opened Evolution
  import opened ControlRuns

  // ---------- the states along a run ----------

  /** The state after the first i moves. */
  ghost function After(k: Control, run: seq<Move>, i: nat): Control
    requires Legal(k, run) && i <= |run|
    decreases i
  {
    if i == 0 then k else After(React(k, run[0].sig, run[0].outs), run[1..], i - 1)
  }

  lemma {:induction false} AfterAll(k: Control, run: seq<Move>)
    requires Legal(k, run)
    ensures After(k, run, |run|) == Exec(k, run)
    decreases |run|
  {
    if run != [] {
      AfterAll(React(k, run[0].sig, run[0].outs), run[1..]);
    }
  }

  lemma {:induction false} AfterInv(k: Control, run: seq<Move>, i: nat)
    requires Inv(k) && Legal(k, run) && i <= |run|
    ensures Inv(After(k, run, i)) && After(k, run, i).cf == k.cf
    decreases i
  {
    if i > 0 {
      hide Inv;
      ReactKeeps(k, run[0].sig, run[0].outs);
      ReactConf(k, run[0].sig, run[0].outs);
      AfterInv(React(k, run[0].sig, run[0].outs), run[1..], i - 1);
    }
  }

  // ---------- the logs only grow ----------

  /** What is logged stays logged. */
  ghost predicate Extends(k: Control, k': Control) {
    && k.accepted <= k'.accepted
    && k.h.fails <= k'.h.fails
    && k.h.picks <= k'.h.picks
    && k.h.enqueued <= k'.h.enqueued
    && k.h.admitted <= k'.h.admitted
    && k.h.dropped <= k'.h.dropped
    && k.h.freed <= k'.h.freed
    && k.h.accepts <= k'.h.accepts
  }

  /** A step that neither accepts nor frees a connection. */
  ghost predicate Quiet(k: Control, k': Control) {
    && Extends(k, k')
    && k'.h.accepts == k.h.accepts && k'.h.freed == k.h.freed && k'.now == k.now
  }

  lemma QuietTrans(k: Control, k1: Control, k2: Control)
    requires Quiet(k, k1) && Quiet(k1, k2)
    ensures Quiet(k, k2)
  {
  }

  lemma QuietSame(k: Control, k': Control)
    requires k'.h == k.h && k'.accepted == k.accepted && k'.now == k.now
    ensures Quiet(k, k')
  {
  }

  lemma TurnQuiet(k: Control)
    requires Turn(k)
    ensures Quiet(k, AdmitHead(k))
    ensures Quiet(k, FailedAttempt(k, k.queue[0])) && Quiet(k, NoSocket(k, k.queue[0]))
    ensures Quiet(k, ShutUpstream(NoSocket(k, k.queue[0]), k.queue[0]))
  {
  }

  lemma {:induction false} HandleQuiet(k: Control, outs: seq<ConnectOutcome>)
    ensures Quiet(k, Handle(k, outs).k)
    decreases |outs|, HeadOpen(k)
  {
    QuietSame(k, k.(fault := true));
    QuietSame(k, k);
    if Turn(k) {
      TurnQuiet(k);
      hide Quiet;
      var c := k.queue[0];
      match Outcome(outs)
      case Started =>
      case ConnectFailed =>
        HandleQuiet(FailedAttempt(k, c), outs[1..]);
        QuietTrans(k, FailedAttempt(k, c), Handle(FailedAttempt(k, c), outs[1..]).k);
      case SocketFailed =>
        if Open(k.conns[c].upc) {
          var s := ShutUpstream(NoSocket(k, c), c);
          HandleQuiet(s, Rest(outs));
          QuietTrans(k, s, Handle(s, Rest(outs)).k);
        }
    }
  }

  lemma FinalQuiet(k: Control, c: nat, outs: seq<ConnectOutcome>)
    requires c in k.conns
    ensures Quiet(k, Final(k, c, outs).k)
  {
    if Open(k.conns[c].upc) {
      HandleQuiet(ShutUpstream(k, c), outs);
      QuietTrans(k, ShutUpstream(k, c), Final(k, c, outs).k);
    }
  }

  lemma CloseQuiet(k: Control, c: nat, outs: seq<ConnectOutcome>)
    requires c in k.conns
    ensures Quiet(k, EventClose(k, c, outs))
  {
    QuietSame(k, k);
    FinalQuiet(k, c, outs);
    var f := Final(k, c, outs).k;
    ClientQuiet(f, c);
    QuietTrans(k, f, CloseClient(f, c));
  }

  lemma ClientQuiet(k: Control, c: nat)
    requires c in k.conns
    ensures Quiet(k, CloseClient(k, c))
  {
  }

  lemma ReceivedQuiet(k: Control, c: nat, ok: bool, outs: seq<ConnectOutcome>)
    requires c in k.conns
    ensures Quiet(k, ClientReceived(k, c, ok, outs))
  {
    CloseQuiet(k, c, outs);
    if ok {
      var e := Enqueue(k, c);
      assert Quiet(k, e);
      HandleQuiet(e, outs);
      QuietTrans(k, e, Handle(e, outs).k);
      hide EventClose, Handle;
      var k1 := if k.conns[c].status == CONN_NONE then Handle(e, outs).k else k;
      QuietSame(k1, ClientReceived(k, c, ok, outs));
      QuietTrans(k, k1, ClientReceived(k, c, ok, outs));
    }
  }

  lemma UpstreamTimeoutQuiet(k: Control, c: nat, outs: seq<ConnectOutcome>)
    requires c in k.conns
    ensures Quiet(k, UpstreamTimeout(k, c, outs))
  {
    var k1 := if k.conns[c].upc != CONN_CLOSE then Put(k, c, k.conns[c].(upc := CONN_TIMEOUT)) else k;
    FinalQuiet(k1, c, outs);
    QuietSame(k, k1);
    QuietTrans(k, k1, Final(k1, c, outs).k);
  }

  /** The log of a state in which connection c has just been freed. */
  ghost predicate LogsFreed(k: Control, k': Control, c: nat) {
    && Extends(k, k') && k'.h.accepts == k.h.accepts && |k'.h.freed| == |k.h.freed| + 1
    && k'.h.freed[|k.h.freed|].id == c && k'.h.freed[|k.h.freed|].at == k.now
  }

  lemma ExpiryLogs(k: Control, c: nat, outs: seq<ConnectOutcome>)
    requires c in k.conns
    ensures LogsFreed(k, AccessTimeout(k, c, outs), c)
  {
    var k1 := if k.conns[c].status != CONN_CLOSE then Put(k, c, k.conns[c].(status := CONN_TIMEOUT)) else k;
    CloseQuiet(k1, c, outs);
  }

  /** A step adds to the logs only.  A connection that is accepted is logged with the time, and so is one
      that is freed; nothing else touches these two logs. */
  lemma ReactLogs(k: Control, sig: Signal, outs: seq<ConnectOutcome>)
    requires Enabled(k, sig)
    ensures var k' := React(k, sig, outs);
            && Extends(k, k')
            && k'.h.accepts == k.h.accepts + (if sig.NewClient? && k.cCount < k.cf.accessMax then [k.now] else [])
            && (if sig.AccessTimer? then LogsFreed(k, k', sig.c) else k'.h.freed == k.h.freed)
  {
    hide ClientReceived, EventClose, AccessTimeout, Final, UpstreamTimeout;
    match sig
    case NewClient =>
    case ClientReadable(c, ok) => ReceivedQuiet(k, c, ok, outs);
    case ClientWritable(c, res) => CloseQuiet(k, c, outs);
    case AccessTimer(c) => ExpiryLogs(k, c, outs);
    case PeerConnected(c, ok) => FinalQuiet(k, c, outs);
    case PeerReadable(c, ok) => FinalQuiet(k, c, outs);
    case PeerWritable(c, res) => FinalQuiet(k, c, outs);
    case PeerTimer(c) => UpstreamTimeoutQuiet(k, c, outs);
    case Tick(t) =>
  }

  lemma ExtendsTrans(k: Control, k1: Control, k2: Control)
    requires Extends(k, k1) && Extends(k1, k2)
    ensures Extends(k, k2)
  {
  }

  lemma {:induction false} ExtendsFrom(k: Control, run: seq<Move>, j: nat)
    requires Legal(k, run) && j <= |run|
    ensures Extends(k, After(k, run, j))
    decreases j
  {
    if j > 0 {
      var k1 := React(k, run[0].sig, run[0].outs);
      ReactLogs(k, run[0].sig, run[0].outs);
      ExtendsFrom(k1, run[1..], j - 1);
      ExtendsTrans(k, k1, After(k1, run[1..], j - 1));
    }
  }

  /** Between any two moments of a run every log has only been added to. */
  lemma {:induction false} LogsGrow(k: Control, run: seq<Move>, i: nat, j: nat)
    requires Legal(k, run) && i <= j <= |run|
    ensures Extends(After(k, run, i), After(k, run, j))
    decreases i
  {
    if i == 0 {
      ExtendsFrom(k, run, j);
    } else {
      LogsGrow(React(k, run[0].sig, run[0].outs), run[1..], i - 1, j - 1);
    }
  }

  // ---------- first in, first out ----------

  /** Connections leave the queue for an upstream server in the order in which they entered it, and
      none enters or leaves it twice.  The queue holds exactly the unfreed waiting connections, those
      with an upstream server are unfreed connections that have been admitted, and a connection
      dropped from the queue is closed or freed. */
  lemma FifoAdmission(cf: Conf, run: seq<Move>)
    requires Legal(InitControl(cf), run)
    ensures var k := Exec(InitControl(cf), run);
            && Kept(k.h.enqueued, k.h.dropped) == k.h.admitted + k.queue
            && Distinct(k.h.enqueued) && Distinct(k.h.admitted) && Distinct(k.queue)
            && k.waitingNum == |k.queue|
            && (forall c :: c in k.conns ==> (k.conns[c].status == CONN_WAITING <==> c in k.queue))
            && (forall c :: c in k.conns ==>
                  (k.conns[c].status == CONN_WORKING <==> c in k.h.admitted && k.conns[c].status != CONN_CLOSE))
            && (forall c :: c in k.conns ==> (k.conns[c].status == CONN_NONE ==> c !in k.h.enqueued))
            && (forall c :: c in k.h.dropped && c in k.conns ==> k.conns[c].status == CONN_CLOSE)
  {
    InitInv(cf);
    ExecKeeps(InitControl(cf), run);
    var k := Exec(InitControl(cf), run);
    QueueMembers(k);
    AdmittedWork(k);
  }

  lemma AdmittedWork(k: Control)
    requires Inv(k)
    ensures forall c :: c in k.conns && c in k.h.admitted && k.conns[c].status != CONN_CLOSE ==>
              k.conns[c].status == CONN_WORKING
  {
    QueueMembers(k);
    KeptIn(k.h.enqueued, k.h.dropped);
    forall c | c in k.conns && c in k.h.admitted && k.conns[c].status != CONN_CLOSE
      ensures k.conns[c].status == CONN_WORKING
    {
      assert PairOk(k.conns[c].status, k.conns[c].upc) && SettledConn(k.conns[c]);
      assert c in k.h.admitted + k.queue;
    }
  }

  lemma {:induction false} KeptOrder(s: seq<nat>, gone: set<nat>, p: nat, q: nat) returns (i: nat, j: nat)
    requires p < q < |s| && s[p] !in gone && s[q] !in gone
    ensures i < j < |Kept(s, gone)| && Kept(s, gone)[i] == s[p] && Kept(s, gone)[j] == s[q]
  {
    var head := if s[0] in gone then [] else [s[0]];
    if p == 0 {
      KeptIn(s[1..], gone);
      assert s[1..][q - 1] == s[q];
      var j' :| 0 <= j' < |Kept(s[1..], gone)| && Kept(s[1..], gone)[j'] == s[q];
      i, j := 0, j' + 1;
    } else {
      i, j := KeptOrder(s[1..], gone, p - 1, q - 1);
      i, j := i + |head|, j + |head|;
    }
  }

  /** No overtaking: while a connection waits, none that came to the queue after it has been given an
      upstream server. */
  lemma NoOvertaking(cf: Conf, run: seq<Move>, p: nat, q: nat)
    requires Legal(InitControl(cf), run)
    requires p < q < |Exec(InitControl(cf), run).h.enqueued|
    ensures var k := Exec(InitControl(cf), run);
            var a, b := k.h.enqueued[p], k.h.enqueued[q];
            && (a in k.queue ==> b !in k.h.admitted)
            && (a in k.queue && b in k.conns ==> k.conns[b].status in {CONN_WAITING, CONN_CLOSE})
  {
    InitInv(cf);
    ExecKeeps(InitControl(cf), run);
    var k := Exec(InitControl(cf), run);
    QueueMembers(k);
    if k.h.enqueued[p] in k.queue {
      Behind(k, p, q);
    }
  }

  lemma Behind(k: Control, p: nat, q: nat)
    requires Inv(k) && p < q < |k.h.enqueued| && k.h.enqueued[p] in k.queue
    ensures var b := k.h.enqueued[q];
            b !in k.h.admitted && (b in k.conns ==> k.conns[b].status in {CONN_WAITING, CONN_CLOSE})
  {
    var a, b, kept := k.h.enqueued[p], k.h.enqueued[q], Kept(k.h.enqueued, k.h.dropped);
    QueueMembers(k);
    KeptDistinct(k.h.enqueued, k.h.dropped);
    KeptIn(k.h.enqueued, k.h.dropped);
    if b !in k.h.dropped {
      var i, j := KeptOrder(k.h.enqueued, k.h.dropped, p, q);
      ConcatParts(k.h.admitted, k.queue);
      assert i >= |k.h.admitted| && kept[j] == k.queue[j - |k.h.admitted|];
    } else {
      assert b in k.h.admitted ==> b in kept;
    }
    if b in k.conns {
      assert PairOk(k.conns[b].status, k.conns[b].upc) && SettledConn(k.conns[b]);
    }
  }

  // ---------- lifetime ----------

  /** A connection accepted in move i is logged with the time of that moment, for good. */
  lemma AcceptTime(cf: Conf, run: seq<Move>, i: nat)
    requires Legal(InitControl(cf), run) && i < |run|
    requires run[i].sig.NewClient?
    requires var k := After(InitControl(cf), run, i); k.cCount < cf.accessMax
    ensures var k, end := After(InitControl(cf), run, i), Exec(InitControl(cf), run);
            && k.accepted < |end.h.accepts| && end.h.accepts[k.accepted] == k.now
            && k.accepted in After(InitControl(cf), run, i + 1).conns
  {
    hide Inv, Extends, After, Legal, Exec;
    var k0 := InitControl(cf);
    InitInv(cf);
    AfterInv(k0, run, i);
    AfterNext(k0, run, i);
    LogsGrow(k0, run, i + 1, |run|);
    AfterAll(k0, run);
    LoggedAccept(After(k0, run, i), Exec(k0, run));
  }

  lemma LoggedAccept(k: Control, end: Control)
    requires Inv(k) && k.cCount < k.cf.accessMax && Extends(Accept(k), end)
    ensures k.accepted < |end.h.accepts| && end.h.accepts[k.accepted] == k.now && k.accepted in Accept(k).conns
  {
    hide CountsOk, QueueOk, FifoOk, RobinOk, Settled, ConnsOk;
    assert Accept(k).h.accepts[k.accepted] == k.now;
  }

  lemma {:induction false} AfterNext(k: Control, run: seq<Move>, i: nat)
    requires Legal(k, run) && i < |run|
    ensures Enabled(After(k, run, i), run[i].sig)
    ensures After(k, run, i + 1) == React(After(k, run, i), run[i].sig, run[i].outs)
    decreases i
  {
    if i > 0 {
      AfterNext(React(k, run[0].sig, run[0].outs), run[1..], i - 1);
    }
  }

  /** Every accepted connection is unfreed or has been freed exactly once, no later than the time at
      which it was accepted plus the access timeout plus CONN_FREE_TIMEOUT; past that moment it is not
      unfreed. */
  lemma BoundedLifetime(cf: Conf, run: seq<Move>)
    requires Legal(InitControl(cf), run)
    ensures var k := Exec(InitControl(cf), run);
            && |k.h.accepts| == k.accepted
            && (forall c: nat :: c < k.accepted ==> (c in k.conns <==> !HasGone(k.h.freed, c)))
            && (forall c :: c in k.conns ==> c < k.accepted && k.h.accepts[c] <= k.now <= Expiry(cf, k.h.accepts[c]))
            && (forall i, j :: 0 <= i < j < |k.h.freed| ==> k.h.freed[i].id != k.h.freed[j].id)
            && (forall i :: 0 <= i < |k.h.freed| ==>
                  var g := k.h.freed[i];
                  g.id < k.accepted && k.h.accepts[g.id] <= g.at <= Expiry(cf, k.h.accepts[g.id]))
  {
    InitInv(cf);
    ExecKeeps(InitControl(cf), run);
    var k := Exec(InitControl(cf), run);
    assert forall c :: c in k.conns ==> ConnOk(k.cf, k.now, k.conns[c]);
  }

  /** A number that is freed or closed is so for the rest of the run. */
  ghost predicate Over(k: Control, c: nat) {
    c < k.accepted && (c in k.conns ==> k.conns[c].status == CONN_CLOSE)
  }

  lemma ClosedIsOver(k: Control, c: nat)
    requires Inv(k) && c in k.conns && k.conns[c].status == CONN_CLOSE
    ensures Over(k, c)
  {
  }

  lemma OverStays(k: Control, sig: Signal, outs: seq<ConnectOutcome>, c: nat)
    requires Inv(k) && Enabled(k, sig) && Over(k, c)
    ensures Over(React(k, sig, outs), c)
  {
    hide Inv, React;
    ReactLogs(k, sig, outs);
    ReactKeys(k, sig, outs);
    if c in k.conns && sig != AccessTimer(c) {
      ReactReacts(k, sig, outs, c);
    }
  }

  lemma {:induction false} OverFrom(k: Control, run: seq<Move>, j: nat, c: nat)
    requires Inv(k) && Legal(k, run) && j <= |run| && Over(k, c)
    ensures Over(After(k, run, j), c)
    decreases j
  {
    if j > 0 {
      hide Inv, Over;
      OverStays(k, run[0].sig, run[0].outs, c);
      ReactKeeps(k, run[0].sig, run[0].outs);
      OverFrom(React(k, run[0].sig, run[0].outs), run[1..], j - 1, c);
    }
  }

  lemma {:induction false} OverBetween(k: Control, run: seq<Move>, i: nat, j: nat, c: nat)
    requires Inv(k) && Legal(k, run) && i <= j <= |run| && Over(After(k, run, i), c)
    ensures Over(After(k, run, j), c)
    decreases i
  {
    hide Inv, Over;
    if i == 0 {
      OverFrom(k, run, j, c);
    } else {
      ReactKeeps(k, run[0].sig, run[0].outs);
      OverBetween(React(k, run[0].sig, run[0].outs), run[1..], i - 1, j - 1, c);
    }
  }

  /** Traffic never moves the deadline of a connection: as long as it is not closed, it is the time at
      which the connection was accepted plus the access timeout, the same at any two moments. */
  lemma DeadlineIsFixed(cf: Conf, run: seq<Move>, i: nat, j: nat, c: nat)
    requires Legal(InitControl(cf), run) && i <= j <= |run|
    requires var k, k' := After(InitControl(cf), run, i), After(InitControl(cf), run, j);
             c in k.conns && c in k'.conns && k'.conns[c].status != CONN_CLOSE
    ensures var k, k' := After(InitControl(cf), run, i), After(InitControl(cf), run, j);
            && k.conns[c].status != CONN_CLOSE
            && k.conns[c].eTimer == k'.conns[c].eTimer
            && c < |k.h.accepts| && k.conns[c].eTimer == Some(k.h.accepts[c] + cf.accessTimeout as real)
  {
    hide Inv, Extends, After;
    var k0 := InitControl(cf);
    InitInv(cf);
    AfterInv(k0, run, i);
    AfterInv(k0, run, j);
    LogsGrow(k0, run, i, j);
    var k, k' := After(k0, run, i), After(k0, run, j);
    if k.conns[c].status == CONN_CLOSE {
      ClosedIsOver(k, c);
      OverBetween(k0, run, i, j, c);
    }
    SameDeadline(k, k', c);
  }

  lemma SameDeadline(k: Control, k': Control, c: nat)
    requires Inv(k) && Inv(k') && k.cf == k'.cf && Extends(k, k') && c in k.conns && c in k'.conns
    requires k.conns[c].status != CONN_CLOSE && k'.conns[c].status != CONN_CLOSE
    ensures c < |k.h.accepts|
    ensures k.conns[c].eTimer == k'.conns[c].eTimer
    ensures k.conns[c].eTimer == Some(k.h.accepts[c] + k.cf.accessTimeout as real)
  {
    hide CountsOk, QueueOk, FifoOk, RobinOk, Settled;
    assert ConnOk(k.cf, k.now, k.conns[c]) && ConnOk(k'.cf, k'.now, k'.conns[c]);
  }
}
