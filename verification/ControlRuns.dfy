/** Whole runs of the control state: any sequence of enabled callbacks with any socket outcomes,
    from an empty proxy. */
module ControlRuns {
  import opened Common
  import opened Admission
  import opened AdmissionInvariant
  import opened AdmissionSteps
  import opened Scheduler

  datatype Move = Move(sig: Signal, outs: seq<ConnectOutcome>)

  ghost predicate Legal(k: Control, run: seq<Move>)
    decreases |run|
  {
    run == [] || (Enabled(k, run[0].sig) && Legal(React(k, run[0].sig, run[0].outs), run[1..]))
  }

  ghost function Exec(k: Control, run: seq<Move>): Control
    requires Legal(k, run)
    decreases |run|
  {
    if run == [] then k else Exec(React(k, run[0].sig, run[0].outs), run[1..])
  }

  lemma {:induction false} ExecInv(k: Control, run: seq<Move>)
    requires Inv(k) && Legal(k, run)
    ensures Inv(Exec(k, run))
    decreases |run|
  {
    if run != [] {
      ReactKeeps(k, run[0].sig, run[0].outs);
      ExecInv(React(k, run[0].sig, run[0].outs), run[1..]);
    }
  }

  lemma {:induction false} ExecConf(k: Control, run: seq<Move>)
    requires Legal(k, run)
    ensures Exec(k, run).cf == k.cf
    decreases |run|
  {
    if run != [] {
      ReactConf(k, run[0].sig, run[0].outs);
      ExecConf(React(k, run[0].sig, run[0].outs), run[1..]);
    }
  }

  lemma ExecKeeps(k: Control, run: seq<Move>)
    requires Inv(k) && Legal(k, run)
    ensures Inv(Exec(k, run)) && Exec(k, run).cf == k.cf
  {
    ExecInv(k, run);
    ExecConf(k, run);
  }

  lemma {:induction false} HandleConf(k: Control, outs: seq<ConnectOutcome>)
    ensures Handle(k, outs).k.cf == k.cf
    decreases |outs|, HeadOpen(k)
  {
    if Turn(k) {
      var c := k.queue[0];
      match Outcome(outs)
      case Started =>
      case ConnectFailed => HandleConf(FailedAttempt(k, c), outs[1..]);
      case SocketFailed =>
        if Open(k.conns[c].upc) {
          HandleConf(ShutUpstream(NoSocket(k, c), c), Rest(outs));
        }
    }
  }

  lemma FinalConf(k: Control, c: nat, outs: seq<ConnectOutcome>)
    requires c in k.conns
    ensures Final(k, c, outs).k.cf == k.cf
  {
    if Open(k.conns[c].upc) {
      HandleConf(ShutUpstream(k, c), outs);
    }
  }

  lemma ReactConf(k: Control, sig: Signal, outs: seq<ConnectOutcome>)
    requires Enabled(k, sig)
    ensures React(k, sig, outs).cf == k.cf
  {
    match sig
    case NewClient =>
    case ClientReadable(c, ok) =>
      FinalConf(k, c, outs);
      HandleConf(Enqueue(k, c), outs);
    case ClientWritable(c, res) => FinalConf(k, c, outs);
    case AccessTimer(c) =>
      FinalConf(if k.conns[c].status != CONN_CLOSE then Put(k, c, k.conns[c].(status := CONN_TIMEOUT)) else k, c, outs);
    case PeerConnected(c, ok) => FinalConf(k, c, outs);
    case PeerReadable(c, ok) => FinalConf(k, c, outs);
    case PeerWritable(c, res) => FinalConf(k, c, outs);
    case PeerTimer(c) =>
      FinalConf(if k.conns[c].upc != CONN_CLOSE then Put(k, c, k.conns[c].(upc := CONN_TIMEOUT)) else k, c, outs);
    case Tick(t) =>
  }

  // ---------- concurrency ----------

  /** All outcomes in a script that are refusals. */
  function Refused(outs: seq<ConnectOutcome>): nat {
    if outs == [] then 0 else (if outs[0] == ConnectFailed then 1 else 0) + Refused(outs[1..])
  }

  /** The state in which closing the upstream side of c calls the scheduler, if it does. */
  function ShutCall(k: Control, c: nat): Option<Control>
    requires c in k.conns
  {
    if Open(k.conns[c].upc) then Some(ShutUpstream(k, c)) else None
  }

  /** The state in which a callback calls the scheduler, if it does. */
  ghost function SchedulerCall(k: Control, sig: Signal): Option<Control>
    requires Enabled(k, sig)
  {
    match sig
    case NewClient => None
    case Tick(_) => None
    case ClientReadable(c, ok) =>
      if !ok then (if k.conns[c].status == CONN_CLOSE then None else ShutCall(k, c))
      else if k.conns[c].status == CONN_NONE then Some(Enqueue(k, c)) else None
    case ClientWritable(c, end) =>
      if k.conns[c].status != CONN_CLOSE && (end == SendError || (end == SendDry && k.conns[c].upc == CONN_CLOSE))
      then ShutCall(k, c) else None
    case AccessTimer(c) =>
      if k.conns[c].status == CONN_CLOSE then None else ShutCall(Put(k, c, k.conns[c].(status := CONN_TIMEOUT)), c)
    case PeerConnected(c, ok) => if ok then None else ShutCall(k, c)
    case PeerReadable(c, ok) => if ok then None else ShutCall(k, c)
    case PeerWritable(c, end) => if end == SendError then ShutCall(k, c) else None
    case PeerTimer(c) =>
      ShutCall(if k.conns[c].upc != CONN_CLOSE then Put(k, c, k.conns[c].(upc := CONN_TIMEOUT)) else k, c)
  }

  /** The refusals that a call of the scheduler meets: those at the front of the script, provided that
      a connection waits and a place is free. */
  ghost function MetBy(call: Option<Control>, outs: seq<ConnectOutcome>): nat {
    if call.Some? && Turn(call.value) then Refusals(outs) else 0
  }

  ghost function Met(k: Control, m: Move): nat
    requires Enabled(k, m.sig)
  {
    MetBy(SchedulerCall(k, m.sig), m.outs)
  }

  ghost function MetIn(k: Control, run: seq<Move>): nat
    requires Legal(k, run)
    decreases |run|
  {
    if run == [] then 0 else Met(k, run[0]) + MetIn(React(k, run[0].sig, run[0].outs), run[1..])
  }

  function RefusedIn(run: seq<Move>): nat {
    if run == [] then 0 else Refused(run[0].outs) + RefusedIn(run[1..])
  }

  lemma {:induction false} HandleFails(k: Control, outs: seq<ConnectOutcome>)
    requires QueueIdle(k)
    ensures Handle(k, outs).k.h.fails == k.h.fails + MetBy(Some(k), outs)
    decreases |outs|
  {
    if Turn(k) {
      HandleTurn(k, outs);
      if Outcome(outs) == ConnectFailed {
        RefuseFrame(k);
        HandleFails(FailedAttempt(k, k.queue[0]), outs[1..]);
      }
    }
  }

  lemma FinalFails(k: Control, c: nat, outs: seq<ConnectOutcome>)
    requires Mid(k) && c in k.conns
    ensures Final(k, c, outs).k.h.fails == k.h.fails + MetBy(ShutCall(k, c), outs)
  {
    if Open(k.conns[c].upc) {
      ShutKeeps(k, c);
      MidQueueIdle(ShutUpstream(k, c));
      HandleFails(ShutUpstream(k, c), outs);
    }
  }

  lemma QueuedFails(k: Control, c: nat, outs: seq<ConnectOutcome>)
    requires Mid(k) && c in k.conns && k.conns[c].status == CONN_NONE
    ensures Handle(Enqueue(k, c), outs).k.h.fails == k.h.fails + MetBy(Some(Enqueue(k, c)), outs)
  {
    EnqueueKeeps(k, c);
    MidQueueIdle(Enqueue(k, c));
    HandleFails(Enqueue(k, c), outs);
  }

  lemma ExpiryFails(k: Control, c: nat, outs: seq<ConnectOutcome>)
    requires Inv(k) && c in k.conns && k.conns[c].status != CONN_CLOSE
    ensures var k1 := Put(k, c, k.conns[c].(status := CONN_TIMEOUT));
            AccessTimeout(k, c, outs).h.fails == k.h.fails + MetBy(ShutCall(k1, c), outs)
  {
    hide CountsOk, QueueOk, FifoOk, RobinOk, FreedOk;
    var k1 := Put(k, c, k.conns[c].(status := CONN_TIMEOUT));
    if k.conns[c].status == CONN_WAITING {
      assert ConnOk(k.cf, k.now, k.conns[c]);
      WaitingTimeout(k, c, outs);
    } else {
      MarkedMid(k, c);
      hide Mid, Settled, MetBy, Final;
      FinalFails(k1, c, outs);
    }
  }

  lemma MarkedMid(k: Control, c: nat)
    requires Inv(k) && c in k.conns && k.conns[c].status != CONN_WAITING && k.conns[c].status != CONN_CLOSE
    ensures Mid(Put(k, c, k.conns[c].(status := CONN_TIMEOUT)))
  {
    hide CountsOk, QueueOk, FifoOk, RobinOk, FreedOk;
    PutKeeps(k, c, k.conns[c].(status := CONN_TIMEOUT));
  }

  lemma UpstreamTimeoutFails(k: Control, c: nat, outs: seq<ConnectOutcome>)
    requires Inv(k) && c in k.conns && k.conns[c].upTimer.Some?
    ensures var k1 := Put(k, c, k.conns[c].(upc := CONN_TIMEOUT));
            UpstreamTimeout(k, c, outs).h.fails == k.h.fails + MetBy(ShutCall(k1, c), outs)
    ensures k.conns[c].upc != CONN_CLOSE
  {
    MarkTimeout(k, c);
    hide Mid, Settled, MetBy, Final;
    FinalFails(Put(k, c, k.conns[c].(upc := CONN_TIMEOUT)), c, outs);
  }

  lemma NoCall(outs: seq<ConnectOutcome>)
    ensures MetBy(None, outs) == 0
  {
  }

  /** A callback logs exactly the refusals that it meets. */
  lemma ReactFails(k: Control, m: Move)
    requires Inv(k) && Enabled(k, m.sig)
    ensures React(k, m.sig, m.outs).h.fails == k.h.fails + Met(k, m)
  {
    hide ConnsOk, CountsOk, QueueOk, FifoOk, RobinOk, FreedOk, Settled, MetBy, ShutCall, Final, Handle;
    NoCall(m.outs);
    match m.sig
    case NewClient =>
    case ClientReadable(c, ok) =>
      FinalFails(k, c, m.outs);
      if k.conns[c].status == CONN_NONE {
        QueuedFails(k, c, m.outs);
      }
    case ClientWritable(c, end) => FinalFails(k, c, m.outs);
    case AccessTimer(c) =>
      if k.conns[c].status != CONN_CLOSE {
        ExpiryFails(k, c, m.outs);
      }
    case PeerConnected(c, ok) => FinalFails(k, c, m.outs);
    case PeerReadable(c, ok) => FinalFails(k, c, m.outs);
    case PeerWritable(c, end) => FinalFails(k, c, m.outs);
    case PeerTimer(c) => UpstreamTimeoutFails(k, c, m.outs);
    case Tick(t) =>
  }

  lemma {:induction false} ExecFails(k: Control, run: seq<Move>)
    requires Inv(k) && Legal(k, run)
    ensures Exec(k, run).h.fails == k.h.fails + MetIn(k, run)
    decreases |run|
  {
    if run != [] {
      ReactKeeps(k, run[0].sig, run[0].outs);
      ReactFails(k, run[0]);
      ExecFails(React(k, run[0].sig, run[0].outs), run[1..]);
    }
  }

  lemma {:induction false} RefusalsRefused(outs: seq<ConnectOutcome>)
    ensures Refusals(outs) <= Refused(outs)
  {
    if outs != [] {
      RefusalsRefused(outs[1..]);
    }
  }

  lemma {:induction false} MetRefused(k: Control, run: seq<Move>)
    requires Legal(k, run)
    ensures MetIn(k, run) <= RefusedIn(run)
    decreases |run|
  {
    if run != [] {
      RefusalsRefused(run[0].outs);
      MetRefused(React(k, run[0].sig, run[0].outs), run[1..]);
    }
  }

  lemma {:induction false} NoneRefused(outs: seq<ConnectOutcome>)
    ensures Refused(outs) == 0 <==> ConnectFailed !in outs
  {
    if outs != [] {
      assert outs == [outs[0]] + outs[1..];
      NoneRefused(outs[1..]);
    }
  }

  /** No connect() of the run fails at once. */
  ghost predicate NeverRefused(run: seq<Move>) {
    forall i :: 0 <= i < |run| ==> ConnectFailed !in run[i].outs
  }

  lemma {:induction false} NoneRefusedIn(run: seq<Move>)
    requires NeverRefused(run)
    ensures RefusedIn(run) == 0
  {
    if run != [] {
      NoneRefused(run[0].outs);
      assert forall i :: 0 <= i < |run[1..]| ==> run[1..][i] == run[i + 1];
      NoneRefusedIn(run[1..]);
    }
  }

  /** In every reachable state working_num falls short of the number of open upstream sockets by the
      number of refused connect() calls that the run has met.  So it tells their number exactly when
      the run has met none, and they exceed the configured maximum by at most the refusals in the
      run; where no connect() is refused they never exceed it. */
  lemma UpstreamConcurrency(cf: Conf, run: seq<Move>)
    requires Legal(InitControl(cf), run)
    ensures var k, met := Exec(InitControl(cf), run), MetIn(InitControl(cf), run);
            && k.workingNum + met == |Opened(k.conns)|
            && (k.workingNum == |Opened(k.conns)| <==> met == 0)
            && met <= RefusedIn(run)
            && |Opened(k.conns)| <= Max(0, cf.workingMax) + met
            && (NeverRefused(run) ==> met == 0 && |Opened(k.conns)| <= Max(0, cf.workingMax))
  {
    InitInv(cf);
    ExecKeeps(InitControl(cf), run);
    ExecFails(InitControl(cf), run);
    MetRefused(InitControl(cf), run);
    if NeverRefused(run) {
      NoneRefusedIn(run);
    }
  }

  // ---------- clients ----------

  lemma ClientCount(cf: Conf, run: seq<Move>)
    requires Legal(InitControl(cf), run)
    ensures var k := Exec(InitControl(cf), run);
            && k.cCount == |Unclosed(k.conns)|
            && (cf.accessMax >= 0 ==> k.cCount <= cf.accessMax)
  {
    InitInv(cf);
    ExecKeeps(InitControl(cf), run);
  }

  /** The eight pairs of states that occur between callbacks. */
  predicate OccurringPair(status: Phase, upc: Phase) {
    (status, upc) in {
      (CONN_NONE, CONN_NONE), (CONN_WAITING, CONN_NONE), (CONN_WAITING, CONN_CLOSE),
      (CONN_WORKING, CONN_CONNECT), (CONN_WORKING, CONN_WORKING), (CONN_WORKING, CONN_CLOSE),
      (CONN_CLOSE, CONN_NONE), (CONN_CLOSE, CONN_CLOSE)}
  }

  lemma StatesAndWatchers(cf: Conf, run: seq<Move>, c: nat)
    requires Legal(InitControl(cf), run) && c in Exec(InitControl(cf), run).conns
    ensures var v := Exec(InitControl(cf), run).conns[c];
            && OccurringPair(v.status, v.upc)
            && (v.upRecv <==> v.upc in {CONN_CONNECT, CONN_WORKING})
            && (v.upTimer.Some? <==> v.upc in {CONN_CONNECT, CONN_WORKING})
            && (v.upConnected <==> v.upc == CONN_CONNECT)
            && (v.upSend ==> v.upc == CONN_WORKING)
            && (v.eRecv <==> v.status != CONN_CLOSE)
            && (v.status == CONN_CLOSE ==> !v.eRecv && !v.eSend && !v.upRecv && !v.upSend && !v.upConnected)
            && (v.status != CONN_CLOSE && v.upc == CONN_CLOSE ==> v.eSend)
            && v.eTimer.Some?
  {
    InitInv(cf);
    ExecKeeps(InitControl(cf), run);
    var k := Exec(InitControl(cf), run);
    assert ConnOk(k.cf, k.now, k.conns[c]) && SettledConn(k.conns[c]);
  }

  // ---------- freed memory ----------

  /** The access timer never fires on a waiting connection. */
  ghost predicate SparesWaiting(k: Control, run: seq<Move>)
    requires Legal(k, run)
    decreases |run|
  {
    run == [] || (!TimesOutWaiting(k, run[0].sig) && SparesWaiting(React(k, run[0].sig, run[0].outs), run[1..]))
  }

  /** No freed connection is ever in the queue, and no freed memory is ever touched. */
  ghost predicate AlwaysSound(k: Control, run: seq<Move>)
    requires Legal(k, run)
    decreases |run|
  {
    && !k.fault && NoDangling(k)
    && (run == [] || AlwaysSound(React(k, run[0].sig, run[0].outs), run[1..]))
  }

  lemma {:induction false} SoundFrom(k: Control, run: seq<Move>)
    requires Inv(k) && Legal(k, run) && !k.fault && NoDangling(k)
    ensures AlwaysSound(k, run) <==> SparesWaiting(k, run)
    decreases |run|
  {
    if run != [] {
      var k' := React(k, run[0].sig, run[0].outs);
      ReactKeeps(k, run[0].sig, run[0].outs);
      if !TimesOutWaiting(k, run[0].sig) {
        SoundFrom(k', run[1..]);
      } else {
        assert !AlwaysSound(k', run[1..]);
      }
    }
  }

  /** A run keeps the queue free of freed memory exactly when no access timer fires on a waiting
      connection. */
  lemma QueueSoundIffWaitingSpared(cf: Conf, run: seq<Move>)
    requires Legal(InitControl(cf), run)
    ensures AlwaysSound(InitControl(cf), run) <==> SparesWaiting(InitControl(cf), run)
  {
    InitInv(cf);
    SoundFrom(InitControl(cf), run);
  }

  // ---------- a repaired timeout ----------

  /** The program with an access timer that leaves the status alone. */
  ghost function GentleReact(k: Control, sig: Signal, outs: seq<ConnectOutcome>): Control
    requires Enabled(k, sig)
  {
    if sig.AccessTimer? then GentleTimeout(k, sig.c, outs) else React(k, sig, outs)
  }

  ghost predicate GentleLegal(k: Control, run: seq<Move>)
    decreases |run|
  {
    run == [] || (Enabled(k, run[0].sig) && GentleLegal(GentleReact(k, run[0].sig, run[0].outs), run[1..]))
  }

  ghost function GentleExec(k: Control, run: seq<Move>): Control
    requires GentleLegal(k, run)
    decreases |run|
  {
    if run == [] then k else GentleExec(GentleReact(k, run[0].sig, run[0].outs), run[1..])
  }

  lemma GentleStep(k: Control, sig: Signal, outs: seq<ConnectOutcome>)
    requires Inv(k) && !k.fault && NoDangling(k) && Enabled(k, sig)
    ensures var k' := GentleReact(k, sig, outs); Inv(k') && !k'.fault && NoDangling(k')
  {
    hide Inv, NoDangling, GentleTimeout, React;
    if sig.AccessTimer? {
      GentleKeeps(k, sig.c, outs);
    } else {
      ReactKeeps(k, sig, outs);
    }
  }

  lemma {:induction false} GentleFrom(k: Control, run: seq<Move>)
    requires Inv(k) && !k.fault && NoDangling(k) && GentleLegal(k, run)
    ensures var k' := GentleExec(k, run); Inv(k') && !k'.fault && NoDangling(k')
    decreases |run|
  {
    if run != [] {
      GentleStep(k, run[0].sig, run[0].outs);
      GentleFrom(GentleReact(k, run[0].sig, run[0].outs), run[1..]);
    }
  }

  /** With that change no run ever touches freed memory or leaves it in the queue, whichever timers
      fire; and the counters and statuses are right all along. */
  lemma GentleRunsAreSound(cf: Conf, run: seq<Move>)
    requires GentleLegal(InitControl(cf), run)
    ensures var k := GentleExec(InitControl(cf), run);
            && !k.fault && NoDangling(k)
            && k.workingNum + k.h.fails == |Opened(k.conns)|
            && k.cCount == |Unclosed(k.conns)|
            && Kept(k.h.enqueued, k.h.dropped) == k.h.admitted + k.queue
            && (forall c :: c in k.conns ==> (k.conns[c].status == CONN_WAITING <==> c in k.queue))
  {
    InitInv(cf);
    GentleFrom(InitControl(cf), run);
  }

  // ---------- work conservation ----------

  ghost predicate AllGetThrough(run: seq<Move>) {
    forall i :: 0 <= i < |run| ==> AllStarted(run[i].outs)
  }

  lemma {:induction false} ConservesFrom(k: Control, run: seq<Move>)
    requires Inv(k) && Legal(k, run) && !k.fault && NoDangling(k) && Conserving(k)
    requires SparesWaiting(k, run) && AllGetThrough(run)
    ensures Conserving(Exec(k, run))
    decreases |run|
  {
    if run != [] {
      ReactKeeps(k, run[0].sig, run[0].outs);
      ReactConserves(k, run[0].sig, run[0].outs);
      assert AllGetThrough(run[1..]) by {
        forall i | 0 <= i < |run[1..]| ensures AllStarted(run[1..][i].outs) {
          assert AllStarted(run[i + 1].outs);
        }
      }
      ConservesFrom(React(k, run[0].sig, run[0].outs), run[1..]);
    }
  }

  /** When every connection attempt gets through, no connection ever waits beside a free place. */
  lemma WorkConservation(cf: Conf, run: seq<Move>)
    requires Legal(InitControl(cf), run) && SparesWaiting(InitControl(cf), run) && AllGetThrough(run)
    ensures Conserving(Exec(InitControl(cf), run))
  {
    InitInv(cf);
    ConservesFrom(InitControl(cf), run);
  }

  // ---------- round robin ----------

  /** How often server p was chosen among the choices number lo up to hi. */
  function Times(picks: seq<nat>, p: nat, lo: nat, hi: nat): nat
    requires lo <= hi <= |picks|
    decreases hi - lo
  {
    if lo == hi then 0 else (if picks[lo] == p then 1 else 0) + Times(picks, p, lo + 1, hi)
  }

  ghost predicate Cyclic(picks: seq<nat>, n: nat)
    requires n > 0
  {
    forall i :: 0 <= i < |picks| ==> picks[i] == Mod(i, n)
  }

  /** The number of steps from position lo to the next choice of p. */
  function Gap(lo: nat, p: nat, n: nat): (g: nat)
    requires p < n
    ensures g < n
  {
    var r := Mod(lo, n);
    if r <= p then p - r else p + n - r
  }

  /** p is chosen at distance Gap from lo, and then once every n choices. */
  lemma {:induction false} TimesByGap(picks: seq<nat>, n: nat, p: nat, lo: nat, hi: nat, q: nat, r: nat)
    requires p < n && Cyclic(picks, n) && lo <= hi <= |picks| && hi - lo == q * n + r && r < n
    ensures Times(picks, p, lo, hi) == q + if Gap(lo, p, n) < r then 1 else 0
    decreases hi - lo
  {
    MultipleOf(q, n);
    if lo < hi {
      ModNext(lo, n);
      if r > 0 {
        TimesByGap(picks, n, p, lo + 1, hi, q, r - 1);
      } else {
        assert q * n == (q - 1) * n + n;
        TimesByGap(picks, n, p, lo + 1, hi, q - 1, n - 1);
      }
    }
  }

  /** In any window of consecutive choices, failed attempts included, two servers have been chosen
      equally often, up to one. */
  lemma RoundRobinFair(cf: Conf, run: seq<Move>, p: nat, p': nat, lo: nat, hi: nat)
    requires Legal(InitControl(cf), run)
    requires p < |cf.upTimeouts| && p' < |cf.upTimeouts|
    requires lo <= hi <= |Exec(InitControl(cf), run).h.picks|
    ensures var picks := Exec(InitControl(cf), run).h.picks;
            -1 <= Times(picks, p, lo, hi) - Times(picks, p', lo, hi) <= 1
    ensures Cyclic(Exec(InitControl(cf), run).h.picks, |cf.upTimeouts|)
  {
    InitInv(cf);
    ExecKeeps(InitControl(cf), run);
    FairWindow(Exec(InitControl(cf), run).h.picks, |cf.upTimeouts|, p, p', lo, hi);
  }

  lemma FairWindow(picks: seq<nat>, n: nat, p: nat, p': nat, lo: nat, hi: nat)
    requires p < n && p' < n && Cyclic(picks, n) && lo <= hi <= |picks|
    ensures -1 <= Times(picks, p, lo, hi) - Times(picks, p', lo, hi) <= 1
  {
    var q, r := (hi - lo) / n, (hi - lo) % n;
    assert hi - lo == q * n + r;
    TimesByGap(picks, n, p, lo, hi, q, r);
    TimesByGap(picks, n, p', lo, hi, q, r);
  }
}
