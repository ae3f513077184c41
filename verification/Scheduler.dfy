/** What one call of the scheduler achieves: failover to the next reachable upstream server, work
    conservation, and independence of the connections that are not queued. */
module Scheduler {
  import opened Common
  import opened Admission
  import opened AdmissionInvariant
  import opened AdmissionSteps

  // ---------- failover ----------

  /** The outcomes met by n attempts that start at server `start`, when each server either always
      accepts a connection attempt or always refuses it at once. */
  function Script(good: seq<bool>, start: nat, n: nat): (outs: seq<ConnectOutcome>)
    requires good != []
    ensures |outs| == n
    decreases n
  {
    if n == 0 then []
    else [if good[Mod(start, |good|)] then Started else ConnectFailed] + Script(good, start + 1, n - 1)
  }

  predicate Up(good: seq<bool>, start: nat, j: nat)
    requires good != []
  {
    good[Mod(start + j, |good|)]
  }

  /** The server after `start` that is `d` places away is the first good one. */
  ghost predicate FirstGood(good: seq<bool>, start: nat, d: nat)
    requires good != []
  {
    && Up(good, start, d)
    && forall j: nat :: j < d ==> !Up(good, start, j)
  }

  lemma {:induction false} SearchGood(good: seq<bool>, start: nat, t: nat) returns (d: nat)
    requires good != [] && Up(good, start, t)
    ensures d <= t && FirstGood(good, start, d)
    decreases t
  {
    if good[Mod(start, |good|)] {
      d := 0;
    } else {
      var e := SearchGood(good, start + 1, t - 1);
      d := e + 1;
      forall j: nat | j < d ensures !Up(good, start, j) {
        if j > 0 {
          assert start + j == start + 1 + (j - 1);
          assert !Up(good, start + 1, j - 1);
        }
      }
      assert start + d == start + 1 + e;
    }
  }

  /** Every server is reached within one round. */
  lemma {:induction false} RoundReaches(start: nat, n: nat, p: nat) returns (t: nat)
    requires p < n
    ensures t < n && Mod(start + t, n) == p
  {
    if start < n {
      if p >= start {
        t := p - start;
      } else {
        t := p + n - start;
        assert Mod(p + n, n) == Mod(p, n);
      }
    } else {
      t := RoundReaches(start - n, n, p);
      assert start + t - n == start - n + t;
    }
  }

  lemma {:induction false} ModMod(a: nat, n: nat)
    requires n > 0
    ensures Mod(Mod(a, n), n) == Mod(a, n)
    ensures Mod(Mod(a, n) + 1, n) == Mod(a + 1, n)
  {
    ModNext(a, n);
    ModNext(Mod(a, n), n);
  }

  /** The state after d refusals. */
  ghost predicate RefusedTimes(k: Control, r: Control, d: nat)
    requires k.queue != []
  {
    var c := k.queue[0];
    && c in r.conns && r.conns == k.conns[c := r.conns[c]] && r.queue == k.queue && r.cf == k.cf
    && r.workingNum == k.workingNum - d && r.h.fails == k.h.fails + d
    && r.h.admitted == k.h.admitted && |r.h.picks| == |k.h.picks| + d
    && NextPeer(r) == Mod(k.upIndex + d, |k.cf.upTimeouts|)
    && (if d > 0 then r.conns[c].upc == CONN_CLOSE else r == k)
  }

  lemma {:induction false} ModShift(a: nat, b: nat, j: nat, n: nat)
    requires n > 0 && Mod(a, n) == Mod(b, n)
    ensures Mod(a + j, n) == Mod(b + j, n)
    decreases j
  {
    if j > 0 {
      ModShift(a, b, j - 1, n);
      ModNext(a + (j - 1), n);
      ModNext(b + (j - 1), n);
    }
  }

  lemma RefusedFirst(k: Control, q: Control, d: nat)
    requires Turn(k) && d > 0 && RefusedTimes(FailedAttempt(k, k.queue[0]), q, d - 1)
    ensures RefusedTimes(k, q, d)
  {
    var n := |k.cf.upTimeouts|;
    ModMod(k.upIndex, n);
    ModShift(NextPeer(k) + 1, k.upIndex + 1, d - 1, n);
    assert k.upIndex + 1 + (d - 1) == k.upIndex + d;
  }

  /** Refusals at the front of the script are the first turns of the scheduler. */
  lemma {:induction false} HandleRefusals(k: Control, outs: seq<ConnectOutcome>, d: nat) returns (q: Control)
    requires Turn(k) && d <= |outs| && forall i :: 0 <= i < d ==> outs[i] == ConnectFailed
    ensures RefusedTimes(k, q, d)
    ensures Handle(k, outs) == Handle(q, outs[d..]).(rc := if d == 0 then Handle(q, outs[d..]).rc else XNET_ERR)
    decreases d
  {
    if d == 0 {
      q := k;
      assert outs[0..] == outs;
    } else {
      RefusedTurn(k, outs);
      q := HandleRefusals(FailedAttempt(k, k.queue[0]), outs[1..], d - 1);
      assert outs[1..][d - 1..] == outs[d..];
      RefusedFirst(k, q, d);
    }
  }

  /** The connection that the scheduler takes from the queue, after d refusals. */
  ghost predicate AdmittedAfter(k: Control, k': Control, d: nat, peer: nat)
    requires k.queue != []
  {
    var c := k.queue[0];
    && k'.queue == k.queue[1..]
    && k'.h.admitted == k.h.admitted + [c]
    && k'.workingNum == k.workingNum + 1 - d
    && k'.h.fails == k.h.fails + d
    && |k'.h.picks| == |k.h.picks| + d + 1
    && c in k'.conns && k'.conns[c].status == CONN_WORKING && k'.conns[c].upc == CONN_CONNECT
    && k'.conns[c].peer == Some(peer)
    && k'.conns == k.conns[c := k'.conns[c]]
  }

  lemma {:induction false} ScriptAt(good: seq<bool>, start: nat, n: nat, i: nat)
    requires good != [] && i < n
    ensures Script(good, start, n)[i] == if Up(good, start, i) then Started else ConnectFailed
    decreases n
  {
    if i > 0 {
      ScriptAt(good, start + 1, n - 1, i - 1);
      assert start + 1 + (i - 1) == start + i;
    }
  }

  /** Failover: the head of the queue is admitted to the first good server after exactly the bad
      ones before it, d of them; working_num changes by one minus d, and d + 1 attempts are made. */
  lemma Failover(k: Control, good: seq<bool>, n: nat, d: nat)
    requires Turn(k) && |good| == |k.cf.upTimeouts|
    requires FirstGood(good, k.upIndex, d) && d < n
    ensures var r := Handle(k, Script(good, k.upIndex, n));
            && AdmittedAfter(k, r.k, d, Mod(k.upIndex + d, |good|))
            && |r.outs| == n - (d + 1)
            && (r.rc == XNET_OK <==> d == 0)
  {
    var outs := Script(good, k.upIndex, n);
    forall i: nat | i <= d ensures outs[i] == if i == d then Started else ConnectFailed {
      ScriptAt(good, k.upIndex, n, i);
    }
    var q := HandleRefusals(k, outs, d);
    AdmitAfter(k, q, outs[d..], d);
  }

  lemma AdmitAfter(k: Control, q: Control, outs: seq<ConnectOutcome>, d: nat)
    requires Turn(k) && Turn(q) && outs != [] && outs[0] == Started && RefusedTimes(k, q, d)
    ensures var r := Handle(q, outs);
            AdmittedAfter(k, r.k, d, NextPeer(q)) && |r.outs| == |outs| - 1 && r.rc == XNET_OK
  {
    StartedTurn(q, outs);
  }

  /** When every connect() fails at once, the recursion uses up any number of attempts, each of which
      takes one off working_num and leaves the queue as it was. */
  lemma AllRefused(k: Control, outs: seq<ConnectOutcome>)
    requires Turn(k) && QueueIdle(k)
    requires forall i :: 0 <= i < |outs| ==> outs[i] == ConnectFailed
    ensures var r := Handle(k, outs);
            r.outs == [] && r.k.queue == k.queue && r.k.h.admitted == k.h.admitted
            && r.k.h.fails == k.h.fails + |outs| && r.k.workingNum == k.workingNum - |outs|
  {
    var q := HandleRefusals(k, outs, |outs|);
    assert outs[|outs|..] == [];
    assert !Open(q.conns[k.queue[0]].upc);
  }

  /** With the outcome of each server fixed, the recursion of the scheduler ends by itself exactly
      when some server is good, and then within one round. */
  lemma FailoverEndsIffSomeGood(k: Control, good: seq<bool>, n: nat)
    requires Turn(k) && QueueIdle(k) && |good| == |k.cf.upTimeouts| && n > |good|
    ensures var r := Handle(k, Script(good, k.upIndex, n));
            && (r.outs != [] <==> true in good)
            && (true in good ==> |r.outs| >= n - |good| && r.k.queue == k.queue[1..])
            && (true !in good ==> r.k.queue == k.queue && r.k.workingNum == k.workingNum - n)
  {
    if true in good {
      var p :| 0 <= p < |good| && good[p];
      var t := RoundReaches(k.upIndex, |good|, p);
      assert Up(good, k.upIndex, t);
      var d := SearchGood(good, k.upIndex, t);
      Failover(k, good, n, d);
    } else {
      var outs := Script(good, k.upIndex, n);
      forall i: nat | i < n ensures outs[i] == ConnectFailed {
        ScriptAt(good, k.upIndex, n, i);
        assert good[Mod(k.upIndex + i, |good|)] in good;
      }
      AllRefused(k, outs);
    }
  }

  // ---------- the whole recursion at once ----------

  /** The refusals met before the first attempt that ends otherwise. */
  function Refusals(outs: seq<ConnectOutcome>): (n: nat)
    ensures n <= |outs|
  {
    if outs == [] || outs[0] != ConnectFailed then 0 else 1 + Refusals(outs[1..])
  }

  /** What a call of the scheduler has made of the head of the queue, after d refusals and the attempt
      that ended the recursion, which was for server `peer`. */
  ghost predicate Served(v: Conn, v': Conn, now: real, d: nat, last: ConnectOutcome, peer: nat) {
    var u := if d == 0 then v
             else v.(upc := CONN_CLOSE, eSend := true, upRecv := false, upSend := false, upConnected := false,
                     upTimer := None);
    v' == if last == Started
          then u.(status := CONN_WORKING, upc := CONN_CONNECT, upRecv := true, upSend := false, upConnected := true,
                  upTimer := Some(now + CONN_CONNECT_TIMEOUT), peer := Some(peer))
          else u.(peer := Some(peer))
  }

  /** The parts of the state that a call of the scheduler changes beside the connection, when d attempts
      are refused and the next one ends with `last`. */
  ghost predicate Tallied(k: Control, k': Control, d: nat, last: ConnectOutcome)
    requires k.queue != []
  {
    var n, go := |k.cf.upTimeouts|, if last == Started then 1 else 0;
    && k'.queue == k.queue[go..] && k'.waitingNum == k.waitingNum - go
    && k'.workingNum == k.workingNum - d + go && k'.h.fails == k.h.fails + d
    && |k'.h.picks| == |k.h.picks| + d + 1 && NextPeer(k') == Mod(k.upIndex + d + 1, n)
    && k'.h.admitted == k.h.admitted + k.queue[..go]
    && k'.cf == k.cf && k'.now == k.now && k'.cCount == k.cCount && k'.accepted == k.accepted
    && k'.fault == (k.fault || (last == Started && Dangling(k, 1)))
  }

  lemma TurnEnds(k: Control, outs: seq<ConnectOutcome>)
    requires Turn(k) && QueueIdle(k) && Outcome(outs) != ConnectFailed
    ensures var r, c := Handle(k, outs), k.queue[0];
            && r.k.conns == k.conns[c := r.k.conns[c]]
            && Served(k.conns[c], r.k.conns[c], k.now, 0, Outcome(outs), Mod(k.upIndex + 0, |k.cf.upTimeouts|))
            && Tallied(k, r.k, 0, Outcome(outs))
            && r.outs == Rest(outs) && r.rc == (if Outcome(outs) == Started then XNET_OK else XNET_ERR)
  {
    ModMod(k.upIndex, |k.cf.upTimeouts|);
    HandleTurn(k, outs);
  }

  /** One refusal before everything else. */
  lemma ServedLater(v: Conn, w: Conn, v': Conn, now: real, d: nat, last: ConnectOutcome, peer: nat, first: nat)
    requires v.status == CONN_WAITING && w == Shut(Attempted(v, now, ConnectFailed, first))
    requires Served(w, v', now, d, last, peer)
    ensures Served(v, v', now, d + 1, last, peer)
  {
  }

  lemma TalliedLater(k: Control, f: Control, r: Control, d: nat, last: ConnectOutcome)
    requires Turn(k) && f == FailedAttempt(k, k.queue[0]) && Tallied(f, r, d, last)
    ensures Tallied(k, r, d + 1, last)
  {
    NextServer(k.upIndex, d + 1, |k.cf.upTimeouts|);
  }

  lemma NextServer(at: nat, d: nat, n: nat)
    requires n > 0
    ensures Mod(Mod(at, n) + 1 + d, n) == Mod(at + (d + 1), n)
  {
    ModMod(at, n);
    ModShift(Mod(at, n) + 1, at + 1, d, n);
    assert at + 1 + d == at + (d + 1);
  }

  lemma RefusedBefore(k: Control, f: Control, r: Control, d: nat, last: ConnectOutcome)
    requires Turn(k) && QueueIdle(k) && f == FailedAttempt(k, k.queue[0])
    requires k.queue[0] in r.conns
    requires r.conns == f.conns[k.queue[0] := r.conns[k.queue[0]]] && Tallied(f, r, d, last)
    requires Served(f.conns[k.queue[0]], r.conns[k.queue[0]], k.now, d, last, Mod(f.upIndex + d, |k.cf.upTimeouts|))
    ensures r.conns == k.conns[k.queue[0] := r.conns[k.queue[0]]] && Tallied(k, r, d + 1, last)
    ensures Served(k.conns[k.queue[0]], r.conns[k.queue[0]], k.now, d + 1, last,
                   Mod(k.upIndex + (d + 1), |k.cf.upTimeouts|))
  {
    var c, n := k.queue[0], |k.cf.upTimeouts|;
    NextServer(k.upIndex, d, n);
    TalliedLater(k, f, r, d, last);
    hide Served, Tallied;
    ServedLater(k.conns[c], f.conns[c], r.conns[c], k.now, d, last, Mod(k.upIndex + (d + 1), n), NextPeer(k));
  }

  /** x_upstream_handle at once, when a connection waits and a place is free.  Of the head of the queue d
      attempts are refused, one after the other, and the next one ends the call.  Where that one gets no
      socket the head stays in the queue as it was, except for the refusals and the server noted last. */
  lemma {:induction false} SchedulerAtOnce(k: Control, outs: seq<ConnectOutcome>)
    requires Turn(k) && QueueIdle(k)
    ensures var r, c, d := Handle(k, outs), k.queue[0], Refusals(outs);
            var last := Outcome(outs[d..]);
            && last != ConnectFailed
            && r.k.conns == k.conns[c := r.k.conns[c]]
            && Served(k.conns[c], r.k.conns[c], k.now, d, last, Mod(k.upIndex + d, |k.cf.upTimeouts|))
            && Tallied(k, r.k, d, last)
            && r.outs == Rest(outs[d..])
            && r.rc == (if d == 0 && last == Started then XNET_OK else XNET_ERR)
    decreases |outs|
  {
    hide Handle, Served, Tallied, QueueIdle;
    var c, d := k.queue[0], Refusals(outs);
    if d == 0 {
      assert outs[0..] == outs;
      TurnEnds(k, outs);
    } else {
      var f := FailedAttempt(k, c);
      RefusedTurn(k, outs);
      RefuseFrame(k);
      SchedulerAtOnce(f, outs[1..]);
      assert outs[1..][d - 1..] == outs[d..];
      RefusedBefore(k, f, Handle(k, outs).k, d - 1, Outcome(outs[d..]));
    }
  }

  /** x_upstream_handle otherwise: with nobody waiting or with all places taken it does nothing, and says
      which; an attempt that gets no socket is an error. */
  lemma SchedulerIdle(k: Control, outs: seq<ConnectOutcome>)
    requires !Turn(k) && NoDangling(k)
    ensures var r := Handle(k, outs);
            && r.k == k && r.outs == outs
            && (k.queue == [] ==> r.rc == XNET_OK)
            && (k.queue != [] ==> r.rc == XNET_BUSY && k.workingNum >= k.cf.workingMax)
  {
    assert k.queue != [] ==> k.queue[0] in k.queue;
  }

  /** A turn without a socket leaves the client where it was: it goes on waiting, its watchers, its timers
      and its upstream side are untouched, and the counters and the queue stay. */
  lemma NoSocketWaitsOn(k: Control, outs: seq<ConnectOutcome>)
    requires Turn(k) && QueueIdle(k) && (outs == [] || outs[0] == SocketFailed)
    ensures var r, c := Handle(k, outs), k.queue[0];
            && r.rc == XNET_ERR && r.outs == (if outs == [] then [] else outs[1..])
            && r.k.conns == k.conns[c := k.conns[c].(peer := r.k.conns[c].peer)]
            && r.k.queue == k.queue && r.k.waitingNum == k.waitingNum && r.k.workingNum == k.workingNum
            && r.k.h.admitted == k.h.admitted && r.k.h.fails == k.h.fails
            && r.k.conns[c].peer == Some(Mod(k.upIndex, |k.cf.upTimeouts|))
            && |r.k.h.picks| == |k.h.picks| + 1
  {
    SchedulerAtOnce(k, outs);
    assert outs[0..] == outs;
    assert k.upIndex + 0 == k.upIndex;
  }

  // ---------- work conservation ----------

  /** No connection waits while the proxy has room for it. */
  ghost predicate Conserving(k: Control) {
    k.queue == [] || k.workingNum >= k.cf.workingMax
  }

  /** The script of a callback in which every attempt gets through. */
  ghost predicate AllStarted(outs: seq<ConnectOutcome>) {
    outs != [] && outs[0] == Started
  }

  /** One call of the scheduler fills at most one place; that is enough when at most one connection
      waits or at most one place is free. */
  lemma HandleConserves(k: Control, outs: seq<ConnectOutcome>)
    requires AllStarted(outs) && (|k.queue| <= 1 || k.workingNum + 1 >= k.cf.workingMax)
    ensures Handle(k, outs).k.fault || Conserving(Handle(k, outs).k)
  {
    if Turn(k) {
      StartedTurn(k, outs);
    }
  }

  lemma FinalConserves(k: Control, c: nat, outs: seq<ConnectOutcome>)
    requires c in k.conns && AllStarted(outs) && Conserving(k)
    ensures Final(k, c, outs).k.fault || Conserving(Final(k, c, outs).k)
  {
    if Open(k.conns[c].upc) {
      HandleConserves(ShutUpstream(k, c), outs);
    }
  }

  lemma EventCloseConserves(k: Control, c: nat, outs: seq<ConnectOutcome>)
    requires c in k.conns && AllStarted(outs) && Conserving(k)
    ensures EventClose(k, c, outs).fault || Conserving(EventClose(k, c, outs))
  {
    FinalConserves(k, c, outs);
  }

  lemma ReceivedConserves(k: Control, c: nat, ok: bool, outs: seq<ConnectOutcome>)
    requires c in k.conns && AllStarted(outs) && Conserving(k)
    ensures ClientReceived(k, c, ok, outs).fault || Conserving(ClientReceived(k, c, ok, outs))
  {
    if !ok {
      EventCloseConserves(k, c, outs);
    } else if k.conns[c].status == CONN_NONE {
      HandleConserves(Enqueue(k, c), outs);
    }
  }

  /** Every callback whose connection attempts get through leaves no free place beside a waiting
      connection, although it calls the scheduler only once. */
  lemma ReactConserves(k: Control, sig: Signal, outs: seq<ConnectOutcome>)
    requires Enabled(k, sig) && AllStarted(outs) && Conserving(k)
    ensures React(k, sig, outs).fault || Conserving(React(k, sig, outs))
  {
    match sig
    case NewClient =>
    case ClientReadable(c, ok) => ReceivedConserves(k, c, ok, outs);
    case ClientWritable(c, res) => EventCloseConserves(k, c, outs);
    case AccessTimer(c) =>
      var v := k.conns[c];
      EventCloseConserves(if v.status != CONN_CLOSE then Put(k, c, v.(status := CONN_TIMEOUT)) else k, c, outs);
    case PeerConnected(c, ok) => FinalConserves(k, c, outs);
    case PeerReadable(c, ok) => FinalConserves(k, c, outs);
    case PeerWritable(c, res) => FinalConserves(k, c, outs);
    case PeerTimer(c) =>
      var v := k.conns[c];
      FinalConserves(if v.upc != CONN_CLOSE then Put(k, c, v.(upc := CONN_TIMEOUT)) else k, c, outs);
    case Tick(t) =>
  }

  // ---------- the scheduler does not look at connections outside the queue ----------

  lemma TurnIgnores(k: Control, d: nat, w: Conn)
    requires Turn(k) && d in k.conns && d !in k.queue
    ensures AdmitHead(Put(k, d, w)) == Put(AdmitHead(k), d, w)
    ensures FailedAttempt(Put(k, d, w), k.queue[0]) == Put(FailedAttempt(k, k.queue[0]), d, w)
    ensures NoSocket(Put(k, d, w), k.queue[0]) == Put(NoSocket(k, k.queue[0]), d, w)
  {
    var k', c := Put(k, d, w), k.queue[0];
    assert AdmitHead(k').conns == AdmitHead(k).conns[d := w];
    assert Dangling(k', 1) == Dangling(k, 1);
    assert FailedAttempt(k', c).conns == FailedAttempt(k, c).conns[d := w];
    assert NoSocket(k', c).conns == NoSocket(k, c).conns[d := w];
  }

  lemma TurnPut(k: Control, d: nat, w: Conn)
    requires QueueIdle(k) && d in k.conns && d !in k.queue
    ensures Turn(Put(k, d, w)) == Turn(k) && QueueIdle(Put(k, d, w))
    ensures !Turn(k) ==> forall outs :: Handle(Put(k, d, w), outs)
                           == Handle(k, outs).(k := Put(Handle(k, outs).k, d, w))
  {
  }

  lemma {:induction false} HandleIgnores(k: Control, d: nat, w: Conn, outs: seq<ConnectOutcome>)
      returns (r: HandleResult)
    requires d in k.conns && d !in k.queue && QueueIdle(k)
    ensures r == Handle(k, outs) && Handle(Put(k, d, w), outs) == r.(k := Put(r.k, d, w))
    decreases |outs|
  {
    var k' := Put(k, d, w);
    r := Handle(k, outs);
    TurnPut(k, d, w);
    if Turn(k) {
      TurnIgnores(k, d, w);
      match Outcome(outs)
      case Started =>
        StartedTurn(k, outs);
        StartedTurn(k', outs);
      case SocketFailed =>
      case ConnectFailed =>
        RefuseFrame(k);
        RefusedTurn(k, outs);
        RefusedTurn(k', outs);
        var f := HandleIgnores(FailedAttempt(k, k.queue[0]), d, w, outs[1..]);
    }
  }

  // ---------- a close that remembers ----------

  /** x_timeout_cb without the overwriting of the status (src/xtp_access.c:146-148). */
  function GentleTimeout(k: Control, c: nat, outs: seq<ConnectOutcome>): Control
    requires c in k.conns
  {
    Release(EventClose(k, c, outs), c)
  }

  lemma ShutPut(k: Control, c: nat, w: Conn)
    requires c in k.conns
    ensures ShutUpstream(Put(k, c, w), c) == Put(ShutUpstream(k, c), c, Shut(w))
  {
    assert ShutUpstream(Put(k, c, w), c).conns == ShutUpstream(k, c).conns[c := Shut(w)];
  }

  lemma ShutMarked(k: Control, c: nat, outs: seq<ConnectOutcome>)
    requires Mid(k) && c in k.conns && Open(k.conns[c].upc) && k.conns[c].status != CONN_CLOSE
    ensures var w := k.conns[c].(status := CONN_TIMEOUT);
            Final(Put(k, c, w), c, outs).k == Put(Final(k, c, outs).k, c, Shut(w))
  {
    var w := k.conns[c].(status := CONN_TIMEOUT);
    var s := ShutUpstream(k, c);
    ShutKeeps(k, c);
    MidQueueIdle(s);
    var f := HandleIgnores(s, c, Shut(w), outs);
    ShutPut(k, c, w);
  }

  /** x_upstream_final does not look at a status that is not CONN_CLOSE. */
  lemma FinalMarked(k: Control, c: nat, outs: seq<ConnectOutcome>) returns (f: Control)
    requires Mid(k) && c in k.conns && k.conns[c].status != CONN_CLOSE
    ensures f == Final(k, c, outs).k && c in f.conns && f.conns[c].status == k.conns[c].status
    ensures Final(Put(k, c, k.conns[c].(status := CONN_TIMEOUT)), c, outs).k
         == Put(f, c, f.conns[c].(status := CONN_TIMEOUT))
  {
    hide CountsOk, QueueOk, FifoOk, RobinOk, FreedOk;
    f := Final(k, c, outs).k;
    if Open(k.conns[c].upc) {
      hide Mid;
      FinalKeeps(k, c, outs);
      ShutMarked(k, c, outs);
    }
  }

  /** Leaving the status alone makes a difference for waiting connections only. */
  lemma GentleSame(k: Control, c: nat, outs: seq<ConnectOutcome>)
    requires Inv(k) && c in k.conns && k.conns[c].status != CONN_WAITING
    ensures GentleTimeout(k, c, outs) == AccessTimeout(k, c, outs)
  {
    if k.conns[c].status != CONN_CLOSE {
      hide Mid, Release, CloseClient, GentleTimeout, AccessTimeout, EventClose, Final;
      var f := FinalMarked(k, c, outs);
      GentleEnd(f, Put(f, c, f.conns[c].(status := CONN_TIMEOUT)), c);
      GentleParts(k, c, outs);
    }
  }

  lemma GentleParts(k: Control, c: nat, outs: seq<ConnectOutcome>)
    requires c in k.conns && k.conns[c].status != CONN_CLOSE
    ensures GentleTimeout(k, c, outs) == Release(CloseClient(Final(k, c, outs).k, c), c)
    ensures AccessTimeout(k, c, outs)
         == Release(CloseClient(Final(Put(k, c, k.conns[c].(status := CONN_TIMEOUT)), c, outs).k, c), c)
  {
  }

  lemma GentleEnd(f: Control, g: Control, c: nat)
    requires c in f.conns && c in g.conns && f.conns[c].status != CONN_WAITING
    requires g == Put(f, c, f.conns[c].(status := CONN_TIMEOUT))
    ensures Release(CloseClient(f, c), c) == Release(CloseClient(g, c), c)
  {
    assert CloseClient(f, c).conns - {c} == f.conns - {c};
    assert CloseClient(g, c).conns - {c} == f.conns - {c};
  }

  /** With that change no queue element is ever left dangling, whatever the status was. */
  lemma GentleKeeps(k: Control, c: nat, outs: seq<ConnectOutcome>)
    requires Inv(k) && !k.fault && NoDangling(k) && c in k.conns
    ensures var k' := GentleTimeout(k, c, outs);
            Inv(k') && !k'.fault && NoDangling(k')
  {
    if k.conns[c].status != CONN_CLOSE {
      EventCloseKeeps(k, c, outs);
    }
    ReleaseKeeps(EventClose(k, c, outs), c);
  }
}
