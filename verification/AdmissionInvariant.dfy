/** What every callback keeps of the control state.  Nothing here assumes that the access timer
    spares waiting connections: that hypothesis is needed only to show that no step touches
    freed memory (NoDangling). */
module AdmissionInvariant {
  import opened Common
  import opened Admission

  // ---------- one connection ----------

  /** The status pairs.  CONN_TIMEOUT occurs only inside a timer callback. */
  predicate PairOk(status: Phase, upc: Phase) {
    match status
    case CONN_NONE => upc == CONN_NONE
    case CONN_WAITING => upc == CONN_NONE || upc == CONN_CLOSE
    case CONN_WORKING => upc == CONN_CONNECT || upc == CONN_WORKING || upc == CONN_CLOSE || upc == CONN_TIMEOUT
    case CONN_TIMEOUT => upc == CONN_NONE || upc == CONN_CONNECT || upc == CONN_WORKING || upc == CONN_CLOSE
    case CONN_CLOSE => upc == CONN_NONE || upc == CONN_CLOSE
    case _ => false
  }

  predicate WatchersOk(v: Conn) {
    && v.eRecv == (v.status != CONN_CLOSE)
    && (v.status == CONN_CLOSE ==> !v.eSend)
    && (v.status != CONN_CLOSE && v.upc == CONN_CLOSE ==> v.eSend)
    && v.upRecv == Open(v.upc)
    && v.upTimer.Some? == Open(v.upc)
    && (v.upConnected || v.upSend ==> Open(v.upc))
    && (v.upc == CONN_CONNECT ==> v.upConnected && !v.upSend)
    && (v.upc == CONN_WORKING ==> !v.upConnected)
  }

  /** The end of the life of a connection accepted at `born`. */
  function Expiry(cf: Conf, born: real): real {
    born + cf.accessTimeout as real + CONN_FREE_TIMEOUT
  }

  predicate TimersOk(cf: Conf, now: real, v: Conn) {
    && v.born <= now
    && v.eTimer.Some?
    && (v.status != CONN_CLOSE ==> v.eTimer.value == v.born + cf.accessTimeout as real)
    && v.eTimer.value <= Expiry(cf, v.born)
    && NotPast(v.eTimer, now)
    && NotPast(v.upTimer, now)
  }

  predicate ConnOk(cf: Conf, now: real, v: Conn) {
    && PairOk(v.status, v.upc)
    && WatchersOk(v)
    && TimersOk(cf, now, v)
    && (v.upc != CONN_NONE ==> v.peer.Some? && v.peer.value < |cf.upTimeouts|)
  }

  /** No CONN_TIMEOUT is left behind. */
  predicate SettledConn(v: Conn) {
    v.status != CONN_TIMEOUT && v.upc != CONN_TIMEOUT
  }

  // ---------- counting ----------

  ghost function Opened(m: map<nat, Conn>): set<nat> {
    set c | c in m && Open(m[c].upc)
  }

  ghost function Unclosed(m: map<nat, Conn>): set<nat> {
    set c | c in m && m[c].status != CONN_CLOSE
  }

  lemma OpenedPut(m: map<nat, Conn>, c: nat, v: Conn)
    ensures Opened(m[c := v]) == if Open(v.upc) then Opened(m) + {c} else Opened(m) - {c}
    ensures |Opened(m[c := v])|
         == |Opened(m)| + (if Open(v.upc) then 1 else 0) - (if c in m && Open(m[c].upc) then 1 else 0)
  {
    var s := Opened(m);
    assert Opened(m[c := v]) == if Open(v.upc) then s + {c} else s - {c};
    assert c in s <==> c in m && Open(m[c].upc);
  }

  lemma UnclosedPut(m: map<nat, Conn>, c: nat, v: Conn)
    ensures |Unclosed(m[c := v])|
         == |Unclosed(m)| + (if v.status != CONN_CLOSE then 1 else 0)
                          - (if c in m && m[c].status != CONN_CLOSE then 1 else 0)
  {
    var s := Unclosed(m);
    assert Unclosed(m[c := v]) == if v.status != CONN_CLOSE then s + {c} else s - {c};
    assert c in s <==> c in m && m[c].status != CONN_CLOSE;
  }

  /** working_num lags behind the number of open upstream sockets by the number of connect()
      calls that failed at once. */
  ghost predicate CountsOk(k: Control) {
    && k.workingNum + k.h.fails == |Opened(k.conns)|
    && k.cCount == |Unclosed(k.conns)|
    && k.workingNum <= Max(0, k.cf.workingMax)
    && k.cCount <= Max(0, k.cf.accessMax)
  }

  // ---------- the queue and its log ----------

  /** The sequence without the members of `gone`. */
  function Kept(s: seq<nat>, gone: set<nat>): seq<nat> {
    if s == [] then []
    else (if s[0] in gone then [] else [s[0]]) + Kept(s[1..], gone)
  }

  /** The sequence without the first occurrence of x. */
  function Remove(s: seq<nat>, x: nat): seq<nat> {
    if s == [] then []
    else if s[0] == x then s[1..]
    else [s[0]] + Remove(s[1..], x)
  }

  lemma {:induction false} RemoveAt(s: seq<nat>, x: nat)
    requires x in s
    ensures var i := Position(s, x); Remove(s, x) == s[..i] + s[i + 1..]
  {
    if s[0] != x {
      assert s == [s[0]] + s[1..];
      RemoveAt(s[1..], x);
      var j := Position(s[1..], x);
      assert s[..j + 1] == [s[0]] + s[1..][..j];
      assert s[j + 2..] == s[1..][j + 1..];
    }
  }

  lemma {:induction false} RemoveIn(s: seq<nat>, x: nat)
    requires Distinct(s)
    ensures forall y :: y in Remove(s, x) <==> y in s && y != x
    ensures Distinct(Remove(s, x))
    ensures |Remove(s, x)| == if x in s then |s| - 1 else |s|
  {
    if s != [] {
      assert s == [s[0]] + s[1..];
      assert s[0] !in s[1..];
      RemoveIn(s[1..], x);
    }
  }

  lemma {:induction false} KeptAppend(s: seq<nat>, x: nat, gone: set<nat>)
    ensures Kept(s + [x], gone) == Kept(s, gone) + if x in gone then [] else [x]
  {
    if s == [] {
    } else {
      assert (s + [x])[0] == s[0] && (s + [x])[1..] == s[1..] + [x];
      KeptAppend(s[1..], x, gone);
    }
  }

  lemma {:induction false} KeptIn(s: seq<nat>, gone: set<nat>)
    ensures forall x :: x in Kept(s, gone) <==> x in s && x !in gone
  {
    if s != [] {
      KeptIn(s[1..], gone);
      assert s == [s[0]] + s[1..];
    }
  }

  lemma {:induction false} KeptDistinct(s: seq<nat>, gone: set<nat>)
    requires Distinct(s)
    ensures Distinct(Kept(s, gone))
  {
    if s != [] {
      KeptDistinct(s[1..], gone);
      KeptIn(s[1..], gone);
      assert s[0] !in s[1..];
    }
  }

  lemma {:induction false} KeptDrop(s: seq<nat>, gone: set<nat>, x: nat)
    requires Distinct(s)
    ensures Kept(s, gone + {x}) == Remove(Kept(s, gone), x)
  {
    if s != [] {
      var tail := Kept(s[1..], gone);
      var head := if s[0] in gone then [] else [s[0]];
      assert Kept(s, gone) == head + tail;
      KeptDrop(s[1..], gone, x);
      if s[0] == x {
        KeptIn(s[1..], gone);
        assert x !in s[1..];
        RemoveAbsent(tail, x);
      }
      if s[0] !in gone {
        assert (head + tail)[0] == s[0] && (head + tail)[1..] == tail;
      } else {
        assert head + tail == tail;
      }
    }
  }

  lemma {:induction false} RemoveAbsent(s: seq<nat>, x: nat)
    requires x !in s
    ensures Remove(s, x) == s
  {
    if s != [] {
      assert s == [s[0]] + s[1..];
      RemoveAbsent(s[1..], x);
    }
  }

  lemma {:induction false} RemoveConcat(a: seq<nat>, b: seq<nat>, x: nat)
    requires x !in a
    ensures Remove(a + b, x) == a + Remove(b, x)
  {
    if a == [] {
      assert a + b == b;
    } else {
      assert (a + b)[0] == a[0] && (a + b)[1..] == a[1..] + b;
      RemoveConcat(a[1..], b, x);
    }
  }

  /** First in, first out: what was enqueued and not dropped has been admitted in the same order,
      except for the connections still in the queue; only what was admitted works, and only what is
      closed was dropped. */
  ghost predicate FifoOk(k: Control) {
    && Distinct(k.h.enqueued)
    && Kept(k.h.enqueued, k.h.dropped) == k.h.admitted + k.queue
    && (forall c :: c in k.h.dropped ==> c in k.h.enqueued)
    && (forall c :: c in k.h.enqueued ==> c < k.accepted)
    && (forall c :: c in k.conns && k.conns[c].status == CONN_NONE ==> c !in k.h.enqueued)
    && (forall c :: c in k.conns && k.conns[c].status == CONN_WORKING ==> c in k.h.admitted)
    && (forall c :: c in k.conns && c in k.h.dropped ==> k.conns[c].status == CONN_CLOSE)
  }

  /** Exactly the unfreed waiting connections are in the queue; it may hold freed ones besides. */
  ghost predicate QueueOk(k: Control) {
    && k.waitingNum == |k.queue|
    && (forall c :: c in k.queue && c in k.conns ==> k.conns[c].status == CONN_WAITING)
    && (forall c :: c in k.conns && k.conns[c].status == CONN_WAITING ==> c in k.queue)
  }

  ghost predicate NoDangling(k: Control) {
    forall c :: c in k.queue ==> c in k.conns
  }

  lemma QueueMembers(k: Control)
    requires FifoOk(k)
    ensures Distinct(k.queue)
    ensures Distinct(k.h.admitted)
    ensures forall c :: c in k.queue ==> c in k.h.enqueued && c !in k.h.admitted && c !in k.h.dropped
  {
    KeptDistinct(k.h.enqueued, k.h.dropped);
    KeptIn(k.h.enqueued, k.h.dropped);
    var all := k.h.admitted + k.queue;
    assert forall i :: 0 <= i < |k.queue| ==> all[|k.h.admitted| + i] == k.queue[i];
    assert forall i :: 0 <= i < |k.h.admitted| ==> all[i] == k.h.admitted[i];
    forall c | c in k.queue ensures c in k.h.enqueued && c !in k.h.admitted && c !in k.h.dropped {
      assert c in all;
    }
  }

  // ---------- round robin, and the ends of connections ----------

  ghost predicate RobinOk(k: Control) {
    var n := |k.cf.upTimeouts|;
    && (forall i :: 0 <= i < |k.h.picks| ==> k.h.picks[i] == Mod(i, n))
    && NextPeer(k) == Mod(|k.h.picks|, n)
  }

  ghost predicate HasGone(log: seq<Gone>, c: nat) {
    exists i :: 0 <= i < |log| && log[i].id == c
  }

  /** Each accepted connection is either unfreed or has been freed once, in time; `born` is the time of
      its acceptance. */
  ghost predicate FreedOk(k: Control) {
    && |k.h.accepts| == k.accepted
    && (forall c :: c in k.conns ==> c < k.accepted && k.conns[c].born == k.h.accepts[c])
    && (forall i :: 0 <= i < |k.h.freed| ==>
          k.h.freed[i].id < k.accepted && k.h.freed[i].born == k.h.accepts[k.h.freed[i].id])
    && (forall i, j :: 0 <= i < j < |k.h.freed| ==> k.h.freed[i].id != k.h.freed[j].id)
    && (forall i :: 0 <= i < |k.h.freed| ==>
          k.h.freed[i].born <= k.h.freed[i].at <= Expiry(k.cf, k.h.freed[i].born) && k.h.freed[i].at <= k.now)
    && (forall c :: c in k.conns ==> !HasGone(k.h.freed, c))
    && (forall c: nat :: HasGone(k.h.freed, c) ==> c < k.accepted)
    && (forall c: nat :: c < k.accepted && c !in k.conns ==> HasGone(k.h.freed, c))
  }

  // ---------- the invariant ----------

  ghost predicate ConnsOk(k: Control) {
    forall c :: c in k.conns ==> ConnOk(k.cf, k.now, k.conns[c])
  }

  /** Holds also in the middle of a callback. */
  ghost predicate Mid(k: Control) {
    && ConnsOk(k)
    && CountsOk(k)
    && QueueOk(k)
    && FifoOk(k)
    && RobinOk(k)
    && FreedOk(k)
  }

  ghost predicate Settled(k: Control) {
    forall c :: c in k.conns ==> SettledConn(k.conns[c])
  }

  /** Holds between callbacks. */
  ghost predicate Inv(k: Control) {
    Mid(k) && Settled(k)
  }

  lemma InitInv(cf: Conf)
    ensures Inv(InitControl(cf))
    ensures NoDangling(InitControl(cf))
  {
    var k := InitControl(cf);
    assert Opened(k.conns) == {} && Unclosed(k.conns) == {};
  }

  // ---------- the scheduler ----------

  lemma PickKeeps(k: Control, k': Control)
    requires RobinOk(k) && k'.cf == k.cf && k'.upIndex == NextPeer(k) + 1
    requires k'.h.picks == k.h.picks + [NextPeer(k)]
    ensures RobinOk(k')
  {
    var n := |k.cf.upTimeouts|;
    ModNext(|k.h.picks|, n);
    assert Mod(n, n) == Mod(0, n);
  }

  /** One turn of the scheduler's loop over the head of the queue, in all three cases, seen by a
      part of the state that the turn does not involve. */
  ghost predicate Turn(k: Control) {
    k.queue != [] && k.workingNum < k.cf.workingMax && k.queue[0] in k.conns
  }

  /** Queued connections hold no upstream socket. */
  ghost predicate QueueIdle(k: Control) {
    forall c :: c in k.queue && c in k.conns ==> k.conns[c].status == CONN_WAITING && !Open(k.conns[c].upc)
  }

  lemma HandleTurn(k: Control, outs: seq<ConnectOutcome>)
    requires Turn(k) && QueueIdle(k)
    ensures var c := k.queue[0];
            Handle(k, outs) ==
              match Outcome(outs)
              case Started => HandleResult(AdmitHead(k), outs[1..], XNET_OK)
              case SocketFailed => HandleResult(NoSocket(k, c), Rest(outs), XNET_ERR)
              case ConnectFailed => Handle(FailedAttempt(k, c), outs[1..]).(rc := XNET_ERR)
  {
  }

  lemma StartedTurn(k: Control, outs: seq<ConnectOutcome>)
    requires Turn(k) && outs != [] && outs[0] == Started
    ensures Handle(k, outs) == HandleResult(AdmitHead(k), outs[1..], XNET_OK)
  {
  }

  lemma RefusedTurn(k: Control, outs: seq<ConnectOutcome>)
    requires Turn(k) && outs != [] && outs[0] == ConnectFailed
    ensures Handle(k, outs) == Handle(FailedAttempt(k, k.queue[0]), outs[1..]).(rc := XNET_ERR)
  {
  }

  lemma CountsPut(k: Control, k': Control, c: nat, v: Conn)
    requires CountsOk(k) && c in k.conns && k'.conns == k.conns[c := v]
    requires k'.cf == k.cf && k'.cCount == k.cCount
    requires k.conns[c].status != CONN_CLOSE && v.status != CONN_CLOSE
    requires k'.workingNum + k'.h.fails - k.workingNum - k.h.fails
          == (if Open(v.upc) then 1 else 0) - (if Open(k.conns[c].upc) then 1 else 0)
    requires k'.workingNum <= Max(0, k.cf.workingMax)
    ensures CountsOk(k')
  {
    OpenedPut(k.conns, c, v);
    UnclosedPut(k.conns, c, v);
  }

  lemma ConnsPut(k: Control, k': Control, c: nat, v: Conn)
    requires ConnsOk(k) && k'.conns == k.conns[c := v] && k'.cf == k.cf && k'.now == k.now
    requires ConnOk(k.cf, k.now, v)
    ensures ConnsOk(k')
  {
  }

  lemma AttemptedOk(cf: Conf, now: real, v: Conn, peer: nat)
    requires ConnOk(cf, now, v) && v.status == CONN_WAITING && peer < |cf.upTimeouts|
    ensures ConnOk(cf, now, Attempted(v, now, Started, peer).(status := CONN_WORKING))
    ensures ConnOk(cf, now, Shut(Attempted(v, now, ConnectFailed, peer)))
    ensures ConnOk(cf, now, Attempted(v, now, SocketFailed, peer))
  {
  }

  lemma FreedPut(k: Control, k': Control)
    requires FreedOk(k) && k'.conns.Keys == k.conns.Keys && k'.cf == k.cf && k'.now >= k.now
    requires k'.accepted == k.accepted && k'.h.freed == k.h.freed && k'.h.accepts == k.h.accepts
    requires forall c :: c in k.conns ==> k'.conns[c].born == k.conns[c].born
    ensures FreedOk(k')
  {
  }

  lemma QueuePop(k: Control, k': Control, c: nat, v: Conn)
    requires QueueOk(k) && FifoOk(k) && k.queue != [] && k.queue[0] == c && c in k.conns
    requires k'.conns == k.conns[c := v] && v.status == CONN_WORKING
    requires k'.queue == k.queue[1..] && k'.waitingNum == k.waitingNum - 1 && k'.accepted == k.accepted
    requires k'.h.enqueued == k.h.enqueued && k'.h.dropped == k.h.dropped && k'.h.admitted == k.h.admitted + [c]
    ensures QueueOk(k') && FifoOk(k')
  {
    QueueMembers(k);
    assert k.h.admitted + k.queue == (k.h.admitted + [c]) + k.queue[1..];
    assert k.queue == [c] + k.queue[1..];
  }

  lemma QueueStay(k: Control, k': Control, c: nat, v: Conn)
    requires QueueOk(k) && FifoOk(k) && c in k.conns
    requires v.status == k.conns[c].status
          || (v.status != CONN_NONE && v.status != CONN_WAITING && k.conns[c].status != CONN_WAITING)
    requires v.status == CONN_WORKING ==> k.conns[c].status == CONN_WORKING
    requires k.conns[c].status == CONN_CLOSE ==> v.status == CONN_CLOSE
    requires k'.conns == k.conns[c := v] && k'.queue == k.queue && k'.waitingNum == k.waitingNum
    requires k'.accepted == k.accepted
    requires k'.h.enqueued == k.h.enqueued && k'.h.dropped == k.h.dropped && k'.h.admitted == k.h.admitted
    ensures QueueOk(k') && FifoOk(k')
  {
  }

  /** A change of one connection, put together from what it does to the queue and to the rest. */
  lemma ChangeKeeps(k: Control, k': Control, c: nat, v: Conn)
    requires Mid(k) && c in k.conns && k'.conns == k.conns[c := v] && ConnOk(k.cf, k.now, v)
    requires k'.cf == k.cf && k'.now == k.now && k'.accepted == k.accepted && k'.cCount == k.cCount
    requires k'.h.freed == k.h.freed && k'.h.accepts == k.h.accepts && v.born == k.conns[c].born
    requires k.conns[c].status != CONN_CLOSE && v.status != CONN_CLOSE
    requires k'.workingNum + k'.h.fails - k.workingNum - k.h.fails
          == (if Open(v.upc) then 1 else 0) - (if Open(k.conns[c].upc) then 1 else 0)
    requires k'.workingNum <= Max(0, k.cf.workingMax)
    requires QueueOk(k') && FifoOk(k') && RobinOk(k')
    ensures Mid(k')
  {
    ConnsPut(k, k', c, v);
    CountsPut(k, k', c, v);
    FreedPut(k, k');
  }

  lemma HeadFacts(k: Control)
    requires Turn(k) && Mid(k)
    ensures var v := k.conns[k.queue[0]]; v.status == CONN_WAITING && !Open(v.upc) && ConnOk(k.cf, k.now, v)
  {
    assert PairOk(k.conns[k.queue[0]].status, k.conns[k.queue[0]].upc);
  }

  /** The three ways in which a turn of the scheduler ends. */
  lemma AdmitKeeps(k: Control)
    requires Turn(k) && Mid(k)
    ensures Mid(AdmitHead(k))
  {
    var c := k.queue[0];
    var k' := AdmitHead(k);
    var v := k'.conns[c];
    HeadFacts(k);
    AttemptedOk(k.cf, k.now, k.conns[c], NextPeer(k));
    QueuePop(k, k', c, v);
    PickKeeps(k, k');
    ChangeKeeps(k, k', c, v);
  }

  lemma RefuseKeeps(k: Control)
    requires Turn(k) && Mid(k)
    ensures Mid(FailedAttempt(k, k.queue[0]))
  {
    var c := k.queue[0];
    var k' := FailedAttempt(k, k.queue[0]);
    var v := k'.conns[c];
    HeadFacts(k);
    AttemptedOk(k.cf, k.now, k.conns[c], NextPeer(k));
    QueueStay(k, k', c, v);
    PickKeeps(k, k');
    ChangeKeeps(k, k', c, v);
  }

  lemma NoSocketKeeps(k: Control)
    requires Turn(k) && Mid(k)
    ensures Mid(NoSocket(k, k.queue[0]))
  {
    var c := k.queue[0];
    var k' := NoSocket(k, k.queue[0]);
    var v := k'.conns[c];
    HeadFacts(k);
    AttemptedOk(k.cf, k.now, k.conns[c], NextPeer(k));
    QueueStay(k, k', c, v);
    PickKeeps(k, k');
    ChangeKeeps(k, k', c, v);
  }

  /** Any change of one connection that opens and closes nothing. */
  lemma PutKeeps(k: Control, c: nat, v: Conn)
    requires Mid(k) && c in k.conns && ConnOk(k.cf, k.now, v)
    requires v.status == k.conns[c].status
          || (v.status != CONN_NONE && v.status != CONN_WAITING && k.conns[c].status != CONN_WAITING)
    requires v.status == CONN_WORKING ==> k.conns[c].status == CONN_WORKING
    requires (v.status == CONN_CLOSE) == (k.conns[c].status == CONN_CLOSE)
    requires v.born == k.conns[c].born
    requires Open(v.upc) == Open(k.conns[c].upc)
    ensures Mid(Put(k, c, v))
  {
    hide ConnsOk, CountsOk, QueueOk, FifoOk, FreedOk;
    var k' := Put(k, c, v);
    CountsSame(k, k', c, v);
    ConnsPut(k, k', c, v);
    QueueStay(k, k', c, v);
    FreedPut(k, k');
  }

  lemma CountsSame(k: Control, k': Control, c: nat, v: Conn)
    requires CountsOk(k) && c in k.conns && k'.conns == k.conns[c := v] && k'.cf == k.cf && k'.cCount == k.cCount
    requires k'.workingNum == k.workingNum && k'.h.fails == k.h.fails
    requires (v.status == CONN_CLOSE) == (k.conns[c].status == CONN_CLOSE) && Open(v.upc) == Open(k.conns[c].upc)
    ensures CountsOk(k')
  {
    OpenedPut(k.conns, c, v);
    UnclosedPut(k.conns, c, v);
  }

  lemma ShutKeeps(k: Control, c: nat)
    requires Mid(k) && c in k.conns && Open(k.conns[c].upc)
    ensures Mid(ShutUpstream(k, c))
    ensures c !in k.queue
  {
    var v := Shut(k.conns[c]);
    var k' := ShutUpstream(k, c);
    ConnsPut(k, k', c, v);
    QueueStay(k, k', c, v);
    ChangeKeeps(k, k', c, v);
  }

  lemma MidQueueIdle(k: Control)
    requires Mid(k)
    ensures QueueIdle(k)
  {
    forall c | c in k.queue && c in k.conns ensures !Open(k.conns[c].upc) {
      assert PairOk(k.conns[c].status, k.conns[c].upc);
    }
  }

  /** The scheduler keeps the invariant through its recursion over failing attempts. */
  lemma {:induction false} HandleKeeps(k: Control, outs: seq<ConnectOutcome>)
    requires Mid(k)
    ensures Mid(Handle(k, outs).k)
    decreases |outs|
  {
    if Turn(k) {
      MidQueueIdle(k);
      HandleTurn(k, outs);
      match Outcome(outs)
      case Started => AdmitKeeps(k);
      case SocketFailed => NoSocketKeeps(k);
      case ConnectFailed =>
        RefuseKeeps(k);
        HandleKeeps(FailedAttempt(k, k.queue[0]), outs[1..]);
    }
  }

  /** What the scheduler leaves alone. */
  ghost predicate SameBase(k: Control, k': Control) {
    && k'.conns.Keys == k.conns.Keys
    && k'.cf == k.cf && k'.now == k.now && k'.accepted == k.accepted && k'.cCount == k.cCount
    && k'.h.freed == k.h.freed && k'.h.accepts == k.h.accepts
    && k'.h.dropped == k.h.dropped && k'.h.enqueued == k.h.enqueued
  }

  /** Between two states the scheduler gives the connections of the queue a status of its own and
      leaves the others as they are. */
  ghost predicate OnlyQueued(k: Control, k': Control) {
    && SameBase(k, k')
    && (forall d :: d in k.conns && d !in k.queue ==> k'.conns[d] == k.conns[d])
    && (forall d :: d in k.conns && d in k.queue ==> SettledConn(k'.conns[d]) && k'.conns[d].born == k.conns[d].born)
    && (forall d :: d in k'.queue ==> d in k.queue)
    && (k.fault ==> k'.fault)
    && (!k.fault && NoDangling(k) ==> !k'.fault && NoDangling(k'))
  }

  lemma PopFrame(k: Control, k': Control, v: Conn)
    requires Turn(k) && SameBase(k, k') && QueueIdle(k)
    requires k'.conns == k.conns[k.queue[0] := v] && SettledConn(v) && v.born == k.conns[k.queue[0]].born
    requires k'.queue == k.queue[1..] && k'.fault == (k.fault || Dangling(k, 1))
    ensures OnlyQueued(k, k')
  {
    assert k.queue == [k.queue[0]] + k'.queue;
  }

  lemma AdmitFrame(k: Control)
    requires Turn(k) && QueueIdle(k)
    ensures OnlyQueued(k, AdmitHead(k))
  {
    PopFrame(k, AdmitHead(k), AdmitHead(k).conns[k.queue[0]]);
  }

  lemma RefuseFrame(k: Control)
    requires Turn(k) && QueueIdle(k)
    ensures OnlyQueued(k, FailedAttempt(k, k.queue[0]))
    ensures QueueIdle(FailedAttempt(k, k.queue[0]))
  {
  }

  lemma OnlyQueuedTrans(k: Control, k1: Control, k2: Control)
    requires OnlyQueued(k, k1) && OnlyQueued(k1, k2)
    ensures OnlyQueued(k, k2)
  {
  }

  lemma {:induction false} HandleFrame(k: Control, outs: seq<ConnectOutcome>)
    requires QueueIdle(k)
    ensures OnlyQueued(k, Handle(k, outs).k)
    decreases |outs|
  {
    if Turn(k) {
      HandleTurn(k, outs);
      match Outcome(outs)
      case Started => AdmitFrame(k);
      case SocketFailed =>
      case ConnectFailed =>
        var k1 := FailedAttempt(k, k.queue[0]);
        RefuseFrame(k);
        HandleFrame(k1, outs[1..]);
        OnlyQueuedTrans(k, k1, Handle(k1, outs[1..]).k);
    }
  }

  lemma FinalKeeps(k: Control, c: nat, outs: seq<ConnectOutcome>)
    requires Mid(k) && c in k.conns
    ensures var f := Final(k, c, outs).k;
            && Mid(f)
            && SameBase(k, f)
            && f.conns[c] == (if Open(k.conns[c].upc) then Shut(k.conns[c]) else k.conns[c])
            && (forall d :: d in k.conns && d != c && SettledConn(k.conns[d]) ==> SettledConn(f.conns[d]))
            && (!k.fault && NoDangling(k) ==> !f.fault && NoDangling(f))
  {
    if Open(k.conns[c].upc) {
      var k1 := ShutUpstream(k, c);
      ShutKeeps(k, c);
      MidQueueIdle(k1);
      HandleKeeps(k1, outs);
      HandleFrame(k1, outs);
      ShutThenQueued(k, c, k1, Handle(k1, outs).k);
    }
  }

  /** The upstream side of c is closed, and the scheduler looks after the queue. */
  lemma ShutThenQueued(k: Control, c: nat, k1: Control, f: Control)
    requires c in k.conns && k1 == ShutUpstream(k, c) && c !in k.queue && OnlyQueued(k1, f)
    ensures SameBase(k, f) && f.conns[c] == Shut(k.conns[c])
    ensures forall d :: d in k.conns && d != c && SettledConn(k.conns[d]) ==> SettledConn(f.conns[d])
    ensures !k.fault && NoDangling(k) ==> !f.fault && NoDangling(f)
  {
  }
}
