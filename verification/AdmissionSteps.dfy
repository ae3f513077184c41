/** Every callback keeps the invariant of the control state. */
module AdmissionSteps {
  import opened Common
  import opened Admission
  import opened AdmissionInvariant

  // ---------- closing a client ----------

  function ClosedConn(v: Conn, now: real): Conn {
    v.(eRecv := false, eSend := false, status := CONN_CLOSE, eTimer := TimerAgain(now, CONN_FREE_TIMEOUT))
  }

  lemma ClosedOk(cf: Conf, now: real, v: Conn)
    requires ConnOk(cf, now, v) && v.status != CONN_CLOSE && !Open(v.upc)
    ensures ConnOk(cf, now, ClosedConn(v, now)) && SettledConn(ClosedConn(v, now))
  {
  }

  lemma CountsClose(k: Control, k': Control, c: nat, v: Conn)
    requires CountsOk(k) && c in k.conns && k'.conns == k.conns[c := v] && k'.cf == k.cf
    requires k.conns[c].status != CONN_CLOSE && v.status == CONN_CLOSE && !Open(k.conns[c].upc) && !Open(v.upc)
    requires k'.cCount == k.cCount - 1 && k'.workingNum == k.workingNum && k'.h.fails == k.h.fails
    ensures CountsOk(k')
  {
    OpenedPut(k.conns, c, v);
    UnclosedPut(k.conns, c, v);
  }

  /** A waiting connection leaves the queue when it is closed. */
  lemma QueueDrop(k: Control, k': Control, c: nat, v: Conn)
    requires QueueOk(k) && FifoOk(k) && c in k.queue && c in k.conns
    requires k'.conns == k.conns[c := v] && v.status == CONN_CLOSE
    requires k'.queue == Remove(k.queue, c) && k'.waitingNum == k.waitingNum - 1 && k'.accepted == k.accepted
    requires k'.h.enqueued == k.h.enqueued && k'.h.dropped == k.h.dropped + {c} && k'.h.admitted == k.h.admitted
    ensures QueueOk(k') && FifoOk(k')
  {
    QueueMembers(k);
    RemoveIn(k.queue, c);
    KeptDrop(k.h.enqueued, k.h.dropped, c);
    RemoveConcat(k.h.admitted, k.queue, c);
  }

  lemma UnlinkEffect(k: Control, c: nat)
    requires c in k.queue
    ensures var u := UnlinkAt(k, Position(k.queue, c));
            && u == k.(fault := u.fault, queue := Remove(k.queue, c), waitingNum := k.waitingNum - 1)
            && (k.fault ==> u.fault)
            && (!k.fault && NoDangling(k) ==> !u.fault)
  {
    RemoveAt(k.queue, c);
  }

  /** The last part of x_event_close, once the upstream side is shut. */
  lemma CloseIdle(k: Control, c: nat, k': Control)
    requires Mid(k) && c in k.conns && k.conns[c].status != CONN_CLOSE && !Open(k.conns[c].upc)
    requires k'.conns == k.conns[c := ClosedConn(k.conns[c], k.now)] && k'.cf == k.cf && k'.now == k.now
    requires k'.accepted == k.accepted && k'.cCount == k.cCount - 1 && k'.workingNum == k.workingNum
    requires k'.upIndex == k.upIndex
    requires if k.conns[c].status == CONN_WAITING
             then k'.queue == Remove(k.queue, c) && k'.waitingNum == k.waitingNum - 1
                  && k'.h == k.h.(dropped := k.h.dropped + {c})
             else k'.queue == k.queue && k'.waitingNum == k.waitingNum && k'.h == k.h
    ensures Mid(k')
  {
    var v := ClosedConn(k.conns[c], k.now);
    ClosedOk(k.cf, k.now, k.conns[c]);
    CloseRest(k, k', c, v);
    if k.conns[c].status == CONN_WAITING {
      QueueDrop(k, k', c, v);
    } else {
      QueueStay(k, k', c, v);
    }
  }

  /** The part of a close that does not concern the queue. */
  lemma CloseRest(k: Control, k': Control, c: nat, v: Conn)
    requires ConnsOk(k) && CountsOk(k) && RobinOk(k) && FreedOk(k) && c in k.conns
    requires ConnOk(k.cf, k.now, v) && v.status == CONN_CLOSE && !Open(v.upc) && v.born == k.conns[c].born
    requires k.conns[c].status != CONN_CLOSE && !Open(k.conns[c].upc)
    requires k'.conns == k.conns[c := v] && k'.cf == k.cf && k'.now == k.now && k'.accepted == k.accepted
    requires k'.cCount == k.cCount - 1 && k'.workingNum == k.workingNum && k'.upIndex == k.upIndex
    requires k'.h.fails == k.h.fails && k'.h.picks == k.h.picks
    requires k'.h.freed == k.h.freed && k'.h.accepts == k.h.accepts
    ensures ConnsOk(k') && CountsOk(k') && RobinOk(k') && FreedOk(k')
  {
    ConnsPut(k, k', c, v);
    CountsClose(k, k', c, v);
    FreedPut(k, k');
  }

  lemma CloseClientKeeps(k: Control, c: nat)
    requires Mid(k) && c in k.conns && k.conns[c].status != CONN_CLOSE && !Open(k.conns[c].upc)
    ensures var r := CloseClient(k, c);
            && Mid(r)
            && r.conns == k.conns[c := ClosedConn(k.conns[c], k.now)]
            && (!k.fault && NoDangling(k) ==> !r.fault && NoDangling(r))
            && r.now == k.now && r.cf == k.cf
  {
    if k.conns[c].status == CONN_WAITING {
      QueueMembers(k);
      RemoveIn(k.queue, c);
    }
    ClosedView(k, c);
    hide CloseClient, ConnsOk, CountsOk, FifoOk, RobinOk, FreedOk;
    CloseIdle(k, c, CloseClient(k, c));
  }

  /** CloseClient in terms of Remove. */
  lemma ClosedView(k: Control, c: nat)
    requires c in k.conns && (k.conns[c].status == CONN_WAITING ==> c in k.queue)
    ensures var r := CloseClient(k, c);
            && r.conns == k.conns[c := ClosedConn(k.conns[c], k.now)] && r.cf == k.cf && r.now == k.now
            && r.accepted == k.accepted && r.cCount == k.cCount - 1 && r.workingNum == k.workingNum
            && r.upIndex == k.upIndex
            && (if k.conns[c].status == CONN_WAITING
                then r.queue == Remove(k.queue, c) && r.waitingNum == k.waitingNum - 1
                     && r.h == k.h.(dropped := k.h.dropped + {c})
                else r.queue == k.queue && r.waitingNum == k.waitingNum && r.h == k.h)
            && (!k.fault && NoDangling(k) ==> !r.fault)
  {
    if k.conns[c].status == CONN_WAITING {
      UnlinkEffect(k, c);
    }
  }

  lemma EventCloseKeeps(k: Control, c: nat, outs: seq<ConnectOutcome>)
    requires Mid(k) && c in k.conns && k.conns[c].status != CONN_CLOSE
    ensures var r := EventClose(k, c, outs);
            && Mid(r)
            && r.conns[c].status == CONN_CLOSE && SettledConn(r.conns[c])
            && r.conns[c].born == k.conns[c].born
            && (forall d :: d in k.conns && d != c && SettledConn(k.conns[d]) ==> SettledConn(r.conns[d]))
            && (!k.fault && NoDangling(k) ==> !r.fault && NoDangling(r))
            && r.now == k.now && r.cf == k.cf && r.conns.Keys == k.conns.Keys
  {
    hide Final, CloseClient, CountsOk, QueueOk, FifoOk, RobinOk, FreedOk, ConnOk, NoDangling;
    var f := Final(k, c, outs).k;
    FinalKeeps(k, c, outs);
    CloseClientKeeps(f, c);
    ClosedOk(f.cf, f.now, f.conns[c]);
  }

  // ---------- freeing ----------

  lemma CountsRelease(k: Control, k': Control, c: nat)
    requires CountsOk(k) && c in k.conns && k'.conns == k.conns - {c} && k'.cf == k.cf
    requires k.conns[c].status == CONN_CLOSE && !Open(k.conns[c].upc)
    requires k'.cCount == k.cCount && k'.workingNum == k.workingNum && k'.h.fails == k.h.fails
    ensures CountsOk(k')
  {
    assert Opened(k'.conns) == Opened(k.conns);
    assert Unclosed(k'.conns) == Unclosed(k.conns);
  }

  lemma FreedRelease(k: Control, k': Control, c: nat)
    requires FreedOk(k) && c in k.conns && k'.conns == k.conns - {c} && k'.cf == k.cf && k'.now == k.now
    requires k.conns[c].born <= k.now <= Expiry(k.cf, k.conns[c].born) && k'.accepted == k.accepted
    requires k'.h.freed == k.h.freed + [Gone(c, k.conns[c].born, k.now)] && k'.h.accepts == k.h.accepts
    ensures FreedOk(k')
  {
    forall d: nat ensures HasGone(k'.h.freed, d) <==> HasGone(k.h.freed, d) || d == c {
      if HasGone(k.h.freed, d) {
        var i :| 0 <= i < |k.h.freed| && k.h.freed[i].id == d;
        assert k'.h.freed[i].id == d;
      }
      if d == c {
        assert k'.h.freed[|k.h.freed|].id == d;
      }
    }
    forall i, j | 0 <= i < j < |k'.h.freed| ensures k'.h.freed[i].id != k'.h.freed[j].id {
      assert k.h.freed[i].id == c ==> HasGone(k.h.freed, c);
    }
  }

  lemma ReleaseKeeps(k: Control, c: nat)
    requires Mid(k) && c in k.conns && k.conns[c].status == CONN_CLOSE
    ensures Mid(Release(k, c))
    ensures NoDangling(k) ==> NoDangling(Release(k, c))
  {
    var k' := Release(k, c);
    assert ConnOk(k.cf, k.now, k.conns[c]);
    CountsRelease(k, k', c);
    FreedRelease(k, k', c);
  }

  /** The access timer of a connection that is not waiting. */
  lemma TimeoutKeeps(k: Control, c: nat, outs: seq<ConnectOutcome>)
    requires Inv(k) && c in k.conns && k.conns[c].status != CONN_WAITING
    ensures Inv(AccessTimeout(k, c, outs))
    ensures !k.fault && NoDangling(k) ==> !AccessTimeout(k, c, outs).fault && NoDangling(AccessTimeout(k, c, outs))
  {
    hide CountsOk, QueueOk, FifoOk, RobinOk, FreedOk;
    var v := k.conns[c];
    if v.status == CONN_CLOSE {
      ReleaseKeeps(k, c);
    } else {
      var k1 := Put(k, c, v.(status := CONN_TIMEOUT));
      PutKeeps(k, c, v.(status := CONN_TIMEOUT));
      EventCloseKeeps(k1, c, outs);
      ReleaseKeeps(EventClose(k1, c, outs), c);
    }
  }

  lemma ForgetWaiting(k: Control, k': Control, c: nat)
    requires Inv(k) && c in k.conns && k.conns[c].status == CONN_WAITING
    requires k' == k.(conns := k.conns - {c}, cCount := k.cCount - 1,
                      h := k.h.(freed := k.h.freed + [Gone(c, k.conns[c].born, k.now)]))
    ensures Inv(k') && !NoDangling(k')
  {
    assert ConnOk(k.cf, k.now, k.conns[c]);
    ForgetQueue(k, k', c);
    hide ConnsOk, CountsOk, QueueOk, FifoOk, RobinOk, FreedOk, Settled, NoDangling;
    ForgetCounts(k, k', c);
    ForgetLogs(k, k', c);
    FreedRelease(k, k', c);
  }

  lemma ForgetQueue(k: Control, k': Control, c: nat)
    requires ConnsOk(k) && Settled(k) && QueueOk(k) && c in k.conns && k.conns[c].status == CONN_WAITING
    requires k' == k.(conns := k.conns - {c}, cCount := k'.cCount, h := k'.h)
    ensures ConnsOk(k') && Settled(k') && QueueOk(k') && !NoDangling(k')
  {
    assert c in k'.queue && c !in k'.conns;
  }

  lemma ForgetCounts(k: Control, k': Control, c: nat)
    requires CountsOk(k) && c in k.conns && k.conns[c].status != CONN_CLOSE && !Open(k.conns[c].upc)
    requires k'.conns == k.conns - {c} && k'.cf == k.cf && k'.cCount == k.cCount - 1
    requires k'.workingNum == k.workingNum && k'.h.fails == k.h.fails
    ensures CountsOk(k')
  {
    assert Opened(k'.conns) == Opened(k.conns);
    assert Unclosed(k'.conns) == Unclosed(k.conns) - {c} && c in Unclosed(k.conns);
  }

  lemma ForgetLogs(k: Control, k': Control, c: nat)
    requires FifoOk(k) && RobinOk(k)
    requires k' == k.(conns := k.conns - {c}, cCount := k'.cCount, h := k.h.(freed := k'.h.freed))
    ensures FifoOk(k') && RobinOk(k')
  {
  }

  /** The access timer of a waiting connection: the status is overwritten before the close looks at
      it, so the connection is freed while it is still in the queue. */
  lemma TimeoutWaiting(k: Control, c: nat, outs: seq<ConnectOutcome>)
    requires Inv(k) && c in k.conns && k.conns[c].status == CONN_WAITING
    ensures var k' := AccessTimeout(k, c, outs);
            && k'.queue == k.queue && k'.fault == k.fault
            && Inv(k') && !NoDangling(k')
  {
    assert ConnOk(k.cf, k.now, k.conns[c]);
    WaitingTimeout(k, c, outs);
    hide AccessTimeout, Inv;
    ForgetWaiting(k, AccessTimeout(k, c, outs), c);
  }

  lemma WaitingTimeout(k: Control, c: nat, outs: seq<ConnectOutcome>)
    requires c in k.conns && k.conns[c].status == CONN_WAITING && !Open(k.conns[c].upc)
    ensures AccessTimeout(k, c, outs)
         == k.(conns := k.conns - {c}, cCount := k.cCount - 1,
               h := k.h.(freed := k.h.freed + [Gone(c, k.conns[c].born, k.now)]))
  {
    assert AccessTimeout(k, c, outs).conns == k.conns - {c};
  }

  // ---------- accepting and queueing ----------

  function NewConn(k: Control): Conn {
    Conn(CONN_NONE, CONN_NONE, true, false, Some(k.now + k.cf.accessTimeout as real),
         false, false, false, None, None, k.now)
  }

  lemma CountsAccept(k: Control, k': Control, c: nat)
    requires CountsOk(k) && c !in k.conns && k'.conns == k.conns[c := NewConn(k)] && k'.cf == k.cf
    requires k'.cCount == k.cCount + 1 && k.cCount < k.cf.accessMax
    requires k'.workingNum == k.workingNum && k'.h.fails == k.h.fails
    ensures CountsOk(k')
  {
    OpenedPut(k.conns, c, NewConn(k));
    UnclosedPut(k.conns, c, NewConn(k));
  }

  lemma AcceptedUnused(k: Control)
    requires FreedOk(k)
    ensures k.accepted !in k.conns
  {
  }

  lemma AcceptQueue(k: Control, k': Control)
    requires QueueOk(k) && FifoOk(k) && k.accepted !in k.conns
    requires k' == k.(conns := k.conns[k.accepted := NewConn(k)], accepted := k.accepted + 1, cCount := k.cCount + 1,
                      h := k.h.(accepts := k.h.accepts + [k.now]))
    ensures QueueOk(k') && FifoOk(k')
  {
    QueueMembers(k);
  }

  lemma AcceptFreed(k: Control, k': Control)
    requires FreedOk(k)
    requires k' == k.(conns := k.conns[k.accepted := NewConn(k)], accepted := k.accepted + 1, cCount := k.cCount + 1,
                      h := k.h.(accepts := k.h.accepts + [k.now]))
    ensures FreedOk(k')
  {
    assert k'.h.accepts[k.accepted] == k.now && forall i :: 0 <= i < k.accepted ==> k'.h.accepts[i] == k.h.accepts[i];
  }

  lemma AcceptKeeps(k: Control)
    requires Inv(k)
    ensures Inv(Accept(k))
    ensures NoDangling(k) ==> NoDangling(Accept(k))
  {
    hide ConnsOk, CountsOk, QueueOk, FifoOk, FreedOk;
    if k.cCount < k.cf.accessMax {
      var c, k' := k.accepted, Accept(k);
      AcceptedUnused(k);
      ConnsPut(k, k', c, NewConn(k));
      CountsAccept(k, k', c);
      AcceptQueue(k, k');
      AcceptFreed(k, k');
    }
  }

  lemma QueuePush(k: Control, k': Control, c: nat, v: Conn)
    requires QueueOk(k) && FifoOk(k) && c in k.conns && k.conns[c].status == CONN_NONE && c < k.accepted
    requires k'.conns == k.conns[c := v] && v.status == CONN_WAITING && k'.accepted == k.accepted
    requires k'.queue == k.queue + [c] && k'.waitingNum == k.waitingNum + 1
    requires k'.h.enqueued == k.h.enqueued + [c] && k'.h.dropped == k.h.dropped && k'.h.admitted == k.h.admitted
    requires c !in k.h.dropped
    ensures QueueOk(k') && FifoOk(k')
  {
    KeptAppend(k.h.enqueued, c, k.h.dropped);
    assert k.h.admitted + k.queue + [c] == k.h.admitted + (k.queue + [c]);
  }

  lemma NewUnqueued(k: Control, c: nat)
    requires FifoOk(k) && FreedOk(k) && c in k.conns && k.conns[c].status == CONN_NONE
    ensures c < k.accepted && c !in k.h.dropped
  {
  }

  lemma EnqueueSound(k: Control, c: nat)
    requires c in k.conns
    ensures !k.fault && NoDangling(k) ==> !Enqueue(k, c).fault && NoDangling(Enqueue(k, c))
  {
  }

  lemma EnqueueParts(k: Control, k': Control, c: nat, v: Conn)
    requires Mid(k) && c in k.conns && k.conns[c].status == CONN_NONE && c < k.accepted && c !in k.h.dropped
    requires ConnOk(k.cf, k.now, v) && v == k.conns[c].(status := CONN_WAITING)
    requires k' == k.(conns := k.conns[c := v], fault := k'.fault, queue := k.queue + [c],
                      waitingNum := k.waitingNum + 1, h := k.h.(enqueued := k.h.enqueued + [c]))
    ensures Mid(k')
  {
    hide ConnsOk, CountsOk, QueueOk, FifoOk, FreedOk;
    ConnsPut(k, k', c, v);
    CountsSame(k, k', c, v);
    QueuePush(k, k', c, v);
    FreedPut(k, k');
  }

  lemma EnqueueKeeps(k: Control, c: nat)
    requires Mid(k) && c in k.conns && k.conns[c].status == CONN_NONE
    ensures Mid(Enqueue(k, c))
    ensures !k.fault && NoDangling(k) ==> !Enqueue(k, c).fault && NoDangling(Enqueue(k, c))
  {
    NewUnqueued(k, c);
    EnqueueSound(k, c);
    assert ConnOk(k.cf, k.now, k.conns[c]);
    hide Mid, NoDangling;
    EnqueueParts(k, Enqueue(k, c), c, k.conns[c].(status := CONN_WAITING));
  }

  // ---------- the callbacks ----------

  /** The scheduler run by itself between two callbacks. */
  lemma HandleSettles(k: Control, outs: seq<ConnectOutcome>)
    requires Inv(k)
    ensures var k' := Handle(k, outs).k;
            Inv(k') && (!k.fault && NoDangling(k) ==> !k'.fault && NoDangling(k'))
  {
    HandleKeeps(k, outs);
    MidQueueIdle(k);
    HandleFrame(k, outs);
    SettledAfter(k, Handle(k, outs).k);
  }

  lemma QueueAndHandle(k: Control, c: nat, outs: seq<ConnectOutcome>)
    requires Inv(k) && c in k.conns && k.conns[c].status == CONN_NONE
    ensures var k' := Handle(Enqueue(k, c), outs).k;
            Inv(k') && (!k.fault && NoDangling(k) ==> !k'.fault && NoDangling(k'))
  {
    EnqueueKeeps(k, c);
    EnqueueSettled(k, c);
    hide Mid, Settled, Enqueue, Handle, NoDangling;
    HandleSettles(Enqueue(k, c), outs);
  }

  lemma EnqueueSettled(k: Control, c: nat)
    requires Settled(k) && c in k.conns
    ensures Settled(Enqueue(k, c)) && Enqueue(k, c).conns.Keys == k.conns.Keys
  {
  }

  lemma ReceivedKeeps(k: Control, c: nat, ok: bool, outs: seq<ConnectOutcome>)
    requires Inv(k) && c in k.conns && k.conns[c].status != CONN_CLOSE
    ensures var k' := ClientReceived(k, c, ok, outs);
            Inv(k') && (!k.fault && NoDangling(k) ==> !k'.fault && NoDangling(k'))
  {
    hide CountsOk, QueueOk, FifoOk, RobinOk, FreedOk;
    if !ok {
      EventCloseKeeps(k, c, outs);
    } else {
      var k1 := k;
      if k.conns[c].status == CONN_NONE {
        QueueAndHandle(k, c, outs);
        k1 := Handle(Enqueue(k, c), outs).k;
      }
      if k1.conns[c].upc == CONN_WORKING {
        PutSettled(k1, c, k1.conns[c].(upSend := true));
      }
    }
  }

  lemma SettledAfter(k: Control, k': Control)
    requires Settled(k) && OnlyQueued(k, k')
    ensures Settled(k')
  {
  }

  lemma PutSettled(k: Control, c: nat, v: Conn)
    requires Inv(k) && c in k.conns && ConnOk(k.cf, k.now, v) && SettledConn(v)
    requires v.status == k.conns[c].status && Open(v.upc) == Open(k.conns[c].upc) && v.born == k.conns[c].born
    ensures Inv(Put(k, c, v))
    ensures NoDangling(k) ==> NoDangling(Put(k, c, v))
  {
    hide ConnsOk, CountsOk, QueueOk, FifoOk, RobinOk, FreedOk;
    PutKeeps(k, c, v);
  }

  lemma FinalSettles(k: Control, c: nat, outs: seq<ConnectOutcome>)
    requires Mid(k) && c in k.conns && k.conns[c].status != CONN_TIMEOUT
    requires forall d :: d in k.conns && d != c ==> SettledConn(k.conns[d])
    ensures var k' := Final(k, c, outs).k;
            && Inv(k') && (!k.fault && NoDangling(k) ==> !k'.fault && NoDangling(k'))
            && k'.conns[c] == (if Open(k.conns[c].upc) then Shut(k.conns[c]) else k.conns[c])
  {
    hide CountsOk, QueueOk, FifoOk, RobinOk, FreedOk;
    FinalKeeps(k, c, outs);
  }

  lemma SentKeeps(k: Control, c: nat, res: SendOutcome, outs: seq<ConnectOutcome>)
    requires Inv(k) && c in k.conns && k.conns[c].status != CONN_CLOSE
    ensures var k' := ClientSent(k, c, res, outs);
            Inv(k') && (!k.fault && NoDangling(k) ==> !k'.fault && NoDangling(k'))
  {
    hide CountsOk, QueueOk, FifoOk, RobinOk, FreedOk;
    if res == SendError || (res == SendDry && k.conns[c].upc == CONN_CLOSE) {
      EventCloseKeeps(k, c, outs);
    } else if res == SendDry {
      PutSettled(k, c, k.conns[c].(eSend := false));
    }
  }

  lemma ConnectedKeeps(k: Control, c: nat, ok: bool, outs: seq<ConnectOutcome>)
    requires Inv(k) && c in k.conns && k.conns[c].upConnected
    ensures var k' := UpstreamConnected(k, c, ok, outs);
            Inv(k') && (!k.fault && NoDangling(k) ==> !k'.fault && NoDangling(k'))
  {
    hide CountsOk, QueueOk, FifoOk, RobinOk, FreedOk;
    if !ok {
      FinalSettles(k, c, outs);
    } else {
      assert ConnOk(k.cf, k.now, k.conns[c]);
      PutSettled(k, c, UpstreamConnected(k, c, ok, outs).conns[c]);
    }
  }

  lemma UpstreamReceivedKeeps(k: Control, c: nat, ok: bool, outs: seq<ConnectOutcome>)
    requires Inv(k) && c in k.conns && k.conns[c].upRecv
    ensures var k' := UpstreamReceived(k, c, ok, outs);
            Inv(k') && (!k.fault && NoDangling(k) ==> !k'.fault && NoDangling(k'))
  {
    hide CountsOk, QueueOk, FifoOk, RobinOk, FreedOk;
    if !ok {
      FinalSettles(k, c, outs);
    } else {
      assert ConnOk(k.cf, k.now, k.conns[c]);
      PutSettled(k, c, k.conns[c].(eSend := true));
    }
  }

  lemma UpstreamSentKeeps(k: Control, c: nat, res: SendOutcome, outs: seq<ConnectOutcome>)
    requires Inv(k) && c in k.conns && k.conns[c].upSend
    ensures var k' := UpstreamSent(k, c, res, outs);
            Inv(k') && (!k.fault && NoDangling(k) ==> !k'.fault && NoDangling(k'))
  {
    hide CountsOk, QueueOk, FifoOk, RobinOk, FreedOk;
    if res == SendError {
      FinalSettles(k, c, outs);
    } else {
      PutSettled(k, c, k.conns[c].(upSend := false));
    }
  }

  lemma MarkTimeout(k: Control, c: nat)
    requires Inv(k) && c in k.conns && k.conns[c].upTimer.Some?
    ensures Mid(Put(k, c, k.conns[c].(upc := CONN_TIMEOUT)))
    ensures k.conns[c].upc != CONN_CLOSE && k.conns[c].status == CONN_WORKING
  {
    assert ConnOk(k.cf, k.now, k.conns[c]);
    PutKeeps(k, c, k.conns[c].(upc := CONN_TIMEOUT));
  }

  lemma PutSame(k: Control, c: nat)
    requires c in k.conns
    ensures Put(k, c, k.conns[c]) == k
  {
    assert k.conns[c := k.conns[c]] == k.conns;
  }

  lemma UpstreamTimeoutKeeps(k: Control, c: nat, outs: seq<ConnectOutcome>)
    requires Inv(k) && c in k.conns && k.conns[c].upTimer.Some?
    ensures var k' := UpstreamTimeout(k, c, outs);
            Inv(k') && (!k.fault && NoDangling(k) ==> !k'.fault && NoDangling(k'))
  {
    hide CountsOk, QueueOk, FifoOk, RobinOk, FreedOk;
    MarkTimeout(k, c);
    var k1 := Put(k, c, k.conns[c].(upc := CONN_TIMEOUT));
    FinalSettles(k1, c, outs);
    PutSame(Final(k1, c, outs).k, c);
  }

  lemma TickKeeps(k: Control, t: real)
    requires Inv(k) && Enabled(k, Tick(t))
    ensures Inv(k.(now := t)) && (NoDangling(k) ==> NoDangling(k.(now := t)))
  {
    var k' := k.(now := t);
    forall c | c in k'.conns ensures ConnOk(k'.cf, k'.now, k'.conns[c]) && SettledConn(k'.conns[c]) {
      assert NotPast(k.conns[c].eTimer, t) && NotPast(k.conns[c].upTimer, t);
      assert ConnOk(k.cf, k.now, k.conns[c]);
    }
    FreedPut(k, k');
  }

  ghost predicate TimesOutWaiting(k: Control, sig: Signal) {
    sig.AccessTimer? && sig.c in k.conns && k.conns[sig.c].status == CONN_WAITING
  }

  /** Every enabled callback keeps the invariant. */
  lemma ReactKeeps(k: Control, sig: Signal, outs: seq<ConnectOutcome>)
    requires Inv(k) && Enabled(k, sig)
    ensures Inv(React(k, sig, outs))
    ensures !TimesOutWaiting(k, sig) && NoDangling(k) ==>
              !React(k, sig, outs).fault && NoDangling(React(k, sig, outs))
    ensures TimesOutWaiting(k, sig) ==> !NoDangling(React(k, sig, outs))
  {
    match sig
    case NewClient => AcceptKeeps(k);
    case ClientReadable(c, ok) => ReceivedKeeps(k, c, ok, outs);
    case ClientWritable(c, res) => SentKeeps(k, c, res, outs);
    case AccessTimer(c) =>
      if k.conns[c].status == CONN_WAITING {
        TimeoutWaiting(k, c, outs);
      } else {
        TimeoutKeeps(k, c, outs);
      }
    case PeerConnected(c, ok) => ConnectedKeeps(k, c, ok, outs);
    case PeerReadable(c, ok) => UpstreamReceivedKeeps(k, c, ok, outs);
    case PeerWritable(c, res) => UpstreamSentKeeps(k, c, res, outs);
    case PeerTimer(c) => UpstreamTimeoutKeeps(k, c, outs);
    case Tick(t) => TickKeeps(k, t);
  }
}
