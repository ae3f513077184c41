/** The life of a single connection.  Each callback is read as a move of every connection, and what a
    connection looks like in a reachable state is told by the moves that have led there: the deadlines
    of both sides, the moment at which it is freed, and which senders are on. */
module Lifecycle {
  import opened Common
  import opened Admission
  import opened AdmissionInvariant
  import opened Scheduler
  import opened ControlRuns
  import opened ConnectionMoves
  import opened Evolution
  import opened ControlHistory

  // ---------- along a run ----------

  /** The moment before move i, seen from the start. */
  ghost function At(cf: Conf, run: seq<Move>, i: nat): Control
    requires Legal(InitControl(cf), run) && i <= |run|
  {
    After(InitControl(cf), run, i)
  }

  lemma Moment(cf: Conf, run: seq<Move>, i: nat)
    requires Legal(InitControl(cf), run) && i <= |run|
    ensures Inv(At(cf, run, i)) && At(cf, run, i).cf == cf
    ensures i < |run| ==> Enabled(At(cf, run, i), run[i].sig)
                          && At(cf, run, i + 1) == React(At(cf, run, i), run[i].sig, run[i].outs)
  {
    hide Inv;
    InitInv(cf);
    AfterInv(InitControl(cf), run, i);
    if i < |run| {
      AfterNext(InitControl(cf), run, i);
    }
  }

  /** A step of a connection that is there before and after it. */
  ghost predicate LiveStep(k: Control, m: Move, c: nat, v: Conn, v': Conn)
    requires Enabled(k, m.sig)
  {
    && c in k.conns && k.conns[c] == v && ConnOk(k.cf, k.now, v) && SettledConn(v)
    && Moves(k, m, c, v, v') && Reacts(m.sig, c, v, v')
    && (Tries(SchedulerCall(k, m.sig), c) ==> Early(v))
  }

  lemma LiveMoves(k: Control, m: Move, c: nat)
    requires Inv(k) && Enabled(k, m.sig) && c in k.conns && c in React(k, m.sig, m.outs).conns
    ensures LiveStep(k, m, c, k.conns[c], React(k, m.sig, m.outs).conns[c])
  {
    hide Inv, React, Moves, Reacts, Tries, ConnOk;
    ReactKeys(k, m.sig, m.outs);
    AcceptedBefore(k, c);
    ReactMoves(k, m, c);
    ReactReacts(k, m.sig, m.outs, c);
    if Tries(SchedulerCall(k, m.sig), c) {
      TriesWaiting(k, m.sig, c);
    }
  }

  lemma OnlyMore(k: Control, m: Move)
    requires Enabled(k, m.sig)
    ensures k.accepted <= React(k, m.sig, m.outs).accepted
  {
    hide React, LogsFreed;
    ReactLogs(k, m.sig, m.outs);
  }

  /** What a step does to connection c: it is moved, accepted or freed. */
  lemma StepOf(cf: Conf, run: seq<Move>, i: nat, c: nat)
    requires Legal(InitControl(cf), run) && i < |run|
    ensures var k, k', m := At(cf, run, i), At(cf, run, i + 1), run[i];
            && Enabled(k, m.sig) && k.accepted <= k'.accepted && k.cf == cf
            && (c in k.conns ==> c < k.accepted)
            && (c in k.conns && c in k'.conns ==> LiveStep(k, m, c, k.conns[c], k'.conns[c]))
            && (c in k.conns && c !in k'.conns ==> m.sig == AccessTimer(c))
            && (c !in k.conns && c in k'.conns ==> m.sig.NewClient? && Newborn(k'.conns[c]) && c == k.accepted)
  {
    hide At, React, LiveStep, Inv, Extends, LogsFreed;
    Moment(cf, run, i);
    var k, k', m := At(cf, run, i), At(cf, run, i + 1), run[i];
    ReactKeys(k, m.sig, m.outs);
    OnlyMore(k, m);
    AcceptedBefore(k, c);
    if c in k.conns && c in k'.conns {
      LiveMoves(k, m, c);
    } else if c in k'.conns {
      NewbornAccepted(k);
    }
  }

  lemma AcceptedBefore(k: Control, c: nat)
    requires Inv(k)
    ensures c in k.conns ==> c < k.accepted && ConnOk(k.cf, k.now, k.conns[c]) && SettledConn(k.conns[c])
  {
  }

  predicate Newborn(v: Conn) {
    && v.status == CONN_NONE && v.upc == CONN_NONE && v.eRecv && !v.eSend
    && !v.upRecv && !v.upSend && !v.upConnected && v.upTimer == None
  }

  lemma NewbornAccepted(k: Control)
    requires Enabled(k, NewClient) && k.cCount < k.cf.accessMax
    ensures k.accepted in React(k, NewClient, []).conns && Newborn(React(k, NewClient, []).conns[k.accepted])
    ensures forall outs :: React(k, NewClient, outs) == React(k, NewClient, [])
  {
  }

  // ---------- statuses ----------

  /** What is told about a connection by the two statuses of its sides. */
  datatype Fate = Absent | Life(status: Phase, upc: Phase)

  function Ended(f: Fate): Fate
    requires f.Life?
  {
    Life(CONN_CLOSE, if f.upc == CONN_NONE then CONN_NONE else CONN_CLOSE)
  }

  /** The scheduler gives the client an upstream server, or lets it wait on. */
  ghost function Attended(k: Control, m: Move, c: nat, f: Fate): Fate
    requires Enabled(k, m.sig) && f.Life?
  {
    if !Tries(SchedulerCall(k, m.sig), c) then f
    else if Outcome(m.outs[Refusals(m.outs)..]) == Started then Life(CONN_WORKING, CONN_CONNECT)
    else if Refusals(m.outs) > 0 then Life(f.status, CONN_CLOSE)
    else f
  }

  ghost function NextFate(k: Control, m: Move, c: nat, f: Fate): Fate
    requires Enabled(k, m.sig)
  {
    if f.Absent? then
      if m.sig.NewClient? && k.cCount < k.cf.accessMax && c == k.accepted then Life(CONN_NONE, CONN_NONE) else Absent
    else if !Concerns(m.sig, c) then Attended(k, m, c, f)
    else
      match m.sig
      case AccessTimer(_) => Absent
      case ClientReadable(_, ok) =>
        if !ok then Ended(f)
        else if f.status == CONN_NONE then Attended(k, m, c, Life(CONN_WAITING, f.upc)) else f
      case ClientWritable(_, end) =>
        if end == SendError || (end == SendDry && f.upc == CONN_CLOSE) then Ended(f) else f
      case PeerConnected(_, ok) => Life(f.status, if ok then CONN_WORKING else CONN_CLOSE)
      case PeerReadable(_, ok) => if ok then f else Life(f.status, CONN_CLOSE)
      case PeerWritable(_, end) => if end == SendError then Life(f.status, CONN_CLOSE) else f
      case PeerTimer(_) => Life(f.status, CONN_CLOSE)
  }

  ghost function FateAt(cf: Conf, run: seq<Move>, j: nat, c: nat): Fate
    requires Legal(InitControl(cf), run) && j <= |run|
    decreases j
  {
    if j > 0 && Enabled(At(cf, run, j - 1), run[j - 1].sig)
    then NextFate(At(cf, run, j - 1), run[j - 1], c, FateAt(cf, run, j - 1, c)) else Absent
  }

  ghost function Seen(k: Control, c: nat): Fate {
    if c in k.conns then Life(k.conns[c].status, k.conns[c].upc) else Absent
  }

  lemma FateStep(k: Control, m: Move, c: nat, v: Conn, v': Conn)
    requires Enabled(k, m.sig) && LiveStep(k, m, c, v, v') && m.sig != AccessTimer(c)
    ensures NextFate(k, m, c, Life(v.status, v.upc)) == Life(v'.status, v'.upc)
  {
    hide Reacts;
    if Concerns(m.sig, c) {
      match m.sig
      case ClientReadable(_, _) =>
      case ClientWritable(_, _) =>
      case PeerConnected(_, _) =>
      case PeerReadable(_, _) =>
      case PeerWritable(_, _) =>
      case PeerTimer(_) =>
    }
  }

  lemma FateEnds(k: Control, sig: Signal, outs: seq<ConnectOutcome>, c: nat)
    requires Inv(k) && Enabled(k, sig)
    ensures c !in k.conns ==> (c in React(k, sig, outs).conns
                               <==> sig.NewClient? && k.cCount < k.cf.accessMax && c == k.accepted)
    ensures c in k.conns ==> (c !in React(k, sig, outs).conns <==> sig == AccessTimer(c))
  {
    hide React;
    ReactKeys(k, sig, outs);
    AcceptedBefore(k, c);
  }

  /** The statuses of a connection follow from the events alone: the bytes and the end of its client, the
      answer and the end of its server, the two timers, and the turns of the scheduler that are its own. */
  lemma {:induction false} StatusesFollowEvents(cf: Conf, run: seq<Move>, j: nat, c: nat)
    requires Legal(InitControl(cf), run) && j <= |run|
    ensures Seen(At(cf, run, j), c) == FateAt(cf, run, j, c)
    decreases j
  {
    if j > 0 {
      var i := j - 1;
      hide At, React, Inv, LiveStep, NextFate, Newborn;
      StatusesFollowEvents(cf, run, i, c);
      Moment(cf, run, i);
      StepOf(cf, run, i, c);
      var k, k', m := At(cf, run, i), At(cf, run, j), run[i];
      FateEnds(k, m.sig, m.outs, c);
      if c in k.conns && c in k'.conns {
        FateStep(k, m, c, k.conns[c], k'.conns[c]);
      } else {
        FateBorn(k, m, c, k');
      }
    } else {
      assert At(cf, run, 0).conns == map[];
    }
  }

  lemma FateBorn(k: Control, m: Move, c: nat, k': Control)
    requires Enabled(k, m.sig) && !(c in k.conns && c in k'.conns)
    requires c !in k.conns ==> (c in k'.conns <==> m.sig.NewClient? && k.cCount < k.cf.accessMax && c == k.accepted)
    requires c !in k.conns && c in k'.conns ==> Newborn(k'.conns[c])
    requires c in k.conns && c !in k'.conns ==> m.sig == AccessTimer(c)
    ensures NextFate(k, m, c, Seen(k, c)) == Seen(k', c)
  {
  }

  // ---------- waiting ----------

  /** Move i meets a refusal on behalf of connection c. */
  ghost predicate RefusedAt(cf: Conf, run: seq<Move>, i: nat, c: nat)
    requires Legal(InitControl(cf), run) && i < |run|
  {
    && Enabled(At(cf, run, i), run[i].sig)
    && Tries(SchedulerCall(At(cf, run, i), run[i].sig), c) && Refusals(run[i].outs) > 0
  }

  ghost predicate EverRefused(cf: Conf, run: seq<Move>, j: nat, c: nat)
    requires Legal(InitControl(cf), run) && j <= |run|
  {
    exists i :: 0 <= i < j && RefusedAt(cf, run, i, c)
  }

  /** The scheduler tries unfreed connections only. */
  lemma TriesLive(k: Control, sig: Signal, c: nat)
    requires Enabled(k, sig) && Tries(SchedulerCall(k, sig), c)
    ensures c in k.conns
  {
  }

  lemma EarlyStep(k: Control, m: Move, c: nat, v: Conn, v': Conn, ever: bool)
    requires Enabled(k, m.sig) && LiveStep(k, m, c, v, v')
    requires Early(v) ==> v.upc == (if ever then CONN_CLOSE else CONN_NONE) && v.eSend == ever
    ensures var now := ever || (Tries(SchedulerCall(k, m.sig), c) && Refusals(m.outs) > 0);
            Early(v') ==> v'.upc == (if now then CONN_CLOSE else CONN_NONE) && v'.eSend == now
  {
  }

  /** A client that has no server yet: its upstream side has been opened and closed again, and its sender
      is on, exactly if a server has refused it; otherwise both are as they were at the beginning,
      however often the scheduler has failed to get a socket for it. */
  lemma {:induction false} WaitingUntouched(cf: Conf, run: seq<Move>, j: nat, c: nat)
    requires Legal(InitControl(cf), run) && j <= |run|
    ensures var k := At(cf, run, j); var ever := EverRefused(cf, run, j, c);
            && (c in k.conns && Early(k.conns[c]) ==>
                  k.conns[c].upc == (if ever then CONN_CLOSE else CONN_NONE) && k.conns[c].eSend == ever)
            && (c >= k.accepted ==> !ever)
    decreases j
  {
    if j > 0 {
      var i := j - 1;
      var k, m := At(cf, run, i), run[i];
      WaitingUntouched(cf, run, i, c);
      StepOf(cf, run, i, c);
      hide LiveStep, At;
      assert EverRefused(cf, run, j, c) <==> EverRefused(cf, run, i, c) || RefusedAt(cf, run, i, c);
      if RefusedAt(cf, run, i, c) {
        TriesLive(k, m.sig, c);
      }
      if c in k.conns && c in At(cf, run, j).conns {
        EarlyStep(k, m, c, k.conns[c], At(cf, run, j).conns[c], EverRefused(cf, run, i, c));
      }
    }
  }

  // ---------- closing and freeing ----------

  ghost predicate ClosesAt(cf: Conf, run: seq<Move>, i: nat, c: nat)
    requires Legal(InitControl(cf), run) && i < |run|
  {
    var k, k' := At(cf, run, i), At(cf, run, i + 1);
    && c in k.conns && k.conns[c].status != CONN_CLOSE
    && c in k'.conns && k'.conns[c].status == CONN_CLOSE
  }

  lemma ClosingStep(k: Control, m: Move, c: nat, v: Conn, v': Conn)
    requires Enabled(k, m.sig) && LiveStep(k, m, c, v, v')
    ensures v.status == CONN_CLOSE ==> v'.status == CONN_CLOSE && v'.eTimer == v.eTimer
    ensures v.status != CONN_CLOSE && v'.status == CONN_CLOSE ==> v'.eTimer == Some(k.now + CONN_FREE_TIMEOUT)
  {
  }

  /** From the step that closes a client until it is freed, its timer stands at that moment plus
      CONN_FREE_TIMEOUT. */
  lemma {:induction false} ClosedDeadline(cf: Conf, run: seq<Move>, i: nat, j: nat, c: nat)
    requires Legal(InitControl(cf), run) && i < j <= |run| && ClosesAt(cf, run, i, c)
    ensures var k := At(cf, run, j);
            && c < k.accepted
            && (c in k.conns ==>
                  k.conns[c].status == CONN_CLOSE && k.conns[c].eTimer == Some(At(cf, run, i).now + CONN_FREE_TIMEOUT))
    decreases j
  {
    var l := j - 1;
    if i < l {
      ClosedDeadline(cf, run, i, l, c);
    }
    StepOf(cf, run, l, c);
    var k, k' := At(cf, run, l), At(cf, run, j);
    hide LiveStep, At;
    if c in k.conns && c in k'.conns {
      ClosingStep(k, run[l], c, k.conns[c], k'.conns[c]);
    }
  }

  lemma {:induction false} ClosedSince(cf: Conf, run: seq<Move>, j: nat, c: nat) returns (i: nat)
    requires Legal(InitControl(cf), run) && j <= |run|
    requires c in At(cf, run, j).conns && At(cf, run, j).conns[c].status == CONN_CLOSE
    ensures i < j && ClosesAt(cf, run, i, c)
    decreases j
  {
    assert j > 0;
    i := j - 1;
    StepOf(cf, run, i, c);
    if At(cf, run, i).conns[c].status == CONN_CLOSE {
      i := ClosedSince(cf, run, i, c);
    }
  }

  /** A connection is freed at one moment only: when the access timeout has passed since it was accepted,
      if it has not been closed by then, and otherwise CONN_FREE_TIMEOUT after the step that closed it. */
  lemma FreedWhen(cf: Conf, run: seq<Move>, j: nat, c: nat)
    requires Legal(InitControl(cf), run) && j < |run| && run[j].sig == AccessTimer(c)
    ensures var k, k' := At(cf, run, j), At(cf, run, j + 1);
            && c in k.conns && c < |k.h.accepts| && c !in k'.conns
            && |k'.h.freed| == |k.h.freed| + 1
            && k'.h.freed[|k.h.freed|].id == c && k'.h.freed[|k.h.freed|].at == k.now
            && (k.conns[c].status != CONN_CLOSE ==> k.now == k.h.accepts[c] + cf.accessTimeout as real)
            && (k.conns[c].status == CONN_CLOSE ==>
                  exists i :: 0 <= i < j && ClosesAt(cf, run, i, c) && k.now == At(cf, run, i).now + CONN_FREE_TIMEOUT)
  {
    Moment(cf, run, j);
    var k := At(cf, run, j);
    hide At, React;
    ReactLogs(k, run[j].sig, run[j].outs);
    ReactKeys(k, run[j].sig, run[j].outs);
    TimerAtDeadline(k, c);
    if k.conns[c].status == CONN_CLOSE {
      var i := ClosedSince(cf, run, j, c);
      ClosedDeadline(cf, run, i, j, c);
    }
  }

  /** A timer fires at its deadline, neither before nor after. */
  lemma TimerAtDeadline(k: Control, c: nat)
    requires Inv(k) && c in k.conns
    ensures Due(k.conns[c].eTimer, k.now) ==> k.conns[c].eTimer == Some(k.now)
    ensures Due(k.conns[c].upTimer, k.now) ==> k.conns[c].upTimer == Some(k.now)
    ensures c < |k.h.accepts|
    ensures k.conns[c].status != CONN_CLOSE ==>
              k.conns[c].eTimer == Some(k.h.accepts[c] + k.cf.accessTimeout as real)
  {
    assert ConnOk(k.cf, k.now, k.conns[c]);
  }

  // ---------- the deadline of the server side ----------

  /** A move gets connection c an upstream server: the one whose turn it is after the refusals that the
      move meets. */
  ghost predicate Admits(k: Control, m: Move, c: nat, peer: nat)
    requires Enabled(k, m.sig)
  {
    && Tries(SchedulerCall(k, m.sig), c) && Outcome(m.outs[Refusals(m.outs)..]) == Started
    && peer == Mod(|k.h.picks| + Refusals(m.outs), |k.cf.upTimeouts|)
  }

  ghost predicate AdmittedAt(cf: Conf, run: seq<Move>, i: nat, c: nat, peer: nat)
    requires Legal(InitControl(cf), run) && i < |run|
  {
    Enabled(At(cf, run, i), run[i].sig) && Admits(At(cf, run, i), run[i], c, peer)
  }

  /** How far the upstream side of a connection has come. */
  function Stage(v: Conn): nat {
    if Early(v) then 0 else if v.upc == CONN_CONNECT then 1 else if v.upc == CONN_WORKING then 2 else 3
  }

  lemma SameCount(k: Control, sig: Signal)
    requires Enabled(k, sig) && SchedulerCall(k, sig).Some?
    ensures var s := SchedulerCall(k, sig).value;
            s.upIndex == k.upIndex && s.h.picks == k.h.picks && s.cf == k.cf && s.now == k.now
  {
  }

  lemma StageRises(k: Control, m: Move, c: nat, v: Conn, v': Conn)
    requires Enabled(k, m.sig) && LiveStep(k, m, c, v, v')
    ensures Stage(v) <= Stage(v')
    ensures Stage(v) == Stage(v') && Open(v.upc) ==> v'.upTimer == v.upTimer && v'.peer == v.peer
  {
  }

  lemma StageConnecting(k: Control, m: Move, c: nat, v: Conn, v': Conn)
    requires Enabled(k, m.sig) && LiveStep(k, m, c, v, v') && Stage(v) != 1 && Stage(v') == 1
    requires var n, d := |k.cf.upTimeouts|, Refusals(m.outs); Mod(k.upIndex + d, n) == Mod(|k.h.picks| + d, n)
    ensures v'.peer.Some? && Admits(k, m, c, v'.peer.value)
    ensures v'.upTimer == Some(k.now + CONN_CONNECT_TIMEOUT)
  {
    if Tries(SchedulerCall(k, m.sig), c) {
      SameCount(k, m.sig);
    }
  }

  lemma StageConnected(k: Control, m: Move, c: nat, v: Conn, v': Conn)
    requires Enabled(k, m.sig) && LiveStep(k, m, c, v, v') && Stage(v) != 2 && Stage(v') == 2
    ensures m.sig == PeerConnected(c, true) && v'.peer == v.peer
    ensures v'.peer.Some? && v'.peer.value < |k.cf.upTimeouts|
    ensures v'.upTimer == Some(k.now + k.cf.upTimeouts[v'.peer.value] as real)
  {
  }

  /** Servers are chosen in turn, whoever has chosen them before. */
  lemma TurnOf(k: Control, d: nat)
    requires Inv(k)
    ensures Mod(k.upIndex + d, |k.cf.upTimeouts|) == Mod(|k.h.picks| + d, |k.cf.upTimeouts|)
  {
    ModShift(k.upIndex, |k.h.picks|, d, |k.cf.upTimeouts|);
  }

  lemma StartEmpty(cf: Conf, run: seq<Move>)
    requires Legal(InitControl(cf), run)
    ensures At(cf, run, 0).conns == map[]
  {
  }

  lemma StageOpen(k: Control, c: nat)
    requires Inv(k) && c in k.conns
    ensures var v := k.conns[c];
            && (v.upc == CONN_CONNECT <==> Stage(v) == 1) && (v.upc == CONN_WORKING <==> Stage(v) == 2)
            && (Open(v.upc) <==> Stage(v) == 1 || Stage(v) == 2)
  {
    assert ConnOk(k.cf, k.now, k.conns[c]) && SettledConn(k.conns[c]);
  }

  /** What a step does to the upstream side of a connection. */
  ghost predicate PeerMoved(k: Control, m: Move, c: nat, v: Conn, v': Conn)
    requires Enabled(k, m.sig)
  {
    && Stage(v) <= Stage(v')
    && (Stage(v) == Stage(v') && (Stage(v) == 1 || Stage(v) == 2) ==> v'.upTimer == v.upTimer && v'.peer == v.peer)
    && (Stage(v) != 1 && Stage(v') == 1 ==>
          v'.peer.Some? && Admits(k, m, c, v'.peer.value) && v'.upTimer == Some(k.now + CONN_CONNECT_TIMEOUT))
    && (Stage(v) != 2 && Stage(v') == 2 ==>
          && m.sig == PeerConnected(c, true) && v'.peer == v.peer
          && v'.peer.Some? && v'.peer.value < |k.cf.upTimeouts|
          && v'.upTimer == Some(k.now + k.cf.upTimeouts[v'.peer.value] as real))
  }

  lemma LiveBefore(k: Control, m: Move, c: nat, v: Conn, v': Conn)
    requires Enabled(k, m.sig) && LiveStep(k, m, c, v, v')
    ensures c in k.conns && k.conns[c] == v
  {
  }

  lemma PeerMoves(k: Control, m: Move, c: nat, v: Conn, v': Conn)
    requires Inv(k) && Enabled(k, m.sig) && LiveStep(k, m, c, v, v')
    ensures PeerMoved(k, m, c, v, v')
  {
    hide LiveStep, Inv, Stage, Admits, Enabled, Refusals, Open;
    LiveBefore(k, m, c, v, v');
    StageOpen(k, c);
    TurnOf(k, Refusals(m.outs));
    StageRises(k, m, c, v, v');
    if Stage(v) != 1 && Stage(v') == 1 {
      StageConnecting(k, m, c, v, v');
    } else if Stage(v) != 2 && Stage(v') == 2 {
      StageConnected(k, m, c, v, v');
    }
  }

  lemma PeerStepOf(cf: Conf, run: seq<Move>, i: nat, c: nat)
    requires Legal(InitControl(cf), run) && i < |run| && c in At(cf, run, i + 1).conns
    ensures var k, v' := At(cf, run, i), At(cf, run, i + 1).conns[c];
            && Enabled(k, run[i].sig) && k.cf == cf
            && (if c in k.conns then PeerMoved(k, run[i], c, k.conns[c], v') else Stage(v') == 0)
  {
    hide At, React, Inv, LiveStep, Stage, PeerMoved;
    StepOf(cf, run, i, c);
    Moment(cf, run, i);
    var k, v' := At(cf, run, i), At(cf, run, i + 1).conns[c];
    if c in k.conns {
      PeerMoves(k, run[i], c, k.conns[c], v');
    } else {
      NewbornEarly(v');
    }
  }

  lemma NewbornEarly(v: Conn)
    requires Newborn(v)
    ensures Stage(v) == 0
  {
  }

  lemma {:induction false} ConnectingFrom(cf: Conf, run: seq<Move>, j: nat, c: nat) returns (i: nat)
    requires Legal(InitControl(cf), run) && j <= |run|
    requires c in At(cf, run, j).conns && Stage(At(cf, run, j).conns[c]) == 1
    ensures var v := At(cf, run, j).conns[c];
            && i < j && v.peer.Some? && AdmittedAt(cf, run, i, c, v.peer.value)
            && v.upTimer == Some(At(cf, run, i).now + CONN_CONNECT_TIMEOUT)
    decreases j
  {
    hide At, Stage, Admits;
    StartEmpty(cf, run);
    i := j - 1;
    PeerStepOf(cf, run, i, c);
    if Stage(At(cf, run, i).conns[c]) == 1 {
      i := ConnectingFrom(cf, run, i, c);
    }
  }

  lemma {:induction false} ConnectedFrom(cf: Conf, run: seq<Move>, j: nat, c: nat) returns (i: nat)
    requires Legal(InitControl(cf), run) && j <= |run|
    requires c in At(cf, run, j).conns && Stage(At(cf, run, j).conns[c]) == 2
    ensures var v := At(cf, run, j).conns[c];
            && i < j && run[i].sig == PeerConnected(c, true)
            && c in At(cf, run, i).conns && v.peer == At(cf, run, i).conns[c].peer
            && v.peer.Some? && v.peer.value < |cf.upTimeouts|
            && v.upTimer == Some(At(cf, run, i).now + cf.upTimeouts[v.peer.value] as real)
    decreases j
  {
    hide At, Stage;
    StartEmpty(cf, run);
    i := j - 1;
    PeerStepOf(cf, run, i, c);
    if Stage(At(cf, run, i).conns[c]) == 2 {
      i := ConnectedFrom(cf, run, i, c);
    }
  }

  /** A connection that is being connected was given that server by one move, and has
      CONN_CONNECT_TIMEOUT from that moment on. */
  lemma ConnectingSince(cf: Conf, run: seq<Move>, j: nat, c: nat) returns (i: nat)
    requires Legal(InitControl(cf), run) && j <= |run|
    requires c in At(cf, run, j).conns && At(cf, run, j).conns[c].upc == CONN_CONNECT
    ensures var v := At(cf, run, j).conns[c];
            && i < j && v.peer.Some? && AdmittedAt(cf, run, i, c, v.peer.value)
            && v.upTimer == Some(At(cf, run, i).now + CONN_CONNECT_TIMEOUT)
  {
    hide At, Inv, Stage, AdmittedAt;
    Moment(cf, run, j);
    StageOpen(At(cf, run, j), c);
    i := ConnectingFrom(cf, run, j, c);
  }

  /** A connected server was connected by one move, and has the timeout configured for it, counted from
      that moment on: bytes in either direction do not move it. */
  lemma ConnectedSince(cf: Conf, run: seq<Move>, j: nat, c: nat) returns (i: nat)
    requires Legal(InitControl(cf), run) && j <= |run|
    requires c in At(cf, run, j).conns && At(cf, run, j).conns[c].upc == CONN_WORKING
    ensures var v := At(cf, run, j).conns[c];
            && i < j && run[i].sig == PeerConnected(c, true)
            && c in At(cf, run, i).conns && v.peer == At(cf, run, i).conns[c].peer
            && v.peer.Some? && v.peer.value < |cf.upTimeouts|
            && v.upTimer == Some(At(cf, run, i).now + cf.upTimeouts[v.peer.value] as real)
  {
    hide At, Inv, Stage;
    Moment(cf, run, j);
    StageOpen(At(cf, run, j), c);
    i := ConnectedFrom(cf, run, j, c);
  }

  lemma {:induction false} StageFrom(cf: Conf, run: seq<Move>, i: nat, j: nat, c: nat)
    requires Legal(InitControl(cf), run) && i <= j <= |run| && c in At(cf, run, i).conns
    ensures var k, k' := At(cf, run, i), At(cf, run, j);
            && c < k'.accepted
            && (c in k'.conns ==>
                  var v, v' := k.conns[c], k'.conns[c];
                  && Stage(v) <= Stage(v')
                  && (Stage(v) == Stage(v') && (Stage(v) == 1 || Stage(v) == 2) ==>
                        v'.upTimer == v.upTimer && v'.peer == v.peer))
    decreases j
  {
    hide At, Stage, Inv, LiveStep, Admits;
    if i == j {
      Moment(cf, run, i);
      AcceptedBefore(At(cf, run, i), c);
    } else {
      var l := j - 1;
      StageFrom(cf, run, i, l, c);
      StepOf(cf, run, l, c);
      if c in At(cf, run, j).conns {
        PeerStepOf(cf, run, l, c);
      }
    }
  }

  /** Traffic never moves the deadline of the server side: at any two moments of a run at which that side
      is in the same open state, its deadline and its server are the same. */
  lemma PeerDeadlineIsFixed(cf: Conf, run: seq<Move>, i: nat, j: nat, c: nat)
    requires Legal(InitControl(cf), run) && i <= j <= |run|
    requires c in At(cf, run, i).conns && c in At(cf, run, j).conns
    requires At(cf, run, i).conns[c].upc == At(cf, run, j).conns[c].upc && Open(At(cf, run, i).conns[c].upc)
    ensures var v, v' := At(cf, run, i).conns[c], At(cf, run, j).conns[c];
            v'.upTimer == v.upTimer && v'.peer == v.peer
  {
    Moment(cf, run, i);
    Moment(cf, run, j);
    StageOpen(At(cf, run, i), c);
    StageOpen(At(cf, run, j), c);
    StageFrom(cf, run, i, j, c);
  }

  /** The upstream timer fires when the time of the state that the server side is in has passed, neither
      before nor after. */
  lemma CutOffWhen(cf: Conf, run: seq<Move>, j: nat, c: nat) returns (i: nat)
    requires Legal(InitControl(cf), run) && j < |run| && run[j].sig == PeerTimer(c)
    ensures c in At(cf, run, j).conns
    ensures var v := At(cf, run, j).conns[c];
            && i < j && v.peer.Some? && v.peer.value < |cf.upTimeouts|
            && if v.upc == CONN_CONNECT
               then AdmittedAt(cf, run, i, c, v.peer.value)
                    && At(cf, run, j).now == At(cf, run, i).now + CONN_CONNECT_TIMEOUT
               else run[i].sig == PeerConnected(c, true)
                    && At(cf, run, j).now == At(cf, run, i).now + cf.upTimeouts[v.peer.value] as real
  {
    Moment(cf, run, j);
    var k := At(cf, run, j);
    TimerAtDeadline(k, c);
    StageOpen(k, c);
    PeerOpen(k, c);
    if k.conns[c].upc == CONN_CONNECT {
      i := ConnectingSince(cf, run, j, c);
    } else {
      i := ConnectedSince(cf, run, j, c);
    }
  }

  // ---------- the senders ----------

  /** Nothing left to send to a client whose server may send more: its sender is stopped, and that is
      all that happens. */
  lemma DrySenderStops(k: Control, c: nat, outs: seq<ConnectOutcome>)
    requires Enabled(k, ClientWritable(c, SendDry)) && k.conns[c].upc != CONN_CLOSE
    ensures var k' := React(k, ClientWritable(c, SendDry), outs);
            && c in k'.conns && !k'.conns[c].eSend && k.conns[c] == k'.conns[c].(eSend := true)
            && k'.conns == k.conns[c := k'.conns[c]] && k' == k.(conns := k'.conns)
  {
  }

  /** A move gives the client something to be told: a refusal on its behalf, bytes of its server, or the
      end of its upstream side. */
  ghost predicate RaisesNow(k: Control, m: Move, c: nat)
    requires Enabled(k, m.sig)
  {
    || (Tries(SchedulerCall(k, m.sig), c) && Refusals(m.outs) > 0)
    || (m.sig.PeerReadable? && m.sig.c == c) || m.sig == PeerConnected(c, false)
    || m.sig == PeerWritable(c, SendError) || m.sig == PeerTimer(c)
  }

  ghost predicate Raises(cf: Conf, run: seq<Move>, i: nat, c: nat)
    requires Legal(InitControl(cf), run) && i < |run|
  {
    Enabled(At(cf, run, i), run[i].sig) && RaisesNow(At(cf, run, i), run[i], c)
  }

  /** Among the moves that concern the client's sender, the last one has started it. */
  ghost predicate Raised(cf: Conf, run: seq<Move>, j: nat, c: nat)
    requires Legal(InitControl(cf), run) && j <= |run|
    decreases j
  {
    j > 0 && (Raises(cf, run, j - 1, c)
              || (Raised(cf, run, j - 1, c) && run[j - 1].sig != ClientWritable(c, SendDry)))
  }

  predicate SenderKeeps(m: Move, c: nat, v: Conn, v': Conn, raises: bool) {
    v'.status != CONN_CLOSE ==>
      v.status != CONN_CLOSE && v'.eSend == (raises || (v.eSend && m.sig != ClientWritable(c, SendDry)))
  }

  lemma RaisesLive(k: Control, m: Move, c: nat)
    requires Enabled(k, m.sig) && RaisesNow(k, m, c)
    ensures c in k.conns
  {
    if Tries(SchedulerCall(k, m.sig), c) {
      TriesLive(k, m.sig, c);
    }
  }

  lemma OtherSender(k: Control, m: Move, c: nat, v: Conn, v': Conn)
    requires Enabled(k, m.sig) && LiveStep(k, m, c, v, v') && !Concerns(m.sig, c)
    ensures SenderKeeps(m, c, v, v', RaisesNow(k, m, c))
  {
    hide OwnMove, ConnOk, Reacts, SchedulerCall;
  }

  lemma OwnSender(k: Control, m: Move, c: nat, v: Conn, v': Conn)
    requires Enabled(k, m.sig) && LiveStep(k, m, c, v, v') && Concerns(m.sig, c)
    ensures SenderKeeps(m, c, v, v', RaisesNow(k, m, c))
  {
    hide Reacts;
    match m.sig
    case ClientReadable(_, _) =>
    case ClientWritable(_, _) =>
    case PeerConnected(_, _) =>
    case PeerReadable(_, _) =>
    case PeerWritable(_, _) =>
    case PeerTimer(_) =>
    case AccessTimer(_) =>
  }

  lemma SenderStep(k: Control, m: Move, c: nat, v: Conn, v': Conn)
    requires Enabled(k, m.sig) && LiveStep(k, m, c, v, v')
    ensures SenderKeeps(m, c, v, v', RaisesNow(k, m, c))
  {
    hide LiveStep, SenderKeeps, RaisesNow;
    if Concerns(m.sig, c) {
      OwnSender(k, m, c, v, v');
    } else {
      OtherSender(k, m, c, v, v');
    }
  }

  /** The sender of a client that is not closed is on exactly if something was to be told after it last
      ran dry; so a client without an upstream side never has it on. */
  lemma {:induction false} SenderOnIff(cf: Conf, run: seq<Move>, j: nat, c: nat)
    requires Legal(InitControl(cf), run) && j <= |run|
    ensures var k := At(cf, run, j);
            && (c in k.conns && k.conns[c].status != CONN_CLOSE ==> k.conns[c].eSend == Raised(cf, run, j, c))
            && (c in k.conns && (k.conns[c].status == CONN_CLOSE || k.conns[c].upc == CONN_NONE) ==> !k.conns[c].eSend)
            && (c >= k.accepted ==> !Raised(cf, run, j, c))
    decreases j
  {
    hide LiveStep, At, RaisesNow;
    StartEmpty(cf, run);
    QuietWithoutPeer(cf, run, j, c);
    if j > 0 {
      var i := j - 1;
      var k, m := At(cf, run, i), run[i];
      SenderOnIff(cf, run, i, c);
      StepOf(cf, run, i, c);
      if Raises(cf, run, i, c) {
        RaisesLive(k, m, c);
      }
      if c in k.conns && c in At(cf, run, j).conns {
        SenderStep(k, m, c, k.conns[c], At(cf, run, j).conns[c]);
      }
    }
  }

  lemma QuietWithoutPeer(cf: Conf, run: seq<Move>, j: nat, c: nat)
    requires Legal(InitControl(cf), run) && j <= |run|
    ensures var k := At(cf, run, j);
            c in k.conns && (k.conns[c].status == CONN_CLOSE || k.conns[c].upc == CONN_NONE) ==> !k.conns[c].eSend
  {
    Moment(cf, run, j);
    WaitingUntouched(cf, run, j, c);
    var k := At(cf, run, j);
    if c in k.conns {
      assert ConnOk(k.cf, k.now, k.conns[c]) && SettledConn(k.conns[c]);
    }
  }

  /** Among the moves that concern the sender towards the server, the last one has started it. */
  ghost predicate PeerRaised(run: seq<Move>, j: nat, c: nat)
    requires j <= |run|
    decreases j
  {
    j > 0 && (run[j - 1].sig == PeerConnected(c, true) || run[j - 1].sig == ClientReadable(c, true)
              || (PeerRaised(run, j - 1, c) && !(run[j - 1].sig.PeerWritable? && run[j - 1].sig.c == c)))
  }

  lemma PeerSenderStep(k: Control, m: Move, c: nat, v: Conn, v': Conn)
    requires Enabled(k, m.sig) && LiveStep(k, m, c, v, v')
    ensures v'.upc == CONN_WORKING && m.sig != PeerConnected(c, true) ==>
              && v.upc == CONN_WORKING
              && v'.upSend == (m.sig == ClientReadable(c, true)
                               || (v.upSend && !(m.sig.PeerWritable? && m.sig.c == c)))
    ensures m.sig == PeerConnected(c, true) ==> v'.upc == CONN_WORKING && v'.upSend
  {
  }

  /** The sender towards a connected server is on exactly if the server was connected, or the client has
      sent something, after that sender last ran. */
  lemma {:induction false} PeerSenderOnIff(cf: Conf, run: seq<Move>, j: nat, c: nat)
    requires Legal(InitControl(cf), run) && j <= |run|
    ensures var k := At(cf, run, j);
            c in k.conns && k.conns[c].upc == CONN_WORKING ==> k.conns[c].upSend == PeerRaised(run, j, c)
    decreases j
  {
    if j > 0 {
      var i := j - 1;
      var k, m := At(cf, run, i), run[i];
      PeerSenderOnIff(cf, run, i, c);
      StepOf(cf, run, i, c);
      hide LiveStep, At, Inv;
      if c in k.conns && c in At(cf, run, j).conns {
        PeerSenderStep(k, m, c, k.conns[c], At(cf, run, j).conns[c]);
      }
    }
  }
}
