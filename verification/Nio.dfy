/** The socket loops x_recvn and x_sendn (src/xtp_nio.c) against a kernel whose answers are given
    by a script.  An exhausted script answers EAGAIN, so every call that returns is described by
    some script. */
module Nio {
  import opened Common

  /** One answer to recv(): bytes that have arrived (none: the peer has closed), or an error. */
  datatype RecvEvent = Arrived(bytes: seq<Byte>) | RecvInterrupted | RecvWouldBlock | RecvFailed

  /** One answer to send(): how many bytes the kernel is willing to take, or an error. */
  datatype SendEvent = Takes(count: nat) | SendInterrupted | SendWouldBlock | SendFailed

  datatype Errno = NoError | EINTR | EAGAIN | OtherError

  /** The bytes that a script delivers, in order. */
  function Stream(ev: seq<RecvEvent>): seq<Byte> {
    if ev == [] then []
    else (if ev[0].Arrived? then ev[0].bytes else []) + Stream(ev[1..])
  }

  // ---------- what the loops do ----------

  /** code is 0, -1 (error) or -2 (closed); `bytes` have been taken from the stream in any case. */
  datatype RecvResult = RecvResult(code: int, bytes: seq<Byte>, rest: seq<RecvEvent>) {
    /** The value returned to the caller. */
    function Ret(): int {
      if code < 0 then code else |bytes|
    }
  }

  /** x_recvn with room for n bytes */
  function Received(ev: seq<RecvEvent>, n: nat): RecvResult
    decreases |ev|
  {
    if n == 0 || ev == [] then RecvResult(0, [], ev)
    else
      match ev[0]
      case RecvInterrupted => Received(ev[1..], n)
      case RecvWouldBlock => RecvResult(0, [], ev[1..])
      case RecvFailed => RecvResult(-1, [], ev[1..])
      case Arrived(bs) =>
        if bs == [] then RecvResult(-2, [], ev[1..])
        else if |bs| > n then RecvResult(0, bs[..n], [Arrived(bs[n..])] + ev[1..])
        else var r := Received(ev[1..], n - |bs|); r.(bytes := bs + r.bytes)
  }

  datatype SendResult = SendResult(code: int, moved: nat, rest: seq<SendEvent>) {
    function Ret(): int {
      if code < 0 then code else moved
    }
  }

  /** x_sendn with n bytes to send */
  function Sent(ev: seq<SendEvent>, n: nat): SendResult
    decreases |ev|
  {
    if n == 0 || ev == [] then SendResult(0, 0, ev)
    else
      match ev[0]
      case SendInterrupted => Sent(ev[1..], n)
      case SendWouldBlock => SendResult(0, 0, ev[1..])
      case SendFailed => SendResult(-1, 0, ev[1..])
      case Takes(k) =>
        if k == 0 then SendResult(-2, 0, ev[1..])
        else if k >= n then SendResult(0, n, ev[1..])
        else var r := Sent(ev[1..], n - k); r.(moved := k + r.moved)
  }

  /** One answer of the kernel to recv() with room for n > 0 bytes, and the script after it. */
  datatype Answer = Answer(nRet: int, errno: Errno, bytes: seq<Byte>, rest: seq<RecvEvent>)

  function KernelRecv(ev: seq<RecvEvent>, n: nat): Answer {
    if ev == [] then Answer(-1, EAGAIN, [], [])
    else
      match ev[0]
      case RecvInterrupted => Answer(-1, EINTR, [], ev[1..])
      case RecvWouldBlock => Answer(-1, EAGAIN, [], ev[1..])
      case RecvFailed => Answer(-1, OtherError, [], ev[1..])
      case Arrived(bs) =>
        if |bs| > n then Answer(n, NoError, bs[..n], [Arrived(bs[n..])] + ev[1..])
        else Answer(|bs|, NoError, bs, ev[1..])
  }

  /** One pass through the loop of x_recvn. */
  lemma ReceivedPass(ev: seq<RecvEvent>, n: nat)
    requires n > 0
    ensures var a := KernelRecv(ev, n);
            && |a.bytes| <= n && (a.nRet >= 0 ==> a.nRet == |a.bytes|) && (a.nRet < 0 ==> a.bytes == [])
            && (a.nRet < 0 && a.errno == EINTR ==> |a.rest| < |ev|)
            && Received(ev, n)
               == if a.nRet < 0 && a.errno == EINTR then Received(a.rest, n)
                  else if a.nRet < 0 && a.errno == EAGAIN then RecvResult(0, [], a.rest)
                  else if a.nRet < 0 then RecvResult(-1, [], a.rest)
                  else if a.nRet == 0 then RecvResult(-2, [], a.rest)
                  else var q := Received(a.rest, n - a.nRet); q.(bytes := a.bytes + q.bytes)
  {
    if ev != [] && ev[0].Arrived? && |ev[0].bytes| >= n {
      var r := Received(KernelRecv(ev, n).rest, 0);
      assert ev[0].bytes[..n] + r.bytes == ev[0].bytes[..n];
    }
  }

  /** One answer of the kernel to send() with n > 0 bytes, and the script after it. */
  predicate KernelSent(ev: seq<SendEvent>, n: nat, nRet: int, errno: Errno, rest: seq<SendEvent>) {
    if ev == [] then nRet == -1 && errno == EAGAIN && rest == []
    else
      && rest == ev[1..]
      && match ev[0]
         case SendInterrupted => nRet == -1 && errno == EINTR
         case SendWouldBlock => nRet == -1 && errno == EAGAIN
         case SendFailed => nRet == -1 && errno == OtherError
         case Takes(k) => nRet == (if k > n then n else k) && errno == NoError
  }

  /** One pass through the loop of x_sendn. */
  lemma SentPass(ev: seq<SendEvent>, n: nat, nRet: int, errno: Errno, rest: seq<SendEvent>)
    requires n > 0 && KernelSent(ev, n, nRet, errno, rest)
    ensures nRet <= n && (nRet < 0 && errno == EINTR ==> |rest| < |ev|)
    ensures Sent(ev, n)
         == if nRet < 0 && errno == EINTR then Sent(rest, n)
            else if nRet < 0 && errno == EAGAIN then SendResult(0, 0, rest)
            else if nRet < 0 then SendResult(-1, 0, rest)
            else if nRet == 0 then SendResult(-2, 0, rest)
            else var q := Sent(rest, n - nRet); q.(moved := nRet + q.moved)
  {
    if ev != [] && ev[0].Takes? && ev[0].count >= n {
      assert Sent(rest, 0) == SendResult(0, 0, rest);
    }
  }

  /** A pass that moved bytes, seen by the passes before it. */
  lemma Onward(r: RecvResult, q: RecvResult, moved: seq<Byte>, got: seq<Byte>, next: RecvResult)
    requires r.code == q.code && r.rest == q.rest && r.bytes == moved + q.bytes
    requires q == next.(bytes := got + next.bytes)
    ensures r.code == next.code && r.rest == next.rest && r.bytes == (moved + got) + next.bytes
  {
  }

  lemma {:induction false} ReceivedFits(ev: seq<RecvEvent>, n: nat)
    ensures |Received(ev, n).bytes| <= n
    decreases |ev|
  {
    if n > 0 && ev != [] {
      match ev[0]
      case RecvInterrupted => ReceivedFits(ev[1..], n);
      case RecvWouldBlock =>
      case RecvFailed =>
      case Arrived(bs) =>
        if |bs| <= n {
          ReceivedFits(ev[1..], n - |bs|);
        }
    }
  }

  /** A result k >= 0 means that exactly the next k bytes of the stream have been moved, in order; a
      negative one means that some bytes short of the request may have been moved without being
      reported. */
  lemma {:induction false} ReceivedContract(ev: seq<RecvEvent>, n: nat)
    ensures var r := Received(ev, n);
            && Stream(ev) == r.bytes + Stream(r.rest)
            && |r.bytes| <= n
            && (r.Ret() >= 0 ==> r.Ret() == |r.bytes|)
            && (r.Ret() < 0 ==> |r.bytes| < n && r.Ret() in {-1, -2})
    decreases |ev|
  {
    if n > 0 && ev != [] {
      match ev[0]
      case RecvInterrupted => ReceivedContract(ev[1..], n);
      case RecvWouldBlock =>
      case RecvFailed =>
      case Arrived(bs) =>
        if 0 < |bs| <= n {
          ReceivedContract(ev[1..], n - |bs|);
          var r := Received(ev[1..], n - |bs|);
          assert bs + (r.bytes + Stream(r.rest)) == (bs + r.bytes) + Stream(r.rest);
        } else if bs != [] {
          var rest := [Arrived(bs[n..])] + ev[1..];
          assert rest[1..] == ev[1..] && bs == bs[..n] + bs[n..];
          assert Stream(rest) == bs[n..] + Stream(ev[1..]);
        }
    }
  }

  lemma {:induction false} SentFits(ev: seq<SendEvent>, n: nat)
    ensures var r := Sent(ev, n);
            && r.moved <= n
            && (r.Ret() >= 0 ==> r.Ret() == r.moved)
            && (r.Ret() < 0 ==> r.moved < n && r.Ret() in {-1, -2})
    decreases |ev|
  {
    if n > 0 && ev != [] {
      match ev[0]
      case SendInterrupted => SentFits(ev[1..], n);
      case SendWouldBlock =>
      case SendFailed =>
      case Takes(k) =>
        if 0 < k < n {
          SentFits(ev[1..], n - k);
        }
    }
  }

  /** An answer after which the receive loop asks again. */
  predicate AsksAgain(e: RecvEvent) {
    e.RecvInterrupted? || (e.Arrived? && e.bytes != [])
  }

  /** A call that ends before its room is full has used the first m answers, and the last of them tells
      why it ended. */
  ghost predicate Explains(ev: seq<RecvEvent>, r: RecvResult, m: nat) {
    && m <= |ev| && r.rest == ev[m..]
    && (forall i :: 0 <= i < m - 1 ==> AsksAgain(ev[i]))
    && (r.code == -1 <==> m > 0 && ev[m - 1] == RecvFailed)
    && (r.code == -2 <==> m > 0 && ev[m - 1] == Arrived([]))
    && (r.code == 0 ==> m == |ev| || (m > 0 && ev[m - 1] == RecvWouldBlock))
    && (r.code == 0 || r.code == -1 || r.code == -2)
  }

  lemma ExplainsMore(ev: seq<RecvEvent>, q: RecvResult, r: RecvResult, m: nat)
    requires ev != [] && AsksAgain(ev[0]) && Explains(ev[1..], q, m) && r.code == q.code && r.rest == q.rest
    ensures Explains(ev, r, m + 1)
  {
    assert ev[m + 1..] == ev[1..][m..];
    assert forall i :: 0 <= i < |ev| - 1 ==> ev[1..][i] == ev[i + 1];
  }

  lemma ReceivedLast(ev: seq<RecvEvent>, n: nat)
    requires n > 0 && ev != [] && !AsksAgain(ev[0])
    ensures Explains(ev, Received(ev, n), 1) && Received(ev, n).bytes == []
  {
  }

  /** Why a call of x_recvn ends: its room is full, or the answers say so. */
  lemma {:induction false} ReceivedEnds(ev: seq<RecvEvent>, n: nat)
    ensures var r := Received(ev, n);
            if |r.bytes| == n then r.code == 0 else |r.rest| <= |ev| && Explains(ev, r, |ev| - |r.rest|)
    decreases |ev|
  {
    hide Explains;
    ReceivedFits(ev, n);
    if n > 0 && ev != [] {
      if !AsksAgain(ev[0]) {
        ReceivedLast(ev, n);
      } else if ev[0].RecvInterrupted? {
        ReceivedEnds(ev[1..], n);
        ReceivedAfter(ev, n, 0);
      } else if |ev[0].bytes| <= n {
        ReceivedEnds(ev[1..], n - |ev[0].bytes|);
        ReceivedAfter(ev, n, |ev[0].bytes|);
      }
    } else {
      ReceivedNone(ev, n);
    }
  }

  lemma ReceivedNone(ev: seq<RecvEvent>, n: nat)
    requires n == 0 || ev == []
    ensures Received(ev, n) == RecvResult(0, [], ev) && (n > 0 ==> Explains(ev, Received(ev, n), 0))
  {
  }

  lemma ReceivedAfter(ev: seq<RecvEvent>, n: nat, k: nat)
    requires ev != [] && AsksAgain(ev[0]) && k == (if ev[0].Arrived? then |ev[0].bytes| else 0) && k <= n && n > 0
    requires var q := Received(ev[1..], n - k);
             if |q.bytes| == n - k then q.code == 0
             else |q.rest| <= |ev[1..]| && Explains(ev[1..], q, |ev[1..]| - |q.rest|)
    ensures var r := Received(ev, n);
            if |r.bytes| == n then r.code == 0 else |r.rest| <= |ev| && Explains(ev, r, |ev| - |r.rest|)
  {
    var q, r := Received(ev[1..], n - k), Received(ev, n);
    assert r.code == q.code && r.rest == q.rest && |r.bytes| == k + |q.bytes|;
    if |q.bytes| != n - k {
      hide Received;
      ExplainsMore(ev, q, r, |ev[1..]| - |q.rest|);
    }
  }

  predicate Fails(e: RecvEvent) {
    e == RecvFailed || e == Arrived([])
  }

  /** Answer m - 1 fails after some bytes have come that leave room for more. */
  ghost predicate FailsAfterBytes(ev: seq<RecvEvent>, n: nat, m: nat) {
    && 0 < m <= |ev| && Fails(ev[m - 1]) && (forall i :: 0 <= i < m - 1 ==> AsksAgain(ev[i]))
    && 0 < |Stream(ev[..m])| < n
  }

  lemma {:induction false} StreamConcat(a: seq<RecvEvent>, b: seq<RecvEvent>)
    ensures Stream(a + b) == Stream(a) + Stream(b)
  {
    if a == [] {
      assert a + b == b;
    } else {
      assert (a + b)[0] == a[0] && (a + b)[1..] == a[1..] + b;
      StreamConcat(a[1..], b);
      ConcatAssoc(if a[0].Arrived? then a[0].bytes else [], Stream(a[1..]), Stream(b));
    }
  }

  /** A failing call has used exactly the answers up to the failure. */
  lemma {:induction false} FailureFound(ev: seq<RecvEvent>, n: nat, m: nat)
    requires 0 < m <= |ev| && Fails(ev[m - 1]) && forall i :: 0 <= i < m - 1 ==> AsksAgain(ev[i])
    requires |Stream(ev[..m])| < n
    ensures Received(ev, n).code < 0 && Received(ev, n).bytes == Stream(ev[..m])
    decreases m
  {
    var u := ev[..m];
    assert u[0] == ev[0] && u[1..] == ev[1..][..m - 1];
    if m > 1 {
      assert ev[1..][m - 2] == ev[m - 1];
      assert forall i :: 0 <= i < m - 2 ==> ev[1..][i] == ev[i + 1];
      FailureFound(ev[1..], n - (if ev[0].Arrived? then |ev[0].bytes| else 0), m - 1);
    }
  }

  /** x_recvn takes bytes without reporting them exactly if the answer that fails or closes comes in the
      same call as they. */
  lemma UnreportedIff(ev: seq<RecvEvent>, n: nat)
    ensures var r := Received(ev, n);
            r.Ret() < 0 && r.bytes != [] <==> exists m :: FailsAfterBytes(ev, n, m)
  {
    var r := Received(ev, n);
    ReceivedContract(ev, n);
    if r.Ret() < 0 && r.bytes != [] {
      ReceivedEnds(ev, n);
      var m := |ev| - |r.rest|;
      assert ev == ev[..m] + ev[m..];
      StreamConcat(ev[..m], ev[m..]);
      assert FailsAfterBytes(ev, n, m);
    } else if exists m :: FailsAfterBytes(ev, n, m) {
      var m :| FailsAfterBytes(ev, n, m);
      FailureFound(ev, n, m);
    }
  }

  /** What a call that has not failed leaves of a script: the answers from number p on, perhaps after the
      rest of the answer before. */
  ghost predicate LeavesAt(ev: seq<RecvEvent>, rest: seq<RecvEvent>, p: nat) {
    && p <= |ev| && (p > 0 ==> !Fails(ev[p - 1]))
    && (rest == ev[p..]
        || (p > 0 && rest != [] && rest[0].Arrived? && rest[0].bytes != [] && rest[1..] == ev[p..]))
  }

  lemma {:induction false} ReceivedLeaves(ev: seq<RecvEvent>, n: nat) returns (p: nat)
    requires Received(ev, n).code >= 0
    ensures LeavesAt(ev, Received(ev, n).rest, p)
    decreases |ev|
  {
    p := 0;
    if n > 0 && ev != [] {
      p := 1;
      match ev[0]
      case RecvInterrupted =>
        p := ReceivedLeaves(ev[1..], n);
        p := LeavesLater(ev, Received(ev, n).rest, p);
      case RecvWouldBlock =>
      case RecvFailed =>
      case Arrived(bs) =>
        if 0 < |bs| <= n {
          p := ReceivedLeaves(ev[1..], n - |bs|);
          p := LeavesLater(ev, Received(ev, n).rest, p);
        }
    }
  }

  lemma LeavesLater(ev: seq<RecvEvent>, rest: seq<RecvEvent>, p: nat) returns (q: nat)
    requires ev != [] && !Fails(ev[0]) && LeavesAt(ev[1..], rest, p)
    ensures LeavesAt(ev, rest, q)
  {
    q := p + 1;
    assert ev[q..] == ev[1..][p..];
  }

  /** The script `rest` is what is left of ev after m answers. */
  ghost predicate LeftAfter<T>(ev: seq<T>, rest: seq<T>, m: int) {
    0 <= m && m + |rest| == |ev| && forall i :: 0 <= i < |rest| ==> rest[i] == ev[m + i]
  }

  /** Why a receive loop over several calls has ended: an answer has failed or closed the stream, or else
      there was nothing more to read. */
  ghost predicate StoppedBy(ev: seq<RecvEvent>, rest: seq<RecvEvent>, ok: bool) {
    var m := |ev| - |rest|;
    && LeftAfter(ev, rest, m)
    && (!ok <==> m > 0 && Fails(ev[m - 1]))
    && (ok ==> rest == [] || (m > 0 && ev[m - 1] == RecvWouldBlock))
  }

  lemma StoppedLaterWhole(ev: seq<RecvEvent>, e: seq<RecvEvent>, rest: seq<RecvEvent>, ok: bool, p: nat)
    requires p <= |ev| && (p > 0 ==> !Fails(ev[p - 1])) && e == ev[p..] && StoppedBy(e, rest, ok)
    ensures StoppedBy(ev, rest, ok)
  {
    var m := |e| - |rest|;
    assert m > 0 ==> e[m - 1] == ev[p + m - 1];
  }

  lemma StoppedLaterCut(ev: seq<RecvEvent>, e: seq<RecvEvent>, rest: seq<RecvEvent>, ok: bool, p: nat)
    requires 0 < p <= |ev| && !Fails(ev[p - 1]) && StoppedBy(e, rest, ok)
    requires e != [] && e[0].Arrived? && e[0].bytes != [] && e[1..] == ev[p..]
    ensures StoppedBy(ev, rest, ok)
  {
    var m := |e| - |rest|;
    assert m > 0;
    assert forall i :: 0 < i < |e| ==> e[i] == ev[p..][i - 1];
  }

  lemma StoppedLater(ev: seq<RecvEvent>, e: seq<RecvEvent>, rest: seq<RecvEvent>, ok: bool, p: nat)
    requires LeavesAt(ev, e, p) && StoppedBy(e, rest, ok)
    ensures StoppedBy(ev, rest, ok)
  {
    hide StoppedBy;
    if e == ev[p..] {
      StoppedLaterWhole(ev, e, rest, ok, p);
    } else {
      StoppedLaterCut(ev, e, rest, ok, p);
    }
  }

  lemma StoppedHere(ev: seq<RecvEvent>, n: nat)
    requires n > 0
    requires var r := Received(ev, n); r.code < 0 || r.bytes == []
    ensures StoppedBy(ev, Received(ev, n).rest, Received(ev, n).code >= 0)
  {
    ReceivedEnds(ev, n);
  }

  /** The number of bytes that a script is ready to take. */
  function Offered(ev: seq<SendEvent>): nat {
    if ev == [] then 0 else (if ev[0].Takes? then ev[0].count else 0) + Offered(ev[1..])
  }

  /** An answer after which the loop asks again. */
  predicate Continues(e: SendEvent) {
    e.SendInterrupted? || (e.Takes? && e.count > 0)
  }

  /** What r says about the first m answers, which are those that the call has used. */
  ghost predicate Accounts(ev: seq<SendEvent>, n: nat, r: SendResult, m: nat) {
    && m <= |ev| && r.rest == ev[m..]
    && r.moved == (if Offered(ev[..m]) < n then Offered(ev[..m]) else n)
    && (forall i :: 0 <= i < m - 1 ==> Continues(ev[i]))
    && (r.Ret() == -1 <==> m > 0 && ev[m - 1] == SendFailed)
    && (r.Ret() == -2 <==> m > 0 && ev[m - 1] == Takes(0))
    && (r.Ret() < 0 ==> r.moved < n && r.Ret() in {-1, -2})
    && (r.Ret() >= 0 ==>
          r.Ret() == r.moved && (r.moved < n ==> m == |ev| || (m > 0 && ev[m - 1] == SendWouldBlock)))
  }

  /** One more answer in front that lets the loop go on. */
  lemma AccountsMore(ev: seq<SendEvent>, n: nat, q: SendResult, m: nat)
    requires ev != [] && Continues(ev[0])
    requires var k := if ev[0].Takes? then ev[0].count else 0; k < n && Accounts(ev[1..], n - k, q, m)
    ensures var k := if ev[0].Takes? then ev[0].count else 0; Accounts(ev, n, q.(moved := k + q.moved), m + 1)
  {
    assert ev[..m + 1][0] == ev[0] && ev[..m + 1][1..] == ev[1..][..m];
    assert ev[m + 1..] == ev[1..][m..];
    forall i | 0 <= i < m ensures Continues(ev[i]) {
      assert i > 0 ==> Continues(ev[1..][i - 1]);
    }
  }

  lemma SentNone(ev: seq<SendEvent>, n: nat)
    requires n == 0 || ev == []
    ensures Sent(ev, n).rest == ev && Accounts(ev, n, Sent(ev, n), 0)
  {
    assert ev[..0] == [] && ev[0..] == ev;
  }

  lemma SentLast(ev: seq<SendEvent>, n: nat)
    requires n > 0 && ev != [] && !(Continues(ev[0]) && (ev[0].Takes? ==> ev[0].count < n))
    ensures Sent(ev, n).rest == ev[1..] && Accounts(ev, n, Sent(ev, n), 1)
  {
    assert ev[..1][0] == ev[0] && ev[..1][1..] == [];
  }

  /** The call uses answers as long as they let it go on.  It moves as many bytes as these offer, up to n;
      -1 means that the last of them was an error, -2 that it took nothing, and a result short of n
      that it was EAGAIN or that there are no more. */
  lemma {:induction false} SentContract(ev: seq<SendEvent>, n: nat) returns (m: nat)
    ensures m == |ev| - |Sent(ev, n).rest|
    ensures Accounts(ev, n, Sent(ev, n), m)
    decreases |ev|
  {
    hide Accounts;
    if n == 0 || ev == [] {
      m := 0;
      SentNone(ev, n);
    } else if Continues(ev[0]) && (ev[0].Takes? ==> ev[0].count < n) {
      var k := if ev[0].Takes? then ev[0].count else 0;
      m := SentContract(ev[1..], n - k);
      AccountsMore(ev, n, Sent(ev[1..], n - k), m);
      m := m + 1;
    } else {
      m := 1;
      SentLast(ev, n);
    }
  }

  // ---------- the loops ----------

  /** The contents of an array after `bytes` have been stored at position `at`. */
  function Stored(was: seq<Byte>, at: nat, bytes: seq<Byte>): seq<Byte>
    requires at + |bytes| <= |was|
  {
    was[..at] + bytes + was[at + |bytes|..]
  }

  lemma StoredMore(was: seq<Byte>, at: nat, moved: seq<Byte>, got: seq<Byte>)
    requires at + |moved| + |got| <= |was|
    ensures Stored(Stored(was, at, moved), at + |moved|, got) == Stored(was, at, moved + got)
  {
  }

  lemma StoredNothing(was: seq<Byte>, at: nat)
    requires at <= |was|
    ensures Stored(was, at, []) == was
  {
  }

  lemma StoredAt(was: seq<Byte>, at: nat, bytes: seq<Byte>, now: seq<Byte>)
    requires at + |bytes| <= |was| && now == Stored(was, at, bytes)
    ensures now[at..at + |bytes|] == bytes
    ensures forall i :: 0 <= i < |was| && !(at <= i < at + |bytes|) ==> now[i] == was[i]
  {
  }

  /** A connected socket: the answers the kernel is going to give, and the bytes it has accepted. */
  class Socket {
    var incoming: seq<RecvEvent>
    var outgoing: seq<SendEvent>
    var wire: seq<Byte>

    constructor (incoming: seq<RecvEvent>, outgoing: seq<SendEvent>)
      ensures this.incoming == incoming && this.outgoing == outgoing && wire == []
    {
      this.incoming, this.outgoing, wire := incoming, outgoing, [];
    }

    /** recv() */
    method Recv(dst: array<Byte>, at: nat, n: nat) returns (nRet: int, errno: Errno, ghost got: seq<Byte>)
      requires 0 < n && at + n <= dst.Length
      modifies this`incoming, dst
      ensures |got| <= n
      ensures dst[..] == Stored(old(dst[..]), at, got)
      ensures Answer(nRet, errno, got, incoming) == KernelRecv(old(incoming), n)
    {
      nRet, errno, got := -1, EAGAIN, [];
      if incoming != [] {
        var answer := incoming[0];
        incoming := incoming[1..];
        match answer
        case RecvInterrupted => errno := EINTR;
        case RecvWouldBlock =>
        case RecvFailed => errno := OtherError;
        case Arrived(bs) =>
          var now := bs;
          if |bs| > n {
            now := bs[..n];
            incoming := [Arrived(bs[n..])] + incoming;
          }
          forall i | 0 <= i < |now| {
            dst[at + i] := now[i];
          }
          nRet, errno, got := |now|, NoError, now;
      }
    }

    /** send() */
    method Send(src: array<Byte>, at: nat, n: nat) returns (nRet: int, errno: Errno)
      requires 0 < n && at + n <= src.Length
      modifies this`outgoing, this`wire
      ensures wire == old(wire) + src[at..at + if nRet > 0 && nRet <= n then nRet else 0]
      ensures KernelSent(old(outgoing), n, nRet, errno, outgoing)
    {
      nRet, errno := -1, EAGAIN;
      if outgoing != [] {
        var answer := outgoing[0];
        outgoing := outgoing[1..];
        match answer
        case SendInterrupted => errno := EINTR;
        case SendWouldBlock =>
        case SendFailed => errno := OtherError;
        case Takes(k) =>
          nRet, errno := if k > n then n else k, NoError;
          wire := wire + src[at..at + nRet];
      }
    }
  }

  lemma ReceivedNothing(ev: seq<RecvEvent>)
    ensures Received(ev, 0) == RecvResult(0, [], ev)
  {
  }

  /** x_recvn */
  method RecvN(s: Socket, dst: array<Byte>, at: nat, len: nat) returns (ret: int)
    requires at + len <= dst.Length
    modifies s`incoming, dst
    ensures var r := Received(old(s.incoming), len);
            && ret == r.Ret()
            && s.incoming == r.rest
            && |r.bytes| <= len
            && dst[at..at + |r.bytes|] == r.bytes
            && (forall i :: 0 <= i < dst.Length && !(at <= i < at + |r.bytes|) ==> dst[i] == old(dst[i]))
  {
    hide Received, KernelRecv, Stored;
    ReceivedFits(s.incoming, len);
    ghost var was := dst[..];
    StoredNothing(was, at);
    var n, str := len, at;
    ghost var r := Received(s.incoming, len);
    ghost var q, moved := r, [];
    while n > 0
      invariant 0 <= n <= len && str == at + (len - n)
      invariant |moved| == len - n && dst[..] == Stored(was, at, moved)
      invariant q == Received(s.incoming, n)
      invariant r.code == q.code && r.rest == q.rest && r.bytes == moved + q.bytes
      decreases n, |s.incoming|
    {
      ReceivedPass(s.incoming, n);
      var nRet, errno, got := s.Recv(dst, str, n);
      StoredMore(was, at, moved, got);
      StoredAt(was, at, moved + got, dst[..]);
      assert got == [] ==> moved + got == moved;
      if nRet < 0 {
        if errno == EINTR {
          q := Received(s.incoming, n);
          continue;
        } else if errno == EAGAIN {
          break;
        } else {
          return -1;
        }
      } else if nRet == 0 {
        return -2;
      }
      ghost var next := Received(s.incoming, n - nRet);
      Onward(r, q, moved, got, next);
      q, moved := next, moved + got;
      n := n - nRet;
      str := str + nRet;
    }
    ReceivedNothing(s.incoming);
    StoredAt(was, at, moved, dst[..]);
    return len - n;
  }

  lemma SentNothing(ev: seq<SendEvent>)
    ensures Sent(ev, 0) == SendResult(0, 0, ev)
  {
  }

  /** x_sendn */
  method SendN(s: Socket, src: array<Byte>, at: nat, len: nat) returns (ret: int)
    requires at + len <= src.Length
    modifies s`outgoing, s`wire
    ensures var r := Sent(old(s.outgoing), len);
            && ret == r.Ret()
            && s.outgoing == r.rest
            && r.moved <= len
            && s.wire == old(s.wire) + src[at..at + r.moved]
  {
    hide Sent, KernelSent;
    SentFits(s.outgoing, len);
    var n, str := len, at;
    ghost var r := Sent(s.outgoing, len);
    while n > 0
      invariant 0 <= n <= len && str == at + (len - n)
      invariant s.wire == old(s.wire) + src[at..str]
      invariant var q := Sent(s.outgoing, n); r == q.(moved := (len - n) + q.moved)
      decreases n, |s.outgoing|
    {
      ghost var script := s.outgoing;
      var nRet, errno := s.Send(src, str, n);
      SentPass(script, n, nRet, errno, s.outgoing);
      if nRet < 0 {
        if errno == EINTR {
          continue;
        }
        if errno != EAGAIN {
          return -1;
        }
        break;
      } else if nRet == 0 {
        return -2;
      }
      assert src[at..str] + src[str..str + nRet] == src[at..str + nRet];
      n := n - nRet;
      str := str + nRet;
    }
    SentNothing(s.outgoing);
    return len - n;
  }
}
