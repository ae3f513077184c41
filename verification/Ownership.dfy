/** Who holds each buffer that was ever made. */
module Ownership {
  import opened Common
  import opened Admission
  import opened BufPool
  import opened Pipe
  import opened Proxy

  datatype Place = InPool | InUp(c: nat) | InDown(c: nat)

  /** The buffers at a place; a freed connection has none. */
  function Holding(d: Data, p: Place): seq<nat> {
    match p
    case InPool => d.pool.free
    case InUp(c) => Ids(FlowsOf(d, c).up.chain)
    case InDown(c) => Ids(FlowsOf(d, c).down.chain)
  }

  ghost predicate Held(d: Data, x: nat, p: Place) {
    x in Holding(d, p)
  }

  ghost predicate Somewhere(d: Data, x: nat) {
    exists p :: Held(d, x, p)
  }

  /** Every buffer ever made is at exactly one place, once, and no other buffer is anywhere. */
  ghost predicate Owned(d: Data) {
    && PoolOk(d.pool)
    && (forall p :: Distinct(Holding(d, p)))
    && (forall x: nat, p :: Held(d, x, p) ==> x < d.pool.made)
    && (forall x: nat, p, q :: Held(d, x, p) && Held(d, x, q) ==> p == q)
    && (forall x: nat :: x < d.pool.made ==> Somewhere(d, x))
  }

  lemma StartOwned(cf: Conf, cap: nat)
    requires cap > 0
    ensures Owned(Start(cf, cap).d)
  {
    var d := Start(cf, cap).d;
    assert d.pool.free == [0];
    assert Held(d, 0, InPool);
    assert Somewhere(d, 0);
  }

  lemma DistinctSplit(a: seq<nat>, b: seq<nat>)
    requires Distinct(a + b)
    ensures Distinct(a) && Distinct(b) && forall x :: x in a ==> x !in b
  {
    assert forall i :: 0 <= i < |a| ==> (a + b)[i] == a[i];
    assert forall i :: 0 <= i < |b| ==> (a + b)[|a| + i] == b[i];
  }

  /** Only place p and the pool differ, and between them buffers have changed hands. */
  ghost predicate Swapped(d: Data, d': Data, p: Place) {
    && p != InPool
    && (forall q :: q != InPool && q != p ==> Holding(d', q) == Holding(d, q))
    && Exchange(Holding(d, p) + d.pool.free, d.pool.made, Holding(d', p) + d'.pool.free, d'.pool.made)
    && PoolOk(d'.pool)
  }

  lemma SwapDistinct(d: Data, d': Data, p: Place)
    requires Owned(d) && Swapped(d, d', p)
    ensures Distinct(Holding(d', p) + d'.pool.free)
    ensures forall x: nat :: x in Holding(d', p) + d'.pool.free
              <==> Held(d, x, p) || Held(d, x, InPool) || d.pool.made <= x < d'.pool.made
  {
    var a := Holding(d, p) + d.pool.free;
    assert Distinct(Holding(d, p)) && Distinct(Holding(d, InPool));
    DistinctConcat(Holding(d, p), d.pool.free) by {
      forall x | x in Holding(d, p) ensures x !in d.pool.free {
        assert Held(d, x, p) && !Held(d, x, InPool);
      }
    }
    forall x | x in a ensures x < d.pool.made {
      assert Held(d, x, p) || Held(d, x, InPool);
    }
  }

  lemma SwapOwned(d: Data, d': Data, p: Place)
    requires Owned(d) && Swapped(d, d', p)
    ensures Owned(d')
  {
    SwapDistinct(d, d', p);
    DistinctSplit(Holding(d', p), d'.pool.free);
    forall x: nat, q | Held(d', x, q) ensures x < d'.pool.made {
      if q != p && q != InPool {
        assert Held(d, x, q);
      } else {
        assert x in Holding(d', p) + d'.pool.free;
      }
    }
    forall x: nat, q, r | Held(d', x, q) && Held(d', x, r) ensures q == r {
      SwapOnePlace(d, d', p, x, q, r);
    }
    forall x: nat | x < d'.pool.made ensures Somewhere(d', x) {
      if x < d.pool.made {
        assert Somewhere(d, x);
        var q :| Held(d, x, q);
        if q == p || q == InPool {
          assert x in Holding(d', p) + d'.pool.free;
          assert Held(d', x, p) || Held(d', x, InPool);
        } else {
          assert Held(d', x, q);
        }
      } else {
        assert x in Holding(d', p) + d'.pool.free;
        assert Held(d', x, p) || Held(d', x, InPool);
      }
    }
    forall q ensures Distinct(Holding(d', q)) {
      if q != p && q != InPool {
        assert Distinct(Holding(d, q));
      }
    }
  }

  lemma SwapOnePlace(d: Data, d': Data, p: Place, x: nat, q: Place, r: Place)
    requires Owned(d) && Swapped(d, d', p) && Held(d', x, q) && Held(d', x, r)
    ensures q == r
  {
    SwapDistinct(d, d', p);
    DistinctSplit(Holding(d', p), d'.pool.free);
    var inner := x in Holding(d', p) + d'.pool.free;
    if q != p && q != InPool {
      assert Held(d, x, q);
    }
    if r != p && r != InPool {
      assert Held(d, x, r);
    }
  }

  // ---------- the events ----------

  lemma UpSwapped(d: Data, c: nat, chain: seq<Buf>, pool: Pool, fs: Flows, d': Data)
    requires PoolOk(d.pool) && Swaps(FlowsOf(d, c).up.chain, d.pool, chain, pool)
    requires fs.up.chain == chain && fs.down == FlowsOf(d, c).down
    requires d' == d.(pool := pool, flows := d.flows[c := fs])
    ensures Swapped(d, d', InUp(c))
  {
    assert FlowsOf(d', c) == fs;
    forall q | q != InPool && q != InUp(c) ensures Holding(d', q) == Holding(d, q) {
    }
  }

  lemma DownSwapped(d: Data, c: nat, chain: seq<Buf>, pool: Pool, fs: Flows, d': Data)
    requires PoolOk(d.pool) && Swaps(FlowsOf(d, c).down.chain, d.pool, chain, pool)
    requires fs.down.chain == chain && fs.up == FlowsOf(d, c).up
    requires d' == d.(pool := pool, flows := d.flows[c := fs])
    ensures Swapped(d, d', InDown(c))
  {
    assert FlowsOf(d', c) == fs;
    forall q | q != InPool && q != InDown(c) ensures Holding(d', q) == Holding(d, q) {
    }
  }

  lemma ReleaseSwaps(chain: seq<Buf>, pool: Pool)
    ensures Swaps(chain, pool, [], FreeAll(pool, Ids(chain)))
  {
    FreeAllExchange(pool, Ids(chain));
    assert Ids([]) + FreeAll(pool, Ids(chain)).free == FreeAll(pool, Ids(chain)).free;
    if PoolOk(pool) {
      FreeAllOk(pool, Ids(chain));
    }
  }

  lemma ReleaseOwned(d: Data, c: nat, d': Data)
    requires Owned(d)
    requires d' == d.(pool := FreeAll(FreeAll(d.pool, Ids(FlowsOf(d, c).up.chain)), Ids(FlowsOf(d, c).down.chain)),
                      flows := d.flows - {c})
    ensures Owned(d')
  {
    var fs := FlowsOf(d, c);
    var pool1 := FreeAll(d.pool, Ids(fs.up.chain));
    var d1 := d.(pool := pool1, flows := d.flows[c := Flows(NO_FLOW, fs.down)]);
    ReleaseSwaps(fs.up.chain, d.pool);
    UpSwapped(d, c, [], pool1, Flows(NO_FLOW, fs.down), d1);
    SwapOwned(d, d1, InUp(c));
    assert FlowsOf(d1, c) == Flows(NO_FLOW, fs.down);
    var pool2 := FreeAll(pool1, Ids(fs.down.chain));
    var d2 := d1.(pool := pool2, flows := d1.flows[c := Flows(NO_FLOW, NO_FLOW)]);
    ReleaseSwaps(fs.down.chain, pool1);
    DownSwapped(d1, c, [], pool2, Flows(NO_FLOW, NO_FLOW), d2);
    SwapOwned(d1, d2, InDown(c));
    SameHolding(d2, d');
  }

  lemma SameHolding(d: Data, d': Data)
    requires Owned(d) && d'.pool == d.pool && forall c :: FlowsOf(d', c) == FlowsOf(d, c)
    ensures Owned(d')
  {
    forall p ensures Holding(d', p) == Holding(d, p) {
    }
    assert forall x: nat, p :: Held(d', x, p) <==> Held(d, x, p);
    forall x: nat | x < d.pool.made ensures Somewhere(d', x) {
      assert Somewhere(d, x);
      var p :| Held(d, x, p);
      assert Held(d', x, p);
    }
  }

  /** No event loses a buffer or gives it to two holders. */
  lemma TransferOwned(k: Control, d: Data, e: Event)
    requires Owned(d) && k.accepted !in d.flows
    ensures Owned(Transfer(k, d, e))
  {
    var d' := Transfer(k, d, e);
    match e
    case Accepting => SameHolding(d, d');
    case Receiving(c, rx) =>
      var r := FillOf(d, FlowsOf(d, c).up, rx);
      FillSwaps(FlowsOf(d, c).up.chain, d.pool, rx, d.cap);
      UpSwapped(d, c, r.chain, r.pool, d'.flows[c], d');
      SwapOwned(d, d', InUp(c));
    case Sending(c, tx) =>
      var r := DrainSwaps(FlowsOf(d, c).down.chain, d.pool, tx, d.cap);
      DownSwapped(d, c, r.chain, r.pool, d'.flows[c], d');
      SwapOwned(d, d', InDown(c));
    case PeerReceiving(c, rx) =>
      var r := FillOf(d, FlowsOf(d, c).down, rx);
      FillSwaps(FlowsOf(d, c).down.chain, d.pool, rx, d.cap);
      DownSwapped(d, c, r.chain, r.pool, d'.flows[c], d');
      SwapOwned(d, d', InDown(c));
    case PeerSending(c, tx) =>
      var r := DrainSwaps(FlowsOf(d, c).up.chain, d.pool, tx, d.cap);
      UpSwapped(d, c, r.chain, r.pool, d'.flows[c], d');
      SwapOwned(d, d', InUp(c));
    case Expiring(c) => ReleaseOwned(d, c, d');
    case _ =>
  }

  // ---------- when all connections are gone ----------

  lemma DistinctBelow(s: seq<nat>, n: nat)
    requires Distinct(s) && (forall x :: x in s ==> x < n) && forall x: nat :: x < n ==> x in s
    ensures |s| == n
  {
    MembersCount(s);
    BelowCount(n);
    assert Members(s) == Below(n);
  }

  /** Once every connection is freed, every buffer is back in the pool. */
  lemma AllReturned(d: Data)
    requires Owned(d) && d.flows == map[]
    ensures d.pool.n == d.pool.max == d.pool.made
  {
    forall x: nat | x < d.pool.made ensures x in d.pool.free {
      assert Somewhere(d, x);
      var p :| Held(d, x, p);
      assert p == InPool;
    }
    forall x | x in d.pool.free ensures x < d.pool.made {
      assert Held(d, x, InPool);
    }
    assert Distinct(Holding(d, InPool));
    DistinctBelow(d.pool.free, d.pool.made);
  }
}
