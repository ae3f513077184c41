/** The buffer pool (src/xtp_bufpool.c): a stack of free buffers that doubles when it is empty.
    A buffer is known by the number of buffers that had been made before it. */
module BufPool {
  import opened Common

  /** n and max are the counters of xtp_buf_pool_s; `made` counts the calls of malloc(). */
  datatype Pool = Pool(free: seq<nat>, n: int, max: nat, made: nat)

  /** The numbers of the buffers made while the count goes from lo to hi, the latest first. */
  function Minted(lo: nat, hi: nat): (s: seq<nat>)
    ensures |s| == (if lo < hi then hi - lo else 0)
    decreases hi
  {
    if lo >= hi then [] else [hi - 1] + Minted(lo, hi - 1)
  }

  lemma {:induction false} MintedIn(lo: nat, hi: nat)
    ensures forall x :: x in Minted(lo, hi) <==> lo <= x < hi
    ensures Distinct(Minted(lo, hi))
    decreases hi
  {
    if lo < hi {
      MintedIn(lo, hi - 1);
      assert hi - 1 !in Minted(lo, hi - 1);
    }
  }

  // ---------- what the functions do ----------

  /** x_buf_init */
  function InitPool(max: nat): Pool {
    Pool(Minted(0, max), max, max, max)
  }

  function Extend(p: Pool, num: nat): Pool {
    p.(free := Minted(p.made, p.made + num) + p.free, n := p.n + num, max := p.max + num, made := p.made + num)
  }

  lemma ExtendOne(p: Pool)
    ensures Extend(p, 1) == Pool([p.made] + p.free, p.n + 1, p.max + 1, p.made + 1)
  {
    assert Minted(p.made, p.made + 1) == [p.made] + Minted(p.made, p.made);
  }

  /** One more pass of a loop that makes buffers. */
  lemma {:induction false} ExtendNext(p: Pool, num: nat)
    ensures Extend(Extend(p, num), 1) == Extend(p, num + 1)
  {
    ExtendOne(Extend(p, num));
    assert Minted(p.made, p.made + num + 1) == [p.made + num] + Minted(p.made, p.made + num);
    assert [p.made + num] + (Minted(p.made, p.made + num) + p.free)
        == ([p.made + num] + Minted(p.made, p.made + num)) + p.free;
  }

  /** x_buf_ralloc; a pool without buffers counts one that it does not have. */
  function Grow(p: Pool, num: nat): Pool {
    var max := if p.max != 0 then p.max else 1;
    Extend(p.(max := max), if num != 0 then num else max)
  }

  function Ready(p: Pool): (q: Pool)
    ensures q.free != []
  {
    if p.free == [] then Grow(p, 0) else p
  }

  /** The pool after x_buf_alloc; the buffer handed out is Ready(p).free[0]. */
  function Alloc(p: Pool): Pool {
    var q := Ready(p);
    q.(free := q.free[1..], n := q.n - 1)
  }

  /** The pool after x_buf_free for a buffer of ordinary size. */
  function Free(p: Pool, id: nat): Pool {
    p.(free := [id] + p.free, n := p.n + 1)
  }

  function FreeAll(p: Pool, ids: seq<nat>): Pool
    decreases |ids|
  {
    if ids == [] then p else FreeAll(Free(p, ids[0]), ids[1..])
  }

  // ---------- the counters ----------

  ghost predicate PoolOk(p: Pool) {
    p.n == |p.free| && p.max == p.made && p.max > 0
  }

  lemma AllocOk(p: Pool)
    requires PoolOk(p)
    ensures PoolOk(Alloc(p))
    ensures p.free == [] ==> Alloc(p).max == 2 * p.max
    ensures p.free != [] ==> Alloc(p).max == p.max
  {
  }

  lemma {:induction false} FreeAllOk(p: Pool, ids: seq<nat>)
    requires PoolOk(p)
    ensures PoolOk(FreeAll(p, ids))
    ensures FreeAll(p, ids).made == p.made && |FreeAll(p, ids).free| == |p.free| + |ids|
    decreases |ids|
  {
    if ids != [] {
      FreeAllOk(Free(p, ids[0]), ids[1..]);
    }
  }

  /** max tells how many buffers there are exactly when the pool did not start without any. */
  lemma GrowthCountsIffNotEmpty(p: Pool, num: nat)
    requires p.max == p.made
    ensures Grow(p, num).max == Grow(p, num).made <==> p.max != 0
  {
  }

  // ---------- buffers change hands ----------

  /** The sequence of buffers held by two parties goes from a to b while new ones are made. */
  ghost predicate Exchange(a: seq<nat>, made: nat, b: seq<nat>, made': nat) {
    && made <= made'
    && (forall x :: x in b <==> x in a || made <= x < made')
    && (Distinct(a) && (forall x :: x in a ==> x < made) ==> Distinct(b))
  }

  lemma ExchangeTrans(a: seq<nat>, m: nat, b: seq<nat>, m': nat, c: seq<nat>, m'': nat)
    requires Exchange(a, m, b, m') && Exchange(b, m', c, m'')
    ensures Exchange(a, m, c, m'')
  {
  }

  /** A chain gets a buffer of the pool. */
  lemma AllocExchange(p: Pool, ids: seq<nat>)
    ensures var q := Alloc(p); Exchange(ids + p.free, p.made, (ids + [Ready(p).free[0]]) + q.free, q.made)
  {
    var q := Alloc(p);
    var b := (ids + [Ready(p).free[0]]) + q.free;
    assert b == ids + Ready(p).free;
    if p.free == [] {
      var num := q.made - p.made;
      MintedIn(p.made, p.made + num);
      assert Ready(p).free == Minted(p.made, p.made + num);
      assert ids + p.free == ids;
      if Distinct(ids) && forall x :: x in ids ==> x < p.made {
        DistinctConcat(ids, Minted(p.made, p.made + num));
      }
    }
  }

  lemma DistinctConcat(a: seq<nat>, b: seq<nat>)
    requires Distinct(a) && Distinct(b) && forall x :: x in a ==> x !in b
    ensures Distinct(a + b)
  {
    forall i, j | 0 <= i < j < |a + b| ensures (a + b)[i] != (a + b)[j] {
      if i < |a| <= j {
        assert a[i] in a && b[j - |a|] in b;
      }
    }
  }

  lemma FreeExchange(p: Pool, id: nat, ids: seq<nat>)
    ensures Exchange([id] + ids + p.free, p.made, ids + Free(p, id).free, p.made)
  {
    var a, b := [id] + ids + p.free, ids + Free(p, id).free;
    assert forall x :: x in b <==> x in a;
    if Distinct(a) {
      assert forall i :: 0 <= i < |ids| ==> b[i] == a[i + 1];
      assert forall i :: |ids| < i < |b| ==> b[i] == a[i];
      assert b[|ids|] == a[0];
    }
  }

  lemma {:induction false} FreeAllExchange(p: Pool, ids: seq<nat>)
    ensures Exchange(ids + p.free, p.made, FreeAll(p, ids).free, p.made) && FreeAll(p, ids).made == p.made
    decreases |ids|
  {
    if ids == [] {
      assert ids + p.free == p.free;
    } else {
      var q := Free(p, ids[0]);
      FreeExchange(p, ids[0], ids[1..]);
      assert [ids[0]] + ids[1..] == ids;
      FreeAllExchange(q, ids[1..]);
      ExchangeTrans(ids + p.free, p.made, ids[1..] + q.free, p.made, FreeAll(p, ids).free, p.made);
    }
  }

  // ---------- growth ----------

  datatype PoolOp = Take | Give(id: nat)

  /** A pool with the largest number of buffers that were out at the same time. */
  datatype Watched = Watched(pool: Pool, peak: int)

  function Out(p: Pool): int {
    p.made - |p.free|
  }

  function Apply(w: Watched, op: PoolOp): Watched {
    var q := if op.Take? then Alloc(w.pool) else Free(w.pool, op.id);
    Watched(q, Max(w.peak, Out(q)))
  }

  function ApplyAll(w: Watched, ops: seq<PoolOp>): Watched
    decreases |ops|
  {
    if ops == [] then w else ApplyAll(Apply(w, ops[0]), ops[1..])
  }

  ghost predicate GrowthOk(w: Watched, start: nat) {
    PoolOk(w.pool) && Out(w.pool) <= w.peak && w.pool.max <= Max(start, 2 * (w.peak - 1))
  }

  lemma {:induction false} GrowthFrom(w: Watched, ops: seq<PoolOp>, start: nat)
    requires GrowthOk(w, start)
    ensures GrowthOk(ApplyAll(w, ops), start)
    decreases |ops|
  {
    if ops != [] {
      AllocOk(w.pool);
      GrowthFrom(Apply(w, ops[0]), ops[1..], start);
    }
  }

  /** Whatever the history of allocations and releases, the pool is no larger than twice one less
      than the most buffers ever out at once, unless it started larger. */
  lemma GrowthBound(start: nat, ops: seq<PoolOp>)
    requires start > 0
    ensures var w := ApplyAll(Watched(InitPool(start), 0), ops);
            w.pool.max <= Max(start, 2 * (w.peak - 1)) && w.pool.max == w.pool.made && w.pool.n == |w.pool.free|
  {
    GrowthFrom(Watched(InitPool(start), 0), ops, start);
  }

  /** Buffers are handed out: the pool grows only when they are all out. */
  ghost predicate Grows(p: Pool, q: Pool) {
    PoolOk(q) && Out(p) <= Out(q) && q.max <= Max(p.max, 2 * (Out(q) - 1))
  }

  lemma AllocGrows(p: Pool)
    requires PoolOk(p)
    ensures Grows(p, Alloc(p))
  {
    AllocOk(p);
  }

  lemma GrowsTrans(p: Pool, q: Pool, r: Pool)
    requires Grows(p, q) && Grows(q, r)
    ensures Grows(p, r)
  {
  }
}
