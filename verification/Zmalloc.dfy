/** The memory accounting of src/zmalloc.c on a machine where size_t and long have eight bytes. */
module Zmalloc {
  import opened Common

  /** One more than the largest size_t. */
  const WORD: nat := 0x1_0000_0000_0000_0000

  /** A size_t. */
  type Word = n: nat | n < WORD

  const SIZEOF_LONG: nat := 8
  const PREFIX_SIZE: nat := 8

  function Wrap(x: int): Word {
    x % WORD
  }

  /** The operator & */
  function And(a: nat, b: nat): nat {
    if a == 0 || b == 0 then 0
    else (if a % 2 == 1 && b % 2 == 1 then 1 else 0) + 2 * And(a / 2, b / 2)
  }

  /** The rounding of the statistics macros and of zmalloc_size, in size_t arithmetic. */
  function RoundUp(n: Word): Word {
    if And(n, SIZEOF_LONG - 1) != 0 then Wrap(n + (SIZEOF_LONG - And(n, SIZEOF_LONG - 1))) else n
  }

  lemma MaskOnce(n: nat, m: nat)
    ensures And(n, 2 * m + 1) == n % 2 + 2 * And(n / 2, m)
  {
  }

  lemma MaskIsRemainder(n: nat)
    ensures And(n, SIZEOF_LONG - 1) == n % SIZEOF_LONG
  {
    MaskOnce(n, 3);
    MaskOnce(n / 2, 1);
    MaskOnce(n / 2 / 2, 0);
  }

  /** What a block of the given size adds to the statistics. */
  function Term(size: Word): Word {
    RoundUp(Wrap(size + PREFIX_SIZE))
  }

  lemma RoundUpAs(n: Word, d: nat)
    requires d < SIZEOF_LONG && (n + d) % SIZEOF_LONG == 0
    ensures RoundUp(n) == Wrap(n + d)
  {
    MaskIsRemainder(n);
  }

  /** The bytes that are missing to a multiple of eight. */
  function Padding(n: nat): (d: nat)
    ensures d < SIZEOF_LONG && (n + d) % SIZEOF_LONG == 0 && (n + PREFIX_SIZE + d) % SIZEOF_LONG == 0
  {
    if n % SIZEOF_LONG == 0 then 0 else SIZEOF_LONG - n % SIZEOF_LONG
  }

  lemma WrapKeepsRemainder(x: nat, d: nat)
    requires x < 2 * WORD
    ensures (Wrap(x) + d) % SIZEOF_LONG == (x + d) % SIZEOF_LONG
  {
    assert Wrap(x) == if x < WORD then x else x - WORD;
  }

  /** zrealloc takes the old size off and puts the new size on without the prefix, and zmalloc_size
      rounds before it adds the prefix: both are right, wrap-around included, because the prefix is a
      multiple of the unit of rounding. */
  lemma PrefixMovesOut(size: Word)
    ensures Term(size) == Wrap(RoundUp(size) + PREFIX_SIZE)
  {
    var d := Padding(size);
    WrapKeepsRemainder(size + PREFIX_SIZE, d);
    hide Wrap;
    RoundUpAs(size, d);
    RoundUpAs(Wrap(size + PREFIX_SIZE), d);
    hide RoundUp;
    WrapAdd(size + PREFIX_SIZE, d);
    WrapAdd(size + d, PREFIX_SIZE);
  }

  lemma Padded(n: nat)
    requires n % SIZEOF_LONG == 0 && n < 2 * WORD
    ensures Wrap(n) == (if n < WORD then n else n - WORD) && Wrap(n) % SIZEOF_LONG == 0
    ensures n < WORD <==> n <= WORD - SIZEOF_LONG
  {
  }

  /** The term is the number of bytes with their prefix, rounded up to a multiple of eight, exactly
      for the sizes for which that number still fits. */
  lemma TermCovers(size: Word)
    ensures Term(size) >= size + PREFIX_SIZE <==> size <= WORD - 2 * SIZEOF_LONG
    ensures size <= WORD - 2 * SIZEOF_LONG ==> Term(size) < size + PREFIX_SIZE + SIZEOF_LONG
    ensures Term(size) % SIZEOF_LONG == 0
  {
    var d := Padding(size);
    WrapKeepsRemainder(size + PREFIX_SIZE, d);
    RoundUpAs(Wrap(size + PREFIX_SIZE), d);
    hide RoundUp;
    WrapAdd(size + PREFIX_SIZE, d);
    Padded(size + PREFIX_SIZE + d);
  }

  // ---------- sums over the live blocks ----------

  /** The sum over the blocks below address n. */
  ghost function SumBelow(m: map<nat, Word>, n: nat): nat {
    if n == 0 then 0 else SumBelow(m, n - 1) + if n - 1 in m then Term(m[n - 1]) else 0
  }

  ghost function Sum(m: map<nat, Word>): nat {
    SumBelow(m, WORD)
  }

  lemma {:induction false} SumPut(m: map<nat, Word>, p: nat, size: Word, n: nat)
    requires p !in m
    ensures SumBelow(m[p := size], n) == SumBelow(m, n) + if p < n then Term(size) else 0
  {
    if n > 0 {
      SumPut(m, p, size, n - 1);
    }
  }

  lemma {:induction false} SumCut(m: map<nat, Word>, p: nat, n: nat)
    requires p in m
    ensures SumBelow(m - {p}, n) == SumBelow(m, n) - if p < n then Term(m[p]) else 0
  {
    if n > 0 {
      SumCut(m, p, n - 1);
    }
  }

  lemma WrapAdd(x: int, y: int)
    ensures Wrap(Wrap(x) + y) == Wrap(x + y)
  {
    var q := x / WORD;
    assert Wrap(x) + y == x + y - WORD * q;
    WrapTurn(x + y, -q);
  }

  lemma {:induction false} WrapTurn(x: int, q: int)
    ensures Wrap(x + WORD * q) == Wrap(x)
    decreases if q < 0 then -q else q
  {
    if q > 0 {
      WrapTurn(x, q - 1);
      assert x + WORD * q == (x + WORD * (q - 1)) + WORD;
    } else if q < 0 {
      WrapTurn(x, q + 1);
      assert x + WORD * q == (x + WORD * (q + 1)) - WORD;
    }
  }

  lemma {:induction false} SumEmpty(n: nat)
    ensures SumBelow(map[], n) == 0
  {
    if n > 0 {
      SumEmpty(n - 1);
    }
  }

  /** The two updates of zrealloc. */
  lemma ReallocSum(sum: int, oldsize: Word, size: Word)
    ensures Wrap(Wrap(Wrap(sum) - RoundUp(oldsize)) + RoundUp(size)) == Wrap(sum - Term(oldsize) + Term(size))
  {
    PrefixMovesOut(oldsize);
    PrefixMovesOut(size);
    WrapAdd(sum, 0 - RoundUp(oldsize));
    WrapAdd(sum - RoundUp(oldsize), RoundUp(size));
    var a, b := RoundUp(size) + PREFIX_SIZE, RoundUp(oldsize) + PREFIX_SIZE;
    WrapAdd(a, sum - Term(oldsize));
    WrapSub(b, sum + a);
  }

  lemma WrapSub(x: int, y: int)
    ensures Wrap(y - Wrap(x)) == Wrap(y - x)
  {
    var q := x / WORD;
    assert y - Wrap(x) == y - x + WORD * q;
    WrapTurn(y - x, q);
  }

  // ---------- what the calls do ----------

  /** The statistics, and the size that each live block holds in front of its first byte. */
  datatype Memory = Memory(used: Word, header: map<nat, Word>)

  /** A call with the address that libc hands out for it. */
  datatype Call =
    | Alloc(size: Word, addr: nat)
    | Realloc(ptr: Option<nat>, size: Word, addr: nat)
    | Free(ptr: Option<nat>)

  ghost predicate Unused(m: Memory, addr: nat) {
    0 < addr < WORD && addr !in m.header
  }

  ghost predicate Live(m: Memory, ptr: Option<nat>) {
    ptr.Some? ==> ptr.value in m.header
  }

  /** A pointer given to zrealloc or zfree is NULL or belongs to a live block, and libc hands out an
      address of no live block, which for realloc() may be that of the block it replaces. */
  ghost predicate Allowed(m: Memory, call: Call) {
    match call
    case Alloc(_, addr) => Unused(m, addr)
    case Realloc(ptr, _, addr) => Live(m, ptr) && (Unused(m, addr) || ptr == Some(addr))
    case Free(ptr) => Live(m, ptr)
  }

  function Allocated(m: Memory, size: Word, addr: nat): Memory {
    Memory(Wrap(m.used + RoundUp(Wrap(size + PREFIX_SIZE))), m.header[addr := size])
  }

  /** used_memory changes by rounded sizes, of which those of zrealloc lack the prefix. */
  ghost function Apply(m: Memory, call: Call): Memory
    requires Allowed(m, call)
  {
    match call
    case Alloc(size, addr) => Allocated(m, size, addr)
    case Realloc(ptr, size, addr) =>
      if ptr == None then Allocated(m, size, addr)
      else Memory(Wrap(Wrap(m.used - RoundUp(m.header[ptr.value])) + RoundUp(size)),
                  (m.header - {ptr.value})[addr := size])
    case Free(ptr) =>
      if ptr == None then m
      else Memory(Wrap(m.used - RoundUp(Wrap(m.header[ptr.value] + PREFIX_SIZE))), m.header - {ptr.value})
  }

  /** used_memory is the sum of the terms of the live blocks, modulo the range of size_t. */
  ghost predicate Accounted(m: Memory) {
    && (forall p :: p in m.header ==> p < WORD)
    && m.used == Wrap(Sum(m.header))
  }

  lemma AllocKeeps(m: Memory, size: Word, addr: nat)
    requires Accounted(m) && Unused(m, addr)
    ensures Accounted(Allocated(m, size, addr))
  {
    SumPut(m.header, addr, size, WORD);
    WrapAdd(Sum(m.header), Term(size));
  }

  lemma ReallocKeeps(m: Memory, p: nat, size: Word, addr: nat)
    requires Accounted(m) && Allowed(m, Realloc(Some(p), size, addr))
    ensures Accounted(Apply(m, Realloc(Some(p), size, addr)))
  {
    var h := m.header - {p};
    SumCut(m.header, p, WORD);
    SumPut(h, addr, size, WORD);
    ReallocSum(Sum(m.header), m.header[p], size);
    assert Sum(h[addr := size]) == Sum(m.header) - Term(m.header[p]) + Term(size);
  }

  lemma FreeKeeps(m: Memory, p: nat)
    requires Accounted(m) && p in m.header
    ensures Accounted(Apply(m, Free(Some(p))))
  {
    SumCut(m.header, p, WORD);
    WrapAdd(Sum(m.header), 0 - Term(m.header[p]));
  }

  lemma ApplyKeeps(m: Memory, call: Call)
    requires Accounted(m) && Allowed(m, call)
    ensures Accounted(Apply(m, call))
  {
    match call
    case Alloc(size, addr) => AllocKeeps(m, size, addr);
    case Realloc(ptr, size, addr) =>
      if ptr == None {
        AllocKeeps(m, size, addr);
      } else {
        ReallocKeeps(m, ptr.value, size, addr);
      }
    case Free(ptr) =>
      if ptr.Some? {
        FreeKeeps(m, ptr.value);
      }
  }

  ghost predicate AllowedRun(m: Memory, calls: seq<Call>)
    decreases |calls|
  {
    calls == [] || (Allowed(m, calls[0]) && AllowedRun(Apply(m, calls[0]), calls[1..]))
  }

  ghost function Run(m: Memory, calls: seq<Call>): Memory
    requires AllowedRun(m, calls)
    decreases |calls|
  {
    if calls == [] then m else Run(Apply(m, calls[0]), calls[1..])
  }

  lemma {:induction false} RunKeeps(m: Memory, calls: seq<Call>)
    requires Accounted(m) && AllowedRun(m, calls)
    ensures Accounted(Run(m, calls))
    decreases |calls|
  {
    if calls != [] {
      ApplyKeeps(m, calls[0]);
      RunKeeps(Apply(m, calls[0]), calls[1..]);
    }
  }

  // ---------- what the callers have asked for ----------

  /** The size last requested for the block at address p, after one more call; None while there is no
      block there.  Nothing but the calls is looked at. */
  function Request(was: Option<Word>, call: Call, p: nat): Option<Word> {
    match call
    case Alloc(size, addr) => if addr == p then Some(size) else was
    case Realloc(ptr, size, addr) => if addr == p then Some(size) else if ptr == Some(p) then None else was
    case Free(ptr) => if ptr == Some(p) then None else was
  }

  function Latest(was: Option<Word>, calls: seq<Call>, p: nat): Option<Word>
    decreases |calls|
  {
    if calls == [] then was else Latest(Request(was, calls[0], p), calls[1..], p)
  }

  /** The live blocks after a history of calls, with the sizes last requested for them. */
  ghost function Requested(calls: seq<Call>): map<nat, Word> {
    map p: nat | p < WORD && Latest(None, calls, p).Some? :: Latest(None, calls, p).value
  }

  ghost function Lookup(m: Memory, p: nat): Option<Word> {
    if p in m.header then Some(m.header[p]) else None
  }

  /** A call leaves in front of each live block the size last requested for it. */
  lemma ApplyRecords(m: Memory, call: Call, p: nat)
    requires Allowed(m, call)
    ensures Lookup(Apply(m, call), p) == Request(Lookup(m, p), call, p)
  {
  }

  lemma {:induction false} RunRecords(m: Memory, calls: seq<Call>, p: nat)
    requires AllowedRun(m, calls)
    ensures Lookup(Run(m, calls), p) == Latest(Lookup(m, p), calls, p)
    decreases |calls|
  {
    if calls != [] {
      ApplyRecords(m, calls[0], p);
      RunRecords(Apply(m, calls[0]), calls[1..], p);
    }
  }

  /** After any history of calls each live block is preceded by the size that was last requested for it,
      and no other block is recorded. */
  lemma HeadersAreRequests(calls: seq<Call>)
    requires AllowedRun(Memory(0, map[]), calls)
    ensures Run(Memory(0, map[]), calls).header == Requested(calls)
  {
    var h := Run(Memory(0, map[]), calls).header;
    SumEmpty(WORD);
    RunKeeps(Memory(0, map[]), calls);
    forall p: nat ensures Lookup(Run(Memory(0, map[]), calls), p) == Latest(None, calls, p) {
      RunRecords(Memory(0, map[]), calls, p);
    }
    forall p ensures p in h <==> p in Requested(calls) {
      assert p in h ==> Lookup(Run(Memory(0, map[]), calls), p) == Some(h[p]);
    }
  }

  /** After any history of calls used_memory is, modulo the range of size_t, the sum over the live
      blocks of the sizes last requested for them, with prefix and rounded up; it is that sum itself
      exactly when the sum fits. */
  lemma Accounting(calls: seq<Call>)
    requires AllowedRun(Memory(0, map[]), calls)
    ensures var m, sum := Run(Memory(0, map[]), calls), Sum(Requested(calls));
            && m.header == Requested(calls)
            && m.used == Wrap(sum)
            && (m.used == sum <==> sum < WORD)
  {
    SumEmpty(WORD);
    RunKeeps(Memory(0, map[]), calls);
    HeadersAreRequests(calls);
  }

  class Allocator {
    var usedMemory: Word
    var header: map<nat, Word>

    constructor ()
      ensures View() == Memory(0, map[])
    {
      usedMemory, header := 0, map[];
    }

    ghost function View(): Memory
      reads this
    {
      Memory(usedMemory, header)
    }

    /** update_zmalloc_stat_alloc */
    method StatAlloc(n: Word)
      modifies this`usedMemory
      ensures usedMemory == Wrap(old(usedMemory) + RoundUp(n))
    {
      var k: Word := n;
      if And(k, SIZEOF_LONG - 1) != 0 {
        k := Wrap(k + (SIZEOF_LONG - And(k, SIZEOF_LONG - 1)));
      }
      usedMemory := Wrap(usedMemory + k);
    }

    /** update_zmalloc_stat_free */
    method StatFree(n: Word)
      modifies this`usedMemory
      ensures usedMemory == Wrap(old(usedMemory) - RoundUp(n))
    {
      var k: Word := n;
      if And(k, SIZEOF_LONG - 1) != 0 {
        k := Wrap(k + (SIZEOF_LONG - And(k, SIZEOF_LONG - 1)));
      }
      usedMemory := Wrap(usedMemory - k);
    }

    /** zmalloc and zcalloc, which differ only in what the bytes hold */
    method Zmalloc(size: Word, addr: nat) returns (ptr: nat)
      requires Unused(View(), addr)
      modifies this
      ensures ptr == addr && View() == Apply(old(View()), Alloc(size, addr))
      ensures header == old(header)[addr := size] && usedMemory == Wrap(old(usedMemory) + Term(size))
    {
      header := header[addr := size];
      StatAlloc(Wrap(size + PREFIX_SIZE));
      ptr := addr;
    }

    /** zrealloc */
    method Zrealloc(ptr: Option<nat>, size: Word, addr: nat) returns (newptr: nat)
      requires Allowed(View(), Realloc(ptr, size, addr))
      modifies this
      ensures newptr == addr && View() == Apply(old(View()), Realloc(ptr, size, addr))
      ensures addr in header && header[addr] == size
      ensures ptr.Some? && ptr.value != addr ==> ptr.value !in header
    {
      if ptr == None {
        newptr := Zmalloc(size, addr);
        return;
      }
      var oldsize := header[ptr.value];
      header := (header - {ptr.value})[addr := size];
      StatFree(oldsize);
      StatAlloc(size);
      newptr := addr;
    }

    /** zmalloc_size: the term with which the block is accounted for */
    method ZmallocSize(ptr: nat) returns (size: Word)
      requires ptr in header
      ensures size == Term(header[ptr])
    {
      size := header[ptr];
      PrefixMovesOut(size);
      if And(size, SIZEOF_LONG - 1) != 0 {
        size := Wrap(size + (SIZEOF_LONG - And(size, SIZEOF_LONG - 1)));
      }
      size := Wrap(size + PREFIX_SIZE);
    }

    /** zfree */
    method Zfree(ptr: Option<nat>)
      requires Live(View(), ptr)
      modifies this
      ensures View() == Apply(old(View()), Free(ptr))
    {
      if ptr == None {
        return;
      }
      var oldsize := header[ptr.value];
      StatFree(Wrap(oldsize + PREFIX_SIZE));
      header := header - {ptr.value};
    }
  }
}
