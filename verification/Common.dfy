/** Small vocabulary shared by the modules of the model. */
module Common {

  datatype Option<+T> = None | Some(value: T)

  /** One byte of a TCP stream. */
  newtype Byte = x: int | 0 <= x < 256

  ghost predicate Distinct<T>(s: seq<T>) {
    forall i, j :: 0 <= i < j < |s| ==> s[i] != s[j]
  }

  ghost function Members(s: seq<nat>): set<nat> {
    set x | x in s
  }

  lemma {:induction false} MembersCount(s: seq<nat>)
    requires Distinct(s)
    ensures |Members(s)| == |s|
  {
    if s != [] {
      assert forall i :: 0 <= i < |s[1..]| ==> s[1..][i] == s[i + 1];
      MembersCount(s[1..]);
      assert s == [s[0]] + s[1..];
      assert Members(s) == Members(s[1..]) + {s[0]};
    }
  }

  /** The numbers below n. */
  ghost function Below(n: nat): set<nat> {
    if n == 0 then {} else Below(n - 1) + {n - 1}
  }

  lemma {:induction false} BelowCount(n: nat)
    ensures |Below(n)| == n
    ensures forall x: nat :: x in Below(n) <==> x < n
  {
    if n > 0 {
      BelowCount(n - 1);
    }
  }

  /** The sequence without the element at position i. */
  function Cut<T>(s: seq<T>, i: nat): seq<T>
    requires i < |s|
  {
    s[..i] + s[i + 1..]
  }

  /** The first position of x in s, or |s| when x does not occur. */
  function Position(s: seq<nat>, x: nat): (i: nat)
    ensures i <= |s|
    ensures x !in s[..i]
    ensures x in s <==> i < |s|
    ensures i < |s| ==> s[i] == x
  {
    if s == [] || s[0] == x then 0
    else
      assert s == [s[0]] + s[1..];
      1 + Position(s[1..], x)
  }

  /** The remainder of a division, computed by repeated subtraction (see ModIsRemainder). */
  function Mod(a: nat, n: nat): (r: nat)
    requires n > 0
    ensures r < n
  {
    if a < n then a else Mod(a - n, n)
  }

  lemma {:induction false} ModIsRemainder(a: nat, n: nat)
    requires n > 0
    ensures Mod(a, n) == a % n
  {
    if a >= n {
      ModIsRemainder(a - n, n);
      var q, r := (a - n) / n, (a - n) % n;
      assert a == (q + 1) * n + r;
      QuotientUnique(a, n, q + 1, r);
    } else {
      QuotientUnique(a, n, 0, a);
    }
  }

  lemma MultipleOf(d: int, n: nat)
    ensures d >= 1 ==> d * n >= n
    ensures d <= -1 ==> d * n <= 0 - n
    ensures d == 0 ==> d * n == 0
  {
    if d >= 1 {
      assert (d - 1) * n >= 0;
    } else if d <= -1 {
      assert (-d - 1) * n >= 0;
    }
  }

  lemma QuotientUnique(a: nat, n: nat, q: nat, r: nat)
    requires n > 0 && a == q * n + r && r < n
    ensures a % n == r
  {
    var q', r' := a / n, a % n;
    assert a == n * q' + r';
    var d := q - q';
    assert d * n == r' - r;
    MultipleOf(d, n);
  }

  lemma {:induction false} ModNext(a: nat, n: nat)
    requires n > 0
    ensures Mod(a + 1, n) == if Mod(a, n) + 1 == n then 0 else Mod(a, n) + 1
  {
    if a >= n {
      ModNext(a - n, n);
    }
  }

  lemma ConcatAssoc<T>(a: seq<T>, b: seq<T>, c: seq<T>)
    ensures a + (b + c) == (a + b) + c
  {
  }

  lemma ConcatParts<T>(a: seq<T>, b: seq<T>)
    ensures forall i :: 0 <= i < |a| ==> (a + b)[i] in a
    ensures forall i :: |a| <= i < |a| + |b| ==> (a + b)[i] == b[i - |a|]
  {
    assert forall i :: 0 <= i < |a| ==> (a + b)[i] == a[i];
  }

  lemma PutAt<T>(m: map<nat, T>, m': map<nat, T>, n: nat, v: T)
    requires m'.Keys == m.Keys + {n} && m'[n] == v && forall j :: j in m && j != n ==> m'[j] == m[j]
    ensures m' == m[n := v]
  {
  }

  function Max(a: int, b: int): int {
    if a < b then b else a
  }
}
