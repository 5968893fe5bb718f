/** Facts about duplicate-free sequences, which stand for the kernel's intrusive lists. */
module Sequences {

  ghost predicate Distinct<T>(s: seq<T>) {
    forall i, j :: 0 <= i < j < |s| ==> s[i] != s[j]
  }

  lemma ConstantIsSingle<T>(s: seq<T>, x: T)
    requires Distinct(s) && |s| > 0 && forall k :: 0 <= k < |s| ==> s[k] == x
    ensures s == [x]
  {
    var i := if |s| > 1 then 1 else 0;
    assert s[0] == x == s[i];
  }

  /** Position of the first `x`, or |s| when there is none. */
  function IndexOf<T(==)>(s: seq<T>, x: T): (i: nat)
    ensures i <= |s|
    ensures i < |s| ==> s[i] == x
    ensures forall j :: 0 <= j < i ==> s[j] != x
    ensures x in s <==> i < |s|
  {
    if s == [] then 0
    else if s[0] == x then 0
    else
      var i := IndexOf(s[1..], x);
      assert forall j :: 1 <= j < i + 1 ==> s[j] == s[1..][j - 1];
      1 + i
  }

  lemma IndexOfAt<T>(s: seq<T>, i: nat)
    requires Distinct(s) && i < |s|
    ensures IndexOf(s, s[i]) == i
  {
    var j := IndexOf(s, s[i]);
    assert s[j] == s[i];
  }

  /** `s` with the first `x` unlinked. */
  function Without<T(==)>(s: seq<T>, x: T): seq<T> {
    var i := IndexOf(s, x);
    if i < |s| then s[..i] + s[i + 1..] else s
  }

  lemma WithoutAbsent<T>(s: seq<T>, x: T)
    requires x !in s
    ensures Without(s, x) == s
  {
  }

  lemma WithoutMembers<T>(s: seq<T>, x: T)
    requires Distinct(s)
    ensures Distinct(Without(s, x))
    ensures forall y :: y in Without(s, x) <==> y in s && y != x
  {
    var i := IndexOf(s, x);
    var r := Without(s, x);
    if i < |s| {
      forall y | y in s && y != x
        ensures y in r
      {
        var k :| 0 <= k < |s| && s[k] == y;
        if k < i { assert r[k] == y; } else { assert r[k - 1] == y; }
      }
    }
  }

  /** `s` with `x` linked in at position `p`. */
  function InsertAt<T>(s: seq<T>, p: nat, x: T): seq<T>
    requires p <= |s|
  {
    s[..p] + [x] + s[p..]
  }

  lemma InsertIndex<T>(s: seq<T>, p: nat, x: T, i: nat)
    requires p <= |s| && i <= |s|
    ensures |InsertAt(s, p, x)| == |s| + 1
    ensures InsertAt(s, p, x)[i] == if i < p then s[i] else if i == p then x else s[i - 1]
  {
  }

  lemma InsertMembers<T>(s: seq<T>, p: nat, x: T)
    requires p <= |s|
    ensures forall y :: y in InsertAt(s, p, x) <==> y in s || y == x
    ensures Distinct(s) && x !in s ==> Distinct(InsertAt(s, p, x))
  {
    var r := InsertAt(s, p, x);
    assert r[p] == x;
    forall y | y in s
      ensures y in r
    {
      var k :| 0 <= k < |s| && s[k] == y;
      if k < p { assert r[k] == y; } else { assert r[k + 1] == y; }
    }
  }

  lemma AppendMembers<T>(s: seq<T>, x: T)
    ensures forall y :: y in s + [x] <==> y in s || y == x
    ensures Distinct(s) && x !in s ==> Distinct(s + [x])
  {
  }

  /** Dropping one element of the last of three concatenated parts. */
  lemma DropInThird<T>(a: seq<T>, b: seq<T>, c: seq<T>, i: nat)
    requires i < |c|
    ensures var s, k := a + (b + c), |a| + |b| + i;
      s[..k] + s[k + 1..] == a + (b + (c[..i] + c[i + 1..]))
  {
  }

  // -------------------------------------------------------------- modular steps

  lemma ProductAtLeast(d: int, b: int)
    ensures d >= 1 && b >= 0 ==> d * b >= b
  {
  }

  lemma RemainderUnique(a: nat, b: nat, q: nat, r: nat)
    requires r < b && a == q * b + r
    ensures a % b == r
  {
    var q1 := a / b;
    ProductAtLeast(q1 - q, b);
    ProductAtLeast(q - q1, b);
    assert (q1 - q) * b == q1 * b - q * b;
  }

  /** One turn more around a circle of `k`. */
  lemma RemainderWraps(x: nat, k: nat)
    requires k > 0
    ensures (x + k) % k == x % k
  {
    var q := x / k;
    assert x + k == (q + 1) * k + x % k;
    RemainderUnique(x + k, k, q + 1, x % k);
  }
}
