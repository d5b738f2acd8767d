/** Sums of a real-valued measure over a sequence, and the fact that such a
    sum does not depend on the order of the sequence. */
module Totals {

  function Total<T>(s: seq<T>, f: T -> real): real {
    if |s| == 0 then 0.0 else f(s[0]) + Total(s[1..], f)
  }

  lemma {:induction false} TotalConcat<T>(a: seq<T>, b: seq<T>, f: T -> real)
    ensures Total(a + b, f) == Total(a, f) + Total(b, f)
  {
    if |a| > 0 {
      assert (a + b)[1..] == a[1..] + b;
      TotalConcat(a[1..], b, f);
    } else {
      assert a + b == b;
    }
  }

  lemma {:induction false} TotalMiddle<T>(a: seq<T>, x: T, b: seq<T>, f: T -> real)
    ensures Total(a + [x] + b, f) == f(x) + Total(a + b, f)
  {
    TotalConcat(a + [x], b, f);
    TotalConcat(a, [x], f);
    TotalConcat(a, b, f);
    assert [x][1..] == [];
  }

  lemma {:induction false} MultisetWithout<T>(s: seq<T>, k: nat)
    requires k < |s|
    ensures s == s[..k] + [s[k]] + s[k + 1..]
    ensures multiset(s[..k] + s[k + 1..]) == multiset(s) - multiset{s[k]}
  {
    assert s == s[..k] + [s[k]] + s[k + 1..];
  }

  /** A sum does not depend on the order of its terms. */
  lemma {:induction false} TotalPermutationInvariant<T>(a: seq<T>, b: seq<T>, f: T -> real)
    requires multiset(a) == multiset(b)
    ensures Total(a, f) == Total(b, f)
    decreases |a|
  {
    if |a| == 0 {
      assert |multiset(b)| == 0;
    } else {
      var x := a[0];
      assert x in multiset(b);
      var k :| 0 <= k < |b| && b[k] == x;
      MultisetWithout(b, k);
      MultisetWithout(a, 0);
      var front, back := b[..k], b[k + 1..];
      TotalMiddle(front, x, back, f);
      TotalPermutationInvariant(a[1..], front + back, f);
    }
  }
}
