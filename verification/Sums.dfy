/** Sums over sequences, and that the order of the summands does not matter. */
module Sums {
  function SumOf<T>(s: seq<T>, f: T -> nat): nat {
    if |s| == 0 then 0 else SumOf(s[..|s| - 1], f) + f(s[|s| - 1])
  }

  lemma {:induction false} SumOfParts<T>(a: seq<T>, b: seq<T>, f: T -> nat)
    ensures SumOf(a + b, f) == SumOf(a, f) + SumOf(b, f)
  {
    if |b| == 0 {
      assert a + b == a;
    } else {
      SumOfParts(a, b[..|b| - 1], f);
      assert (a + b)[..|a + b| - 1] == a + b[..|b| - 1];
    }
  }

  lemma SumOfNothing<T>(s: seq<T>, f: T -> nat)
    ensures SumOf(s[..0], f) == 0
  {
  }

  lemma SumOfNext<T>(s: seq<T>, i: nat, f: T -> nat)
    requires i < |s|
    ensures SumOf(s[..i + 1], f) == SumOf(s[..i], f) + f(s[i])
  {
    assert s[..i + 1][..i] == s[..i];
  }

  lemma SumOfSplit<T>(a: seq<T>, x: T, b: seq<T>, f: T -> nat)
    ensures SumOf(a + [x] + b, f) == SumOf(a + b, f) + f(x)
  {
    SumOfParts(a + [x], b, f);
    SumOfParts(a, b, f);
    assert (a + [x])[..|a|] == a;
  }

  lemma SumOfWithout<T>(s: seq<T>, k: nat, f: T -> nat)
    requires k < |s|
    ensures SumOf(s[..k] + s[k + 1..], f) + f(s[k]) == SumOf(s, f)
  {
    hide SumOf;
    assert s[..k] + [s[k]] + s[k + 1..] == s;
    SumOfSplit(s[..k], s[k], s[k + 1..], f);
  }

  lemma {:induction false} SumOfPermutation<T>(a: seq<T>, b: seq<T>, f: T -> nat)
    requires multiset(a) == multiset(b)
    ensures SumOf(a, f) == SumOf(b, f)
  {
    if |a| == 0 {
      assert |multiset(b)| == 0;
    } else {
      var last := a[|a| - 1];
      assert last in multiset(b);
      var k :| 0 <= k < |b| && b[k] == last;
      var rest := b[..k] + b[k + 1..];
      assert a == a[..|a| - 1] + [last];
      assert b == b[..k] + [last] + b[k + 1..];
      assert multiset(rest) == multiset(b) - multiset{last};
      assert multiset(a[..|a| - 1]) == multiset(a) - multiset{last};
      SumOfPermutation(a[..|a| - 1], rest, f);
      SumOfWithout(b, k, f);
    }
  }

  /** Summand by summand the same. */
  lemma {:induction false} SumOfMapped<S, T>(a: seq<S>, b: seq<T>, f: S -> nat, g: T -> nat)
    requires |a| == |b| && forall i :: 0 <= i < |a| ==> f(a[i]) == g(b[i])
    ensures SumOf(a, f) == SumOf(b, g)
  {
    if |a| > 0 {
      SumOfMapped(a[..|a| - 1], b[..|b| - 1], f, g);
    }
  }

  /** Different elements of a sequence sum to no more than all of it. */
  lemma {:induction false} SumOfPart<T>(a: seq<T>, b: seq<T>, f: T -> nat)
    requires forall i, j :: 0 <= i < j < |a| ==> a[i] != a[j]
    requires forall x :: x in a ==> x in b
    ensures SumOf(a, f) <= SumOf(b, f)
  {
    if |a| > 0 {
      var init, last := a[..|a| - 1], a[|a| - 1];
      assert last in a;
      var k :| 0 <= k < |b| && b[k] == last;
      var rest := b[..k] + b[k + 1..];
      forall x | x in init ensures x in rest {
        var i :| 0 <= i < |init| && init[i] == x;
        assert a[i] != a[|a| - 1] && a[i] in a;
        var n :| 0 <= n < |b| && b[n] == x;
        assert rest[if n < k then n else n - 1] == x;
      }
      SumOfPart(init, rest, f);
      SumOfWithout(b, k, f);
    }
  }
}
