/**
 * Stable sorting by a comparison, as the library sorts of the originals do it,
 * and when the sorted order is the only one possible.
 */
module Sorting {
  /** An element goes before the first later one it may precede. */
  function Insert<T(!new)>(x: T, s: seq<T>, le: (T, T) -> bool): (r: seq<T>)
    ensures |r| == |s| + 1
    ensures forall y :: y in r <==> y == x || y in s
  {
    if |s| == 0 || le(x, s[0]) then [x] + s else [s[0]] + Insert(x, s[1..], le)
  }

  function Sorted<T(!new)>(s: seq<T>, le: (T, T) -> bool): (r: seq<T>)
    ensures |r| == |s|
    ensures forall y :: y in r <==> y in s
  {
    if |s| == 0 then [] else Insert(s[0], Sorted(s[1..], le), le)
  }

  ghost predicate InOrder<T>(s: seq<T>, le: (T, T) -> bool) {
    forall i, j :: 0 <= i < j < |s| ==> le(s[i], s[j])
  }

  ghost predicate TotalOrder<T(!new)>(le: (T, T) -> bool) {
    && (forall a, b :: le(a, b) || le(b, a))
    && (forall a, b, c :: le(a, b) && le(b, c) ==> le(a, c))
  }

  lemma {:induction false} InsertInOrder<T(!new)>(x: T, s: seq<T>, le: (T, T) -> bool)
    requires InOrder(s, le) && TotalOrder(le)
    ensures InOrder(Insert(x, s, le), le)
  {
    if |s| > 0 {
      if le(x, s[0]) {
        forall j | 0 <= j < |s| ensures le(x, s[j]) {
          assert j == 0 || le(s[0], s[j]);
        }
      } else {
        InsertInOrder(x, s[1..], le);
        var rest := Insert(x, s[1..], le);
        forall j | 0 <= j < |rest| ensures le(s[0], rest[j]) {
          assert rest[j] in rest;
          assert rest[j] == x || rest[j] in s[1..];
        }
      }
    }
  }

  lemma {:induction false} SortedInOrder<T(!new)>(s: seq<T>, le: (T, T) -> bool)
    requires TotalOrder(le)
    ensures InOrder(Sorted(s, le), le)
  {
    if |s| > 0 {
      SortedInOrder(s[1..], le);
      InsertInOrder(s[0], Sorted(s[1..], le), le);
    }
  }

  lemma {:induction false} InsertAdds<T(!new)>(x: T, s: seq<T>, le: (T, T) -> bool)
    ensures multiset(Insert(x, s, le)) == multiset(s) + multiset{x}
  {
    if |s| > 0 && !le(x, s[0]) {
      InsertAdds(x, s[1..], le);
      assert s == [s[0]] + s[1..];
    }
  }

  lemma {:induction false} SortedPermutes<T(!new)>(s: seq<T>, le: (T, T) -> bool)
    ensures multiset(Sorted(s, le)) == multiset(s)
  {
    if |s| > 0 {
      SortedPermutes(s[1..], le);
      InsertAdds(s[0], Sorted(s[1..], le), le);
      assert s == [s[0]] + s[1..];
    }
  }

  /** The order decides between any two different elements of `s`. */
  ghost predicate Decides<T(!new)>(s: seq<T>, le: (T, T) -> bool) {
    forall a, b :: a in s && b in s && le(a, b) && le(b, a) ==> a == b
  }

  /** Then the elements alone determine the ordered sequence. */
  lemma {:induction false} OrderedIsUnique<T(!new)>(a: seq<T>, b: seq<T>, le: (T, T) -> bool)
    requires InOrder(a, le) && InOrder(b, le) && Decides(a, le) && multiset(a) == multiset(b)
    ensures a == b
  {
    if |a| == 0 {
      assert |multiset(b)| == 0;
    } else {
      assert |multiset(a)| == |a| && |multiset(b)| == |b|;
      assert a[0] in multiset(b) && b[0] in multiset(a);
      assert a[0] == b[0] by {
        FirstIsLeast(a, b[0], le);
        FirstIsLeast(b, a[0], le);
      }
      assert a == [a[0]] + a[1..] && b == [b[0]] + b[1..];
      assert multiset(a[1..]) == multiset(a) - multiset{a[0]};
      assert multiset(b[1..]) == multiset(b) - multiset{b[0]};
      OrderedIsUnique(a[1..], b[1..], le);
    }
  }

  lemma FirstIsLeast<T(!new)>(s: seq<T>, x: T, le: (T, T) -> bool)
    requires InOrder(s, le) && x in s
    ensures x == s[0] || le(s[0], x)
  {
  }

  /** So two sequences sort alike exactly when they hold the same elements equally often. */
  lemma SortedAlike<T(!new)>(a: seq<T>, b: seq<T>, le: (T, T) -> bool)
    requires TotalOrder(le) && Decides(a, le)
    ensures Sorted(a, le) == Sorted(b, le) <==> multiset(a) == multiset(b)
  {
    SortedPermutes(a, le);
    SortedPermutes(b, le);
    if multiset(a) == multiset(b) {
      SortedInOrder(a, le);
      SortedInOrder(b, le);
      OrderedIsUnique(Sorted(a, le), Sorted(b, le), le);
    }
  }

  ghost predicate NoRepeats<T>(s: seq<T>) {
    forall i, j :: 0 <= i < j < |s| ==> s[i] != s[j]
  }

  lemma {:induction false} OnceEach<T>(s: seq<T>, x: T)
    requires NoRepeats(s)
    ensures multiset(s)[x] == if x in s then 1 else 0
  {
    if |s| > 0 {
      OnceEach(s[1..], x);
      assert s == [s[0]] + s[1..];
    }
  }

  lemma SameElements<T(!new)>(a: seq<T>, b: seq<T>)
    requires NoRepeats(a) && NoRepeats(b) && forall x :: x in a <==> x in b
    ensures multiset(a) == multiset(b)
  {
    forall x: T ensures multiset(a)[x] == multiset(b)[x] {
      OnceEach(a, x);
      OnceEach(b, x);
    }
  }

  lemma SortedNoRepeats<T(!new)>(s: seq<T>, le: (T, T) -> bool)
    requires NoRepeats(s)
    ensures NoRepeats(Sorted(s, le))
  {
    var r := Sorted(s, le);
    SortedPermutes(s, le);
    forall i, j | 0 <= i < j < |r| ensures r[i] != r[j] {
      OnceEach(s, r[j]);
      assert r == r[..j] + r[j..];
      assert r[i] in r[..j] && r[j] in r[j..];
    }
  }
}
