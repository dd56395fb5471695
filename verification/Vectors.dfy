/**
 * Real vectors as sequences: sums, linear combinations of columns, the L1
 * norm, and the linear systems whose columns are dominated by their diagonal.
 */
module Vectors {
  type Vector = seq<real>

  function Sum(v: Vector): real {
    if |v| == 0 then 0.0 else Sum(v[..|v| - 1]) + v[|v| - 1]
  }

  function Zero(n: nat): (r: Vector)
    ensures |r| == n && forall i :: 0 <= i < n ==> r[i] == 0.0
  {
    seq(n, _ => 0.0)
  }

  function Add(u: Vector, v: Vector): (r: Vector)
    requires |u| == |v|
    ensures |r| == |u| && forall i :: 0 <= i < |r| ==> r[i] == u[i] + v[i]
  {
    seq(|u|, i requires 0 <= i < |u| => u[i] + v[i])
  }

  /** A product under a name, so that proofs about vectors need not multiply out. */
  function Times(a: real, b: real): real {
    a * b
  }

  function Scale(a: real, v: Vector): (r: Vector)
    ensures |r| == |v| && forall i :: 0 <= i < |r| ==> r[i] == Times(a, v[i])
  {
    seq(|v|, i requires 0 <= i < |v| => Times(a, v[i]))
  }

  function Difference(u: Vector, v: Vector): (r: Vector)
    requires |u| == |v|
    ensures |r| == |u| && forall i :: 0 <= i < |r| ==> r[i] == u[i] - v[i]
  {
    seq(|u|, i requires 0 <= i < |u| => u[i] - v[i])
  }

  function Abs(a: real): (r: real)
    ensures 0.0 <= r && (r == a || r == -a)
  {
    if a < 0.0 then -a else a
  }

  function L1(v: Vector): real {
    if |v| == 0 then 0.0 else L1(v[..|v| - 1]) + Abs(v[|v| - 1])
  }

  predicate Nonnegative(v: Vector) {
    forall i :: 0 <= i < |v| ==> 0.0 <= v[i]
  }

  predicate Distribution(v: Vector) {
    Nonnegative(v) && Sum(v) == 1.0
  }

  predicate Columns(cols: seq<Vector>, n: nat) {
    forall j :: 0 <= j < |cols| ==> |cols[j]| == n
  }

  /** The combination of the columns with coefficients `x`. */
  function Mix(x: Vector, cols: seq<Vector>, n: nat): (r: Vector)
    requires |x| == |cols| && Columns(cols, n)
    ensures |r| == n
  {
    if |x| == 0 then Zero(n)
    else Add(Mix(x[..|x| - 1], cols[..|x| - 1], n), Scale(x[|x| - 1], cols[|x| - 1]))
  }

  // ---- sums ----

  lemma {:induction false} SumAdd(u: Vector, v: Vector)
    requires |u| == |v|
    ensures Sum(Add(u, v)) == Sum(u) + Sum(v)
  {
    if |u| > 0 {
      SumAdd(u[..|u| - 1], v[..|u| - 1]);
      assert Add(u, v)[..|u| - 1] == Add(u[..|u| - 1], v[..|u| - 1]);
    }
  }

  lemma ScalePrefix(a: real, v: Vector, k: nat)
    requires k <= |v|
    ensures Scale(a, v)[..k] == Scale(a, v[..k])
  {
    hide Times;
  }

  lemma {:induction false} SumScale(a: real, v: Vector)
    ensures Sum(Scale(a, v)) == Times(a, Sum(v))
  {
    if |v| > 0 {
      hide Times;
      SumScale(a, v[..|v| - 1]);
      ScalePrefix(a, v, |v| - 1);
      Distributes(a, Sum(v[..|v| - 1]), v[|v| - 1]);
    }
  }

  lemma {:induction false} SumZero(n: nat)
    ensures Sum(Zero(n)) == 0.0 && L1(Zero(n)) == 0.0
  {
    if n > 0 {
      SumZero(n - 1);
      assert Zero(n)[..n - 1] == Zero(n - 1);
    }
  }

  lemma {:induction false} SumNonnegative(v: Vector)
    requires Nonnegative(v)
    ensures 0.0 <= Sum(v) && forall i :: 0 <= i < |v| ==> v[i] <= Sum(v)
  {
    if |v| > 0 {
      SumNonnegative(v[..|v| - 1]);
      forall i | 0 <= i < |v| ensures v[i] <= Sum(v) {
        assert i < |v| - 1 ==> v[..|v| - 1][i] == v[i];
      }
    }
  }

  lemma {:induction false} L1Bounds(v: Vector)
    ensures 0.0 <= L1(v) && Sum(v) <= L1(v)
    ensures L1(v) == Sum(v) <==> Nonnegative(v)
    ensures L1(v) == 0.0 ==> v == Zero(|v|)
  {
    if |v| > 0 {
      var init := v[..|v| - 1];
      L1Bounds(init);
      assert v == init + [v[|v| - 1]];
      assert Nonnegative(v) <==> Nonnegative(init) && 0.0 <= v[|v| - 1];
    }
  }

  lemma {:induction false} L1Triangle(u: Vector, v: Vector)
    requires |u| == |v|
    ensures L1(Add(u, v)) <= L1(u) + L1(v)
  {
    if |u| > 0 {
      L1Triangle(u[..|u| - 1], v[..|u| - 1]);
      assert Add(u, v)[..|u| - 1] == Add(u[..|u| - 1], v[..|u| - 1]);
    }
  }

  lemma {:induction false} L1Scale(a: real, v: Vector)
    ensures L1(Scale(a, v)) == Times(Abs(a), L1(v))
  {
    if |v| > 0 {
      hide Abs, Times;
      L1Scale(a, v[..|v| - 1]);
      ScalePrefix(a, v, |v| - 1);
      AbsProduct(a, v[|v| - 1]);
      Distributes(Abs(a), L1(v[..|v| - 1]), Abs(v[|v| - 1]));
    }
  }

  lemma Distributes(a: real, p: real, q: real)
    ensures Times(a, p + q) == Times(a, p) + Times(a, q) && Times(a, p - q) == Times(a, p) - Times(a, q)
    ensures Times(p + q, a) == Times(p, a) + Times(q, a) && Times(p - q, a) == Times(p, a) - Times(q, a)
  {
  }

  lemma TimesOne(a: real)
    ensures Times(a, 1.0) == a && Times(1.0, a) == a && Times(a, 0.0) == 0.0
  {
  }

  lemma AbsProduct(a: real, b: real)
    ensures Abs(Times(a, b)) == Times(Abs(a), Abs(b))
  {
    if a < 0.0 && b < 0.0 {
      assert a * b == (-a) * (-b);
    }
  }

  // ---- combinations ----

  predicate AllDistributions(cols: seq<Vector>) {
    forall j :: 0 <= j < |cols| ==> Distribution(cols[j])
  }

  /** Combining distributions moves mass but never makes or loses any. */
  lemma {:induction false} MixSum(x: Vector, cols: seq<Vector>, n: nat)
    requires |x| == |cols| && Columns(cols, n) && AllDistributions(cols)
    ensures Sum(Mix(x, cols, n)) == Sum(x)
  {
    if |x| == 0 {
      SumZero(n);
    } else {
      hide Times;
      var k := |x| - 1;
      MixSum(x[..k], cols[..k], n);
      SumAdd(Mix(x[..k], cols[..k], n), Scale(x[k], cols[k]));
      SumScale(x[k], cols[k]);
      assert Distribution(cols[k]);
      TimesOne(x[k]);
    }
  }

  lemma {:induction false} MixNonnegative(x: Vector, cols: seq<Vector>, n: nat)
    requires |x| == |cols| && Columns(cols, n) && AllDistributions(cols) && Nonnegative(x)
    ensures Nonnegative(Mix(x, cols, n))
  {
    if |x| > 0 {
      var k := |x| - 1;
      MixNonnegative(x[..k], cols[..k], n);
      forall i | 0 <= i < n ensures 0.0 <= Scale(x[k], cols[k])[i] {
        assert 0.0 <= x[k] && 0.0 <= cols[k][i];
      }
    }
  }

  lemma {:induction false} MixL1(x: Vector, cols: seq<Vector>, n: nat)
    requires |x| == |cols| && Columns(cols, n) && AllDistributions(cols)
    ensures L1(Mix(x, cols, n)) <= L1(x)
  {
    hide Times;
    if |x| == 0 {
      SumZero(n);
    } else {
      var k := |x| - 1;
      MixL1(x[..k], cols[..k], n);
      L1Triangle(Mix(x[..k], cols[..k], n), Scale(x[k], cols[k]));
      assert L1(Scale(x[k], cols[k])) == Abs(x[k]) by {
        L1Bounds(cols[k]);
        L1Scale(x[k], cols[k]);
        assert Distribution(cols[k]);
        TimesOne(Abs(x[k]));
      }
    }
  }

  lemma {:induction false} MixDifference(x: Vector, y: Vector, cols: seq<Vector>, n: nat)
    requires |x| == |cols| && |y| == |cols| && Columns(cols, n)
    ensures Mix(Difference(x, y), cols, n) == Difference(Mix(x, cols, n), Mix(y, cols, n))
  {
    if |x| > 0 {
      hide Times;
      var k := |x| - 1;
      MixDifference(x[..k], y[..k], cols[..k], n);
      assert Difference(x, y)[..k] == Difference(x[..k], y[..k]);
      ScaledDifference(Mix(x[..k], cols[..k], n), Mix(y[..k], cols[..k], n), x[k], y[k], cols[k]);
    }
  }

  lemma ScaledDifference(p: Vector, q: Vector, a: real, b: real, c: Vector)
    requires |p| == |q| == |c|
    ensures Add(Difference(p, q), Scale(a - b, c)) == Difference(Add(p, Scale(a, c)), Add(q, Scale(b, c)))
  {
    hide Times;
    forall i | 0 <= i < |c| ensures Times(a - b, c[i]) == Times(a, c[i]) - Times(b, c[i]) {
      Distributes(c[i], a, b);
    }
  }

  // ---- linear systems ----

  /** Off-diagonal entries never positive, every column sum positive. */
  ghost predicate Dominant(a: seq<Vector>) {
    && Columns(a, |a|)
    && (forall j :: 0 <= j < |a| ==> 0.0 < Sum(a[j]))
    && (forall i, j :: 0 <= i < |a| && 0 <= j < |a| && i != j ==> a[j][i] <= 0.0)
  }

  /** Column `c` after its last row was cleared against `pivot`. */
  function Cleared(c: Vector, pivot: Vector): (r: Vector)
    requires |c| == |pivot| > 0 && pivot[|pivot| - 1] != 0.0
    ensures |r| == |c| - 1
  {
    var last := |c| - 1;
    Difference(c, Scale(c[last] / pivot[last], pivot))[..last]
  }

  function ClearedAll(a: seq<Vector>, pivot: Vector): (r: seq<Vector>)
    requires |pivot| > 0 && pivot[|pivot| - 1] != 0.0 && Columns(a, |pivot|)
    ensures |r| == |a| && Columns(r, |pivot| - 1)
    ensures forall j :: 0 <= j < |r| ==> r[j] == Cleared(a[j], pivot)
  {
    seq(|a|, j requires 0 <= j < |a| => Cleared(a[j], pivot))
  }

  lemma PivotIsPositive(a: seq<Vector>)
    requires Dominant(a) && |a| > 0
    ensures Columns(a, |a|) && 0.0 < a[|a| - 1][|a| - 1]
  {
    var last := |a| - 1;
    NonpositiveSum(a[last][..last]);
  }

  lemma {:induction false} NonpositiveSum(v: Vector)
    requires forall i :: 0 <= i < |v| ==> v[i] <= 0.0
    ensures Sum(v) <= 0.0
  {
    if |v| > 0 {
      NonpositiveSum(v[..|v| - 1]);
    }
  }

  lemma SumDifference(u: Vector, v: Vector)
    requires |u| == |v|
    ensures Sum(Difference(u, v)) == Sum(u) - Sum(v)
  {
    SumAdd(Difference(u, v), v);
    assert Add(Difference(u, v), v) == u;
  }

  /** Elimination keeps the signs and the positive column sums. */
  lemma EliminationStaysDominant(a: seq<Vector>)
    requires Dominant(a) && |a| > 0 && 0.0 < a[|a| - 1][|a| - 1]
    ensures Dominant(ClearedAll(a[..|a| - 1], a[|a| - 1]))
  {
    hide Times, Cleared;
    var last := |a| - 1;
    var pivot := a[last];
    var r := ClearedAll(a[..last], pivot);
    forall j | 0 <= j < last ensures 0.0 < Sum(r[j]) {
      ClearedSum(a[j], pivot);
    }
    forall i, j | 0 <= i < last && 0 <= j < last && i != j ensures r[j][i] <= 0.0 {
      ClearedAt(a[j], pivot, i);
      SignOfProduct(a[j][last], pivot[i], pivot[last]);
    }
  }

  lemma SignOfProduct(x: real, y: real, p: real)
    requires x <= 0.0 && y <= 0.0 && 0.0 < p
    ensures 0.0 <= Times(x / p, y) && x / p <= 0.0
  {
    assert x / p <= 0.0;
    assert x / p * y == (-(x / p)) * (-y);
  }

  lemma ClearedSum(c: Vector, pivot: Vector)
    requires |c| == |pivot| > 0 && 0.0 < pivot[|pivot| - 1] && c[|c| - 1] <= 0.0
    requires 0.0 < Sum(c) && 0.0 < Sum(pivot)
    ensures 0.0 < Sum(Cleared(c, pivot))
  {
    hide Times;
    var last := |c| - 1;
    var ratio := c[last] / pivot[last];
    var whole := Difference(c, Scale(ratio, pivot));
    assert whole[last] == 0.0 by {
      QuotientTimes(c[last], pivot[last]);
    }
    assert Sum(Cleared(c, pivot)) == Sum(whole);
    assert Sum(whole) == Sum(c) - Times(ratio, Sum(pivot)) by {
      SumDifference(c, Scale(ratio, pivot));
      SumScale(ratio, pivot);
    }
    SignOfProduct(c[last], 0.0, pivot[last]);
    NegativeTimes(ratio, Sum(pivot));
  }

  lemma QuotientTimes(x: real, p: real)
    requires p != 0.0
    ensures Times(x / p, p) == x
  {
  }

  lemma NegativeTimes(x: real, y: real)
    requires x <= 0.0 && 0.0 <= y
    ensures Times(x, y) <= 0.0
  {
  }

  /** Clearing is linear: the combination of cleared columns is the combination cleared. */
  lemma {:induction false} MixCleared(x: Vector, a: seq<Vector>, pivot: Vector)
    requires |x| == |a| && |pivot| > 0 && pivot[|pivot| - 1] != 0.0 && Columns(a, |pivot|)
    ensures Mix(x, ClearedAll(a, pivot), |pivot| - 1) == Cleared(Mix(x, a, |pivot|), pivot)
  {
    var n := |pivot|;
    if |x| == 0 {
      ClearedZero(pivot);
    } else {
      var k := |x| - 1;
      MixCleared(x[..k], a[..k], pivot);
      assert ClearedAll(a, pivot)[..k] == ClearedAll(a[..k], pivot);
      ClearedSumOf(Mix(x[..k], a[..k], n), x[k], a[k], pivot);
    }
  }

  lemma ClearedZero(pivot: Vector)
    requires |pivot| > 0 && pivot[|pivot| - 1] != 0.0
    ensures Cleared(Zero(|pivot|), pivot) == Zero(|pivot| - 1)
  {
    var n := |pivot|;
    assert 0.0 / pivot[n - 1] == 0.0;
  }

  lemma ClearedSumOf(m: Vector, x: real, c: Vector, pivot: Vector)
    requires |m| == |c| == |pivot| > 0 && pivot[|pivot| - 1] != 0.0
    ensures Cleared(Add(m, Scale(x, c)), pivot) == Add(Cleared(m, pivot), Scale(x, Cleared(c, pivot)))
  {
    hide Cleared, Times;
    var left, right := Cleared(Add(m, Scale(x, c)), pivot), Add(Cleared(m, pivot), Scale(x, Cleared(c, pivot)));
    var last := |m| - 1;
    forall i | 0 <= i < last ensures left[i] == right[i] {
      ClearedAt(Add(m, Scale(x, c)), pivot, i);
      ClearedAt(m, pivot, i);
      ClearedAt(c, pivot, i);
      ClearedEntry(m[i], m[last], x, c[i], c[last], pivot[i], pivot[last]);
    }
  }

  lemma ClearedAt(c: Vector, pivot: Vector, i: nat)
    requires |c| == |pivot| && i < |c| - 1 && pivot[|pivot| - 1] != 0.0
    ensures Cleared(c, pivot)[i] == c[i] - Times(c[|c| - 1] / pivot[|c| - 1], pivot[i])
  {
  }

  lemma ClearedEntry(mi: real, ml: real, x: real, ci: real, cl: real, pi: real, pl: real)
    requires pl != 0.0
    ensures (mi + Times(x, ci)) - Times((ml + Times(x, cl)) / pl, pi)
      == (mi - Times(ml / pl, pi)) + Times(x, ci - Times(cl / pl, pi))
  {
    assert (ml + x * cl) / pl == ml / pl + x * (cl / pl);
  }

  /** The system left when the last unknown is eliminated. */
  function Reduced(a: seq<Vector>): (r: seq<Vector>)
    requires |a| > 0 && Columns(a, |a|) && a[|a| - 1][|a| - 1] != 0.0
    ensures |r| == |a| - 1 && Columns(r, |a| - 1)
  {
    ClearedAll(a[..|a| - 1], a[|a| - 1])
  }

  lemma ReducedIsDominant(a: seq<Vector>)
    requires Dominant(a) && |a| > 0
    ensures Columns(a, |a|) && a[|a| - 1][|a| - 1] != 0.0 && Dominant(Reduced(a))
  {
    PivotIsPositive(a);
    EliminationStaysDominant(a);
  }

  /** The eliminated unknown, from the others and the last equation. */
  function LastUnknown(a: seq<Vector>, b: Vector, y: Vector): real
    requires |a| > 0 && Columns(a, |a|) && a[|a| - 1][|a| - 1] != 0.0 && |y| + 1 == |a| == |b|
  {
    (b[|y|] - Mix(y, a[..|y|], |a|)[|y|]) / a[|y|][|y|]
  }

  /** Every dominant system has a solution, found by elimination. */
  lemma {:induction false} Solve(a: seq<Vector>, b: Vector) returns (x: Vector)
    requires Dominant(a) && |b| == |a|
    ensures |x| == |a| && Columns(a, |a|) && Mix(x, a, |a|) == b
    decreases |a|
  {
    if |a| == 0 {
      x := [];
    } else {
      hide *;
      ReducedIsDominant(a);
      var y := Solve(Reduced(a), Cleared(b, a[|a| - 1]));
      PutBack(a, b, y);
      x := y + [LastUnknown(a, b, y)];
    }
  }

  lemma MixAppended(y: Vector, z: real, a: seq<Vector>)
    requires |y| + 1 == |a| && Columns(a, |a|)
    ensures Mix(y + [z], a, |a|) == Add(Mix(y, a[..|y|], |a|), Scale(z, a[|y|]))
  {
    assert (y + [z])[..|y|] == y;
  }

  lemma PutBack(a: seq<Vector>, b: Vector, y: Vector)
    requires |a| > 0 && Columns(a, |a|) && a[|a| - 1][|a| - 1] != 0.0 && |y| + 1 == |a| == |b|
    requires Mix(y, Reduced(a), |a| - 1) == Cleared(b, a[|a| - 1])
    ensures Mix(y + [LastUnknown(a, b, y)], a, |a|) == b
  {
    hide Mix, Cleared, Times, ClearedAll;
    var pivot := a[|y|];
    MixCleared(y, a[..|y|], pivot);
    var m := Mix(y, a[..|y|], |a|);
    MixAppended(y, LastUnknown(a, b, y), a);
    BackSubstitution(m, b, pivot, LastUnknown(a, b, y));
  }

  lemma BackSubstitution(m: Vector, b: Vector, pivot: Vector, z: real)
    requires |m| == |b| == |pivot| > 0 && pivot[|pivot| - 1] != 0.0
    requires Cleared(m, pivot) == Cleared(b, pivot)
    requires z == (b[|b| - 1] - m[|b| - 1]) / pivot[|b| - 1]
    ensures Add(m, Scale(z, pivot)) == b
  {
    hide Cleared, Times;
    var last := |b| - 1;
    forall i | 0 <= i < |b| ensures Add(m, Scale(z, pivot))[i] == b[i] {
      if i < last {
        ClearedAt(m, pivot, i);
        ClearedAt(b, pivot, i);
        SubstitutedEntry(m[i], m[last], b[i], b[last], pivot[i], pivot[last]);
      } else {
        QuotientTimes(b[last] - m[last], pivot[last]);
      }
    }
  }

  lemma SubstitutedEntry(mi: real, ml: real, bi: real, bl: real, pi: real, pl: real)
    requires pl != 0.0 && mi - Times(ml / pl, pi) == bi - Times(bl / pl, pi)
    ensures mi + Times((bl - ml) / pl, pi) == bi
  {
    assert (bl - ml) / pl == bl / pl - ml / pl;
  }
}
