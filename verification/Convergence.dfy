/**
 * What the PageRank iteration of backend/src/authority.rs guarantees: every
 * iterate is a distribution that keeps the teleport share, the round contracts
 * distances by the damping factor, and forty rounds end next to the one fixed
 * point there is, wherever they start.
 */
module Convergence {
  import opened Vectors
  import opened PageRank

  // ---- the inputs of a round are distributions ----

  lemma {:induction false} TotalWeightGrows(links: seq<Link>, n: nat)
    requires LinksWithin(links, n)
    ensures 0.0 <= TotalWeight(links)
  {
    if |links| > 0 {
      TotalWeightGrows(links[..|links| - 1], n);
    }
  }

  lemma Quotients(a: real, p: real)
    requires 0.0 < p
    ensures p / p == 1.0 && a / p == Times(1.0 / p, a) && (0.0 <= a ==> 0.0 <= a / p)
  {
  }

  lemma QuotientOfSum(a: real, b: real, p: real)
    requires 0.0 < p
    ensures (a + b) / p == a / p + b / p && 0.0 / p == 0.0
  {
  }

  lemma TotalWeightStep(links: seq<Link>)
    requires |links| > 0
    ensures TotalWeight(links) == TotalWeight(links[..|links| - 1]) + links[|links| - 1].weight
  {
  }

  lemma {:induction false} SpreadIsFair(links: seq<Link>, total: real, n: nat)
    requires LinksWithin(links, n) && total > 0.0
    ensures Nonnegative(Spread(links, total, n)) && Sum(Spread(links, total, n)) == TotalWeight(links) / total
  {
    if |links| == 0 {
      SumZero(n);
      QuotientOfSum(0.0, 0.0, total);
    } else {
      hide TotalWeight, Times;
      assert TotalWeight(links) == TotalWeight(links[..|links| - 1]) + links[|links| - 1].weight by {
        TotalWeightStep(links);
      }
      var init, link := links[..|links| - 1], links[|links| - 1];
      SpreadIsFair(init, total, n);
      var r := Spread(init, total, n);
      Quotients(link.weight, total);
      SumUpdated(r, link.target, link.weight / total);
      QuotientOfSum(TotalWeight(init), link.weight, total);
    }
  }

  lemma {:induction false} SumUpdated(v: Vector, i: nat, d: real)
    requires i < |v|
    ensures Sum(v[i := v[i] + d]) == Sum(v) + d
  {
    var u := v[i := v[i] + d];
    var k := |v| - 1;
    if i == k {
      assert u[..k] == v[..k];
    } else {
      SumUpdated(v[..k], i, d);
      assert u[..k] == v[..k][i := v[..k][i] + d];
    }
  }

  lemma ColumnIsDistribution(teleport: Vector, links: seq<Link>)
    requires LinksWithin(links, |teleport|) && Distribution(teleport)
    ensures Distribution(Column(teleport, links))
  {
    var total := TotalWeight(links);
    if total > EPSILON {
      SpreadIsFair(links, total, |teleport|);
      Quotients(total, total);
    }
  }

  lemma {:induction false} SumUniform(n: nat, a: real)
    ensures Sum(seq(n, _ => a)) == n as real * a
  {
    if n > 0 {
      SumUniform(n - 1, a);
      assert seq(n, _ => a)[..n - 1] == seq(n - 1, _ => a);
      assert n as real * a == (n - 1) as real * a + a;
    }
  }

  lemma NormalisedIsDistribution(v: Vector)
    requires |v| > 0 && Nonnegative(v)
    ensures Distribution(NormaliseOrUniform(v))
  {
    hide Times;
    var total := Sum(v);
    if total <= EPSILON {
      UniformIsDistribution(|v|);
    } else {
      DividedIsDistribution(v, total);
    }
  }

  lemma UniformIsDistribution(n: nat)
    requires n > 0
    ensures Distribution(seq(n, _ => 1.0 / n as real))
  {
    SumUniform(n, 1.0 / n as real);
  }

  lemma DividedIsDistribution(v: Vector, total: real)
    requires Nonnegative(v) && total == Sum(v) > 0.0
    ensures Distribution(seq(|v|, i requires 0 <= i < |v| => v[i] / total))
  {
    hide Times;
    var r := seq(|v|, i requires 0 <= i < |v| => v[i] / total);
    forall i | 0 <= i < |v| ensures r[i] == Scale(1.0 / total, v)[i] && 0.0 <= r[i] {
      Quotients(v[i], total);
    }
    assert r == Scale(1.0 / total, v);
    SumScale(1.0 / total, v);
    Quotients(total, total);
  }

  /** Normalising what already sums to one changes nothing. */
  lemma NormalisedDistribution(v: Vector)
    requires |v| > 0 && Distribution(v)
    ensures NormaliseOrUniform(v) == v
  {
    assert EPSILON < 1.0;
  }

  lemma TransitionsOf(ids: seq<string>, edges: seq<Edge>, weights: map<string, real>)
    requires |ids| > 0
    ensures var t := Teleport(ids, weights); Transitions(t, ColumnsOf(t, Outgoing(ids, edges)))
  {
    var t := Teleport(ids, weights);
    NormalisedIsDistribution(RawTeleport(ids, weights));
    var cols := ColumnsOf(t, Outgoing(ids, edges));
    forall s | 0 <= s < |cols| ensures Distribution(cols[s]) {
      ColumnIsDistribution(t, Outgoing(ids, edges)[s]);
    }
  }

  // ---- one round ----

  /** Dangling mass included, a round loses nothing and every node keeps its teleport share. */
  lemma AdvanceIsDistribution(t: Vector, cols: seq<Vector>, x: Vector)
    requires Transitions(t, cols) && |x| == |t| && Distribution(x)
    ensures Distribution(Advance(t, cols, x))
    ensures forall i :: 0 <= i < |x| ==> 0.15 * t[i] <= Advance(t, cols, x)[i]
  {
    AdvanceKeepsSum(t, cols, x);
    var m := Mix(x, cols, |t|);
    MixNonnegative(x, cols, |t|);
    forall i | 0 <= i < |x|
      ensures 0.15 * t[i] <= Advance(t, cols, x)[i] && 0.0 <= Advance(t, cols, x)[i]
    {
      assert 0.0 <= m[i] && 0.0 <= t[i];
    }
  }

  lemma Damped(a: real)
    ensures Times(DAMPING, a) == 0.85 * a && Times(1.0 - DAMPING, a) == 0.15 * a
  {
  }

  lemma AdvanceKeepsSum(t: Vector, cols: seq<Vector>, x: Vector)
    requires Transitions(t, cols) && |x| == |t|
    ensures Sum(Advance(t, cols, x)) == 0.15 + 0.85 * Sum(x)
  {
    hide Times, Mix, AllDistributions;
    var m := Mix(x, cols, |t|);
    MixSum(x, cols, |t|);
    SumAdd(Scale(1.0 - DAMPING, t), Scale(DAMPING, m));
    SumScale(1.0 - DAMPING, t);
    SumScale(DAMPING, m);
    Damped(Sum(t));
    Damped(Sum(m));
  }

  /** The round is a contraction in the L1 norm, for vectors of any kind. */
  lemma AdvanceContracts(t: Vector, cols: seq<Vector>, x: Vector, y: Vector)
    requires Transitions(t, cols) && |x| == |t| == |y|
    ensures L1(Difference(Advance(t, cols, x), Advance(t, cols, y))) <= 0.85 * L1(Difference(x, y))
  {
    hide Times, Mix, AllDistributions;
    var d := Difference(x, y);
    var n := |t|;
    MixDifference(x, y, cols, n);
    MixL1(d, cols, n);
    L1Scale(DAMPING, Mix(d, cols, n));
    var moved := Difference(Advance(t, cols, x), Advance(t, cols, y));
    forall i | 0 <= i < n ensures moved[i] == Scale(DAMPING, Mix(d, cols, n))[i] {
      Distributes(DAMPING, Mix(x, cols, n)[i], Mix(y, cols, n)[i]);
    }
    assert moved == Scale(DAMPING, Mix(d, cols, n));
    Damped(L1(Mix(d, cols, n)));
  }

  // ---- the whole iteration ----

  lemma {:induction false} IteratesAreDistributions(t: Vector, cols: seq<Vector>, start: Vector, rounds: nat)
    requires Transitions(t, cols) && |start| == |t| && Distribution(start)
    ensures Distribution(Iterated(t, cols, start, rounds))
    ensures rounds > 0 ==>
      Iterated(t, cols, start, rounds) == Advance(t, cols, Iterated(t, cols, start, rounds - 1))
    ensures rounds > 0 ==>
      forall i :: 0 <= i < |t| ==> 0.15 * t[i] <= Iterated(t, cols, start, rounds)[i]
  {
    if rounds > 0 {
      var before, now := Iterated(t, cols, start, rounds - 1), Iterated(t, cols, start, rounds);
      assert now == NormaliseOrUniform(Advance(t, cols, before));
      IteratesAreDistributions(t, cols, start, rounds - 1);
      hide *;
      RoundIsDistribution(t, cols, before, now);
    }
  }

  lemma RoundIsDistribution(t: Vector, cols: seq<Vector>, before: Vector, now: Vector)
    requires Transitions(t, cols) && |before| == |t| && Distribution(before)
    requires now == NormaliseOrUniform(Advance(t, cols, before))
    ensures Distribution(now) && now == Advance(t, cols, before)
    ensures forall i :: 0 <= i < |t| ==> 0.15 * t[i] <= now[i]
  {
    hide Advance, Distribution, NormaliseOrUniform, AllDistributions;
    AdvanceIsDistribution(t, cols, before);
    NormalisedDistribution(Advance(t, cols, before));
  }

  function Power(a: real, k: nat): real {
    if k == 0 then 1.0 else a * Power(a, k - 1)
  }

  lemma PowerStep(k: nat)
    requires k > 0
    ensures Power(DAMPING, k) == 0.85 * Power(DAMPING, k - 1)
  {
  }

  lemma ScaledBound(a: real, p: real, q: real)
    requires 0.0 <= a && p <= q
    ensures a * p <= a * q
  {
  }

  /** Two starting distributions are pulled together round by round. */
  lemma {:induction false} StartsConverge(t: Vector, cols: seq<Vector>, x: Vector, y: Vector, rounds: nat)
    requires Transitions(t, cols) && |x| == |t| == |y| && Distribution(x) && Distribution(y)
    ensures L1(Difference(Iterated(t, cols, x, rounds), Iterated(t, cols, y, rounds))) <= Power(DAMPING, rounds) * 2.0
  {
    if rounds == 0 {
      DistributionsAreNear(x, y);
    } else {
      hide Iterated, Advance, Distribution, AllDistributions, Power;
      PowerStep(rounds);
      StartsConverge(t, cols, x, y, rounds - 1);
      IteratesAreDistributions(t, cols, x, rounds);
      IteratesAreDistributions(t, cols, y, rounds);
      var a, b := Iterated(t, cols, x, rounds - 1), Iterated(t, cols, y, rounds - 1);
      AdvanceContracts(t, cols, a, b);
    }
  }

  lemma DistributionsAreNear(x: Vector, y: Vector)
    requires |x| == |y| && Distribution(x) && Distribution(y)
    ensures L1(Difference(x, y)) <= 2.0
  {
    var negated := Scale(-1.0, y);
    L1Triangle(x, negated);
    L1Scale(-1.0, y);
    L1Bounds(x);
    L1Bounds(y);
    assert Difference(x, y) == Add(x, negated);
  }

  // ---- the fixed point ----

  predicate FixedPoint(t: Vector, cols: seq<Vector>, x: Vector) {
    |x| == |cols| == |t| && Columns(cols, |t|) && Advance(t, cols, x) == x
  }

  /** The columns of the identity minus the damped transitions. */
  function Residual(c: Vector, j: nat): (r: Vector)
    requires j < |c|
    ensures |r| == |c|
    ensures forall i :: 0 <= i < |r| ==> r[i] == (if i == j then 1.0 else 0.0) - Times(DAMPING, c[i])
  {
    seq(|c|, i requires 0 <= i < |c| => (if i == j then 1.0 else 0.0) - Times(DAMPING, c[i]))
  }

  function Residuals(cols: seq<Vector>, n: nat): (r: seq<Vector>)
    requires Columns(cols, n) && |cols| <= n
    ensures |r| == |cols| && Columns(r, n)
    ensures forall j :: 0 <= j < |r| ==> r[j] == Residual(cols[j], j)
  {
    seq(|cols|, j requires 0 <= j < |cols| => Residual(cols[j], j))
  }

  lemma ResidualSum(c: Vector, j: nat)
    requires j < |c| && Distribution(c)
    ensures Sum(Residual(c, j)) == 0.15
  {
    var unit := Zero(|c|)[j := Zero(|c|)[j] + 1.0];
    SumZero(|c|);
    SumUpdated(Zero(|c|), j, 1.0);
    SumScale(DAMPING, c);
    SumDifference(unit, Scale(DAMPING, c));
    assert Residual(c, j) == Difference(unit, Scale(DAMPING, c));
  }

  lemma ResidualsAreDominant(t: Vector, cols: seq<Vector>)
    requires Transitions(t, cols)
    ensures Dominant(Residuals(cols, |t|))
  {
    var r := Residuals(cols, |t|);
    forall j | 0 <= j < |r| ensures 0.0 < Sum(r[j]) {
      ResidualSum(cols[j], j);
    }
    forall i, j | 0 <= i < |r| && 0 <= j < |r| && i != j ensures r[j][i] <= 0.0 {
      assert 0.0 <= cols[j][i];
    }
  }

  /** `x` padded with zeros to length `n`. */
  function Padded(x: Vector, n: nat): (r: Vector)
    requires |x| <= n
    ensures |r| == n && forall i :: 0 <= i < n ==> r[i] == if i < |x| then x[i] else 0.0
  {
    x + Zero(n - |x|)
  }

  lemma {:induction false} MixResiduals(x: Vector, cols: seq<Vector>, n: nat)
    requires |x| == |cols| <= n && Columns(cols, n)
    ensures Mix(x, Residuals(cols, n), n) == Difference(Padded(x, n), Scale(DAMPING, Mix(x, cols, n)))
  {
    hide Times;
    if |x| == 0 {
      TimesOne(DAMPING);
    } else {
      var k := |x| - 1;
      MixResiduals(x[..k], cols[..k], n);
      assert Residuals(cols, n)[..k] == Residuals(cols[..k], n);
      ResidualStep(x[..k], Mix(x[..k], cols[..k], n), x[k], cols[k]);
      assert x[..k] + [x[k]] == x;
    }
  }

  lemma ResidualStep(earlier: Vector, m: Vector, a: real, c: Vector)
    requires |earlier| < |c| == |m|
    ensures Add(Difference(Padded(earlier, |c|), Scale(DAMPING, m)), Scale(a, Residual(c, |earlier|)))
      == Difference(Padded(earlier + [a], |c|), Scale(DAMPING, Add(m, Scale(a, c))))
  {
    hide Times;
    var j := |earlier|;
    forall i | 0 <= i < |c|
      ensures Times(a, (if i == j then 1.0 else 0.0) - Times(DAMPING, c[i]))
        == (if i == j then a else 0.0) - Times(DAMPING, Times(a, c[i]))
    {
      Regroup(a, if i == j then 1.0 else 0.0, c[i]);
      TimesOne(a);
    }
    forall i | 0 <= i < |c|
      ensures Times(DAMPING, m[i] + Times(a, c[i])) == Times(DAMPING, m[i]) + Times(DAMPING, Times(a, c[i]))
    {
      Distributes(DAMPING, m[i], Times(a, c[i]));
    }
  }

  lemma Regroup(a: real, e: real, c: real)
    ensures Times(a, e - Times(DAMPING, c)) == Times(a, e) - Times(DAMPING, Times(a, c))
  {
  }

  /** There is a fixed point, and it is a distribution. */
  lemma FixedPointExists(t: Vector, cols: seq<Vector>) returns (x: Vector)
    requires Transitions(t, cols)
    ensures FixedPoint(t, cols, x) && Distribution(x)
  {
    var n := |t|;
    ResidualsAreDominant(t, cols);
    x := Solve(Residuals(cols, n), Scale(1.0 - DAMPING, t));
    MixResiduals(x, cols, n);
    assert Padded(x, n) == x;
    forall i | 0 <= i < n ensures Advance(t, cols, x)[i] == x[i] {
      assert Scale(1.0 - DAMPING, t)[i] == Difference(x, Scale(DAMPING, Mix(x, cols, n)))[i];
    }
    FixedPointIsDistribution(t, cols, x);
  }

  lemma FixedPointIsDistribution(t: Vector, cols: seq<Vector>, x: Vector)
    requires Transitions(t, cols) && FixedPoint(t, cols, x)
    ensures Distribution(x)
  {
    AdvanceKeepsSum(t, cols, x);
    var m := Mix(x, cols, |t|);
    L1Triangle(Scale(1.0 - DAMPING, t), Scale(DAMPING, m));
    L1Scale(1.0 - DAMPING, t);
    L1Scale(DAMPING, m);
    L1Bounds(t);
    MixL1(x, cols, |t|);
    L1Bounds(x);
  }

  /** ... and there is no second one. */
  lemma FixedPointIsUnique(t: Vector, cols: seq<Vector>, x: Vector, y: Vector)
    requires Transitions(t, cols) && FixedPoint(t, cols, x) && FixedPoint(t, cols, y)
    ensures x == y
  {
    AdvanceContracts(t, cols, x, y);
    L1Bounds(Difference(x, y));
    assert Difference(x, y) == Zero(|t|);
    forall i | 0 <= i < |x| ensures x[i] == y[i] {
      assert Difference(x, y)[i] == 0.0;
    }
  }

  lemma {:induction false} FixedPointStays(t: Vector, cols: seq<Vector>, x: Vector, rounds: nat)
    requires Transitions(t, cols) && FixedPoint(t, cols, x) && Distribution(x)
    ensures Iterated(t, cols, x, rounds) == x
  {
    if rounds > 0 {
      FixedPointStays(t, cols, x, rounds - 1);
      NormalisedDistribution(x);
    }
  }

  /**
   * The result of the iteration, from any starting distribution: within
   * 2 * 0.85^rounds of the unique fixed point.
   */
  lemma ResultIsNearFixedPoint(t: Vector, cols: seq<Vector>, start: Vector, rounds: nat) returns (limit: Vector)
    requires Transitions(t, cols) && |start| == |t| && Distribution(start)
    ensures FixedPoint(t, cols, limit) && Distribution(limit)
    ensures forall other :: FixedPoint(t, cols, other) ==> other == limit
    ensures L1(Difference(Iterated(t, cols, start, rounds), limit)) <= Power(DAMPING, rounds) * 2.0
  {
    limit := FixedPointExists(t, cols);
    StartsConverge(t, cols, start, limit, rounds);
    FixedPointStays(t, cols, limit, rounds);
    forall other | FixedPoint(t, cols, other) ensures other == limit {
      FixedPointIsUnique(t, cols, other, limit);
    }
  }

  lemma {:induction false} PowerSplits(a: real, j: nat, k: nat)
    ensures Power(a, j + k) == Power(a, j) * Power(a, k)
  {
    if j > 0 {
      PowerSplits(a, j - 1, k);
      assert a * (Power(a, j - 1) * Power(a, k)) == a * Power(a, j - 1) * Power(a, k);
    }
  }

  lemma PowerHalves(k: nat, bound: real)
    requires 0.0 <= Power(DAMPING, k) <= bound
    ensures 0.0 <= Power(DAMPING, 2 * k) <= bound * bound
  {
    PowerSplits(DAMPING, k, k);
    var p := Power(DAMPING, k);
    ScaledBound(p, p, bound);
    ScaledBound(bound, p, bound);
  }

  lemma FortyRounds()
    ensures Power(DAMPING, 40) * 2.0 < 0.0031
  {
    assert Power(DAMPING, 4) == 0.52200625;
    PowerSplits(DAMPING, 4, 1);
    assert Power(DAMPING, 5) <= 0.44371;
    PowerHalves(5, 0.44371);
    PowerHalves(10, 0.19688);
    PowerHalves(20, 0.038763);
  }

  /**
   * What the search uses: authority is a distribution, no document falls below
   * its teleport share, and no rank is off the limit by 0.0031.
   */
  lemma RanksAreNearTheLimit(ids: seq<string>, edges: seq<Edge>, weights: map<string, real>) returns (limit: Vector)
    requires |ids| > 0
    ensures Distribution(Ranks(ids, edges, weights))
    ensures forall i :: 0 <= i < |ids| ==> 0.15 * Teleport(ids, weights)[i] <= Ranks(ids, edges, weights)[i]
    ensures var t := Teleport(ids, weights); FixedPoint(t, ColumnsOf(t, Outgoing(ids, edges)), limit)
    ensures |limit| == |ids| && L1(Difference(Ranks(ids, edges, weights), limit)) < 0.0031
  {
    var t := Teleport(ids, weights);
    var cols := ColumnsOf(t, Outgoing(ids, edges));
    TransitionsOf(ids, edges, weights);
    IteratesAreDistributions(t, cols, t, ITERATIONS);
    limit := ResultIsNearFixedPoint(t, cols, t, ITERATIONS);
    FortyRounds();
  }

  // ---- edges that cannot buy authority ----

  predicate Relevant(e: Edge) {
    e.source != e.target && EffectiveWeight(e) > 0.0
  }

  function RelevantOnly(edges: seq<Edge>): (r: seq<Edge>)
    ensures forall e :: e in r <==> e in edges && Relevant(e)
  {
    if |edges| == 0 then []
    else
      var earlier := RelevantOnly(edges[..|edges| - 1]);
      var e := edges[|edges| - 1];
      assert edges == edges[..|edges| - 1] + [e];
      if Relevant(e) then earlier + [e] else earlier
  }

  lemma SameReciprocity(edges: seq<Edge>, kept: seq<Edge>, e: Edge)
    requires forall o :: o in kept <==> o in edges && Relevant(o)
    requires e.source != e.target
    ensures Reciprocated(edges, e) == Reciprocated(kept, e)
  {
    if Reciprocated(edges, e) {
      var o :| o in edges && o.source == e.target && o.target == e.source && EffectiveWeight(o) > 0.0;
      assert o in kept;
    }
  }

  lemma SameLink(ids: seq<string>, edges: seq<Edge>, kept: seq<Edge>, e: Edge, source: nat)
    requires forall o :: o in kept <==> o in edges && Relevant(o)
    ensures LinkOf(ids, edges, e, source) == if Relevant(e) then LinkOf(ids, kept, e, source) else []
  {
    if Relevant(e) {
      SameReciprocity(edges, kept, e);
      hide Reciprocated, EffectiveWeight;
    } else {
      IrrelevantContributesNothing(ids, edges, e);
    }
  }

  lemma {:induction false} SameLinks(ids: seq<string>, edges: seq<Edge>, k: nat, source: nat, kept: seq<Edge>)
    requires k <= |edges| && kept == RelevantOnly(edges)
    requires |RelevantOnly(edges[..k])| <= |kept| && RelevantOnly(edges[..k]) == kept[..|RelevantOnly(edges[..k])|]
    ensures LinksFrom(ids, edges, k, source) == LinksFrom(ids, kept, |RelevantOnly(edges[..k])|, source)
  {
    if k > 0 {
      hide Relevant, LinkOf;
      var e := edges[k - 1];
      assert edges[..k][..k - 1] == edges[..k - 1];
      var m := |RelevantOnly(edges[..k])|;
      if Relevant(e) {
        assert kept[m - 1] == RelevantOnly(edges[..k])[m - 1] == e;
        assert RelevantOnly(edges[..k - 1]) == kept[..m - 1];
      }
      SameLink(ids, edges, kept, e, source);
      SameLinks(ids, edges, k - 1, source, kept);
    }
  }

  lemma IrrelevantContributesNothing(ids: seq<string>, edges: seq<Edge>, e: Edge)
    requires !Relevant(e)
    ensures !Contributes(ids, edges, e)
  {
    WhoPassesAuthority(e);
  }

  /**
   * Sponsored, paid, self-minted, user-generated, derived and disputing edges,
   * and self-links, cannot move a single rank: two graphs with the same
   * relevant edges rank every document alike, reciprocity scan included.
   */
  lemma OnlyRelevantEdgesCount(ids: seq<string>, edges: seq<Edge>, others: seq<Edge>, weights: map<string, real>)
    requires |ids| > 0 && RelevantOnly(edges) == RelevantOnly(others)
    ensures Ranks(ids, edges, weights) == Ranks(ids, others, weights)
  {
    var kept := RelevantOnly(edges);
    assert edges[..|edges|] == edges && others[..|others|] == others;
    forall s | 0 <= s < |ids| ensures LinksFrom(ids, edges, |edges|, s) == LinksFrom(ids, others, |others|, s) {
      SameLinks(ids, edges, |edges|, s, kept);
      SameLinks(ids, others, |others|, s, kept);
    }
    assert Outgoing(ids, edges) == Outgoing(ids, others);
  }

  lemma {:induction false} NothingMoreToDelete(edges: seq<Edge>)
    requires forall e :: e in edges ==> Relevant(e)
    ensures RelevantOnly(edges) == edges
  {
    if |edges| > 0 {
      assert edges[|edges| - 1] in edges;
      NothingMoreToDelete(edges[..|edges| - 1]);
    }
  }

  /** Deleting every edge that passes no authority changes no rank. */
  lemma DeletingIrrelevantEdges(ids: seq<string>, edges: seq<Edge>, weights: map<string, real>)
    requires |ids| > 0
    ensures Ranks(ids, edges, weights) == Ranks(ids, RelevantOnly(edges), weights)
  {
    NothingMoreToDelete(RelevantOnly(edges));
    OnlyRelevantEdgesCount(ids, edges, RelevantOnly(edges), weights);
  }
}
