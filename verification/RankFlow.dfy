/**
 * The ranking of backend/src/authority.rs told from the graph itself: the query
 * weights as shares, the weight the edges carry from one document to another,
 * and the flow equation every round follows, node by node.
 */
module RankFlow {
  import opened Vectors
  import opened PageRank
  import opened Convergence

  // ---- the query's shares ----

  /** What the query gives a document; an unknown or negative weight is none. */
  function Interest(weights: map<string, real>, id: string): real {
    var w := if id in weights then weights[id] else 0.0;
    if w < 0.0 then 0.0 else w
  }

  function TotalInterest(ids: seq<string>, weights: map<string, real>): real {
    if |ids| == 0 then 0.0
    else TotalInterest(ids[..|ids| - 1], weights) + Interest(weights, ids[|ids| - 1])
  }

  /** Every document's share of the query's interest, or the same for all when there is next to none. */
  ghost predicate Shares(ids: seq<string>, weights: map<string, real>, t: Vector) {
    && |t| == |ids|
    && forall i :: 0 <= i < |t| ==>
         if TotalInterest(ids, weights) > EPSILON
         then t[i] * TotalInterest(ids, weights) == Interest(weights, ids[i])
         else t[i] * |ids| as real == 1.0
  }

  lemma {:induction false} InterestAddsUp(ids: seq<string>, weights: map<string, real>)
    ensures Sum(RawTeleport(ids, weights)) == TotalInterest(ids, weights)
  {
    if |ids| > 0 {
      InterestAddsUp(ids[..|ids| - 1], weights);
      assert RawTeleport(ids, weights)[..|ids| - 1] == RawTeleport(ids[..|ids| - 1], weights);
    }
  }

  lemma QuotientBack(a: real, b: real)
    requires b > 0.0
    ensures (a / b) * b == a
  {
  }

  lemma TeleportEntry(ids: seq<string>, weights: map<string, real>, i: nat)
    requires i < |ids|
    ensures Teleport(ids, weights)[i]
      == if TotalInterest(ids, weights) > EPSILON then Interest(weights, ids[i]) / TotalInterest(ids, weights)
         else 1.0 / |ids| as real
  {
    InterestAddsUp(ids, weights);
    hide Sum, TotalInterest;
  }

  /** Teleporting follows the query weights. */
  lemma TeleportShares(ids: seq<string>, weights: map<string, real>)
    requires |ids| > 0
    ensures Shares(ids, weights, Teleport(ids, weights))
  {
    hide Teleport, TotalInterest, Interest;
    var total := TotalInterest(ids, weights);
    forall i | 0 <= i < |ids|
      ensures if total > EPSILON then Teleport(ids, weights)[i] * total == Interest(weights, ids[i])
        else Teleport(ids, weights)[i] * |ids| as real == 1.0
    {
      TeleportEntry(ids, weights, i);
      if total > EPSILON {
        QuotientBack(Interest(weights, ids[i]), total);
      } else {
        QuotientBack(1.0, |ids| as real);
      }
    }
  }

  // ---- names ----

  /** The i-th entry is the last one with its identifier, so the one that stands for the document. */
  predicate Names(ids: seq<string>, i: nat) {
    i < |ids| && forall k :: i < k < |ids| ==> ids[k] != ids[i]
  }

  lemma Named(ids: seq<string>, i: nat)
    ensures Names(ids, i) ==> i < |ids|
  {
  }

  lemma {:induction false} PositionsAreNames(ids: seq<string>, id: string, i: nat)
    ensures id in Positions(ids) <==> id in ids
    ensures id in Positions(ids) && Positions(ids)[id] == i <==> Names(ids, i) && ids[i] == id
  {
    if |ids| > 0 {
      var n := |ids| - 1;
      var init := ids[..n];
      assert ids == init + [ids[n]];
      PositionsAreNames(init, id, i);
      if i < n && ids[i] != ids[n] && Names(init, i) {
        assert forall k :: i < k < |ids| ==> ids[k] == if k < n then init[k] else ids[n];
      }
      if Names(ids, i) && i < n {
        assert forall k :: i < k < n ==> init[k] == ids[k];
      }
    }
  }

  /** The result lists every document with the rank of the entry that stands for it. */
  lemma {:induction false} ZippedPairs(ids: seq<string>, ranks: Vector, i: nat)
    requires |ids| == |ranks|
    ensures i < |ids| ==> ids[i] in Zipped(ids, ranks)
    ensures Zipped(ids, ranks).Keys <= (set id | id in ids)
    ensures Names(ids, i) ==> Zipped(ids, ranks)[ids[i]] == ranks[i]
  {
    if |ids| > 0 {
      var n := |ids| - 1;
      var init := ids[..n];
      assert ids == init + [ids[n]];
      ZippedPairs(init, ranks[..n], i);
      if Names(ids, i) && i < n {
        assert forall k :: i < k < n ==> init[k] == ids[k];
        assert ids[i] != ids[n];
      }
    }
  }

  // ---- what the edges carry ----

  /** The edge leads from the i-th document to another one, the j-th. */
  predicate Runs(ids: seq<string>, e: Edge, i: nat, j: nat) {
    Names(ids, i) && Names(ids, j) && i != j && e.source == ids[i] && e.target == ids[j]
  }

  /** The edge leads from the i-th document to any other known one. */
  predicate Leaves(ids: seq<string>, e: Edge, i: nat) {
    Names(ids, i) && e.source == ids[i] && e.target in ids && e.target != e.source
  }

  /** The weight the first `k` edges carry from the i-th document to the j-th. */
  function Carried(ids: seq<string>, edges: seq<Edge>, k: nat, i: nat, j: nat): real
    requires k <= |edges|
  {
    if k == 0 then 0.0
    else
      Carried(ids, edges, k - 1, i, j)
      + if Runs(ids, edges[k - 1], i, j) then PassedWeight(edges, edges[k - 1]) else 0.0
  }

  /** The weight the first `k` edges carry away from the i-th document. */
  function Sent(ids: seq<string>, edges: seq<Edge>, k: nat, i: nat): real
    requires k <= |edges|
  {
    if k == 0 then 0.0
    else
      Sent(ids, edges, k - 1, i) + if Leaves(ids, edges[k - 1], i) then PassedWeight(edges, edges[k - 1]) else 0.0
  }

  /** Weight beyond twice counts as two, negative weight as none, and in between it scales. */
  lemma WeightIsClamped(e: Edge)
    ensures 0.0 <= e.weight <= 2.0 ==> EffectiveWeight(e) == e.weight * EffectiveWeight(e.(weight := 1.0))
    ensures e.weight <= 0.0 ==> EffectiveWeight(e) == 0.0
    ensures e.weight >= 2.0 ==> EffectiveWeight(e) == 2.0 * EffectiveWeight(e.(weight := 1.0))
  {
    var p, r := ProvenanceWeight(e.provenance), RelationWeight(e.relation);
    hide ProvenanceWeight, RelationWeight;
    assert EffectiveWeight(e.(weight := 1.0)) == p * r;
    if e.weight >= 2.0 {
      assert EffectiveWeight(e) == 2.0 * p * r;
    }
  }

  /** Only an unvetted edge that is answered in kind loses by it, and then four fifths. */
  lemma VouchingCosts(edges: seq<Edge>, e: Edge)
    ensures PassedWeight(edges, e) == EffectiveWeight(e) || 5.0 * PassedWeight(edges, e) == EffectiveWeight(e)
    ensures PassedWeight(edges, e) != EffectiveWeight(e) <==>
      && e.provenance == "organic" && EffectiveWeight(e) > 0.0
      && exists o :: o in edges && o.source == e.target && o.target == e.source && EffectiveWeight(o) > 0.0
    ensures 0.0 <= PassedWeight(edges, e)
  {
    WhoPassesAuthority(e);
    hide EffectiveWeight;
  }

  function WeightTo(links: seq<Link>, j: nat): real {
    if |links| == 0 then 0.0
    else
      WeightTo(links[..|links| - 1], j) + if links[|links| - 1].target == j then links[|links| - 1].weight else 0.0
  }

  lemma NoWeight(j: nat)
    ensures WeightTo([], j) == 0.0 && TotalWeight([]) == 0.0
  {
  }

  lemma WeightAppended(links: seq<Link>, link: Link, j: nat)
    ensures WeightTo(links + [link], j) == WeightTo(links, j) + if link.target == j then link.weight else 0.0
    ensures TotalWeight(links + [link]) == TotalWeight(links) + link.weight
  {
    assert (links + [link])[..|links|] == links;
  }

  lemma LinkCarries(ids: seq<string>, edges: seq<Edge>, e: Edge, i: nat, j: nat, links: seq<Link>)
    requires j < |ids|
    ensures WeightTo(links + LinkOf(ids, edges, e, i), j)
      == WeightTo(links, j) + if Runs(ids, e, i, j) then PassedWeight(edges, e) else 0.0
    ensures TotalWeight(links + LinkOf(ids, edges, e, i))
      == TotalWeight(links) + if Leaves(ids, e, i) then PassedWeight(edges, e) else 0.0
  {
    hide WeightTo, TotalWeight, PassedWeight, Names, Positions;
    VouchingCosts(edges, e);
    LinkGoesToSource(ids, edges, e, i);
    PositionsAreNames(ids, e.source, i);
    PositionsAreNames(ids, e.target, j);
    PositionsAreNames(ids, e.source, j);
    if e.target in Positions(ids) {
      var p := Positions(ids)[e.target];
      PositionsAreNames(ids, e.target, p);
      PositionsAreNames(ids, e.source, p);
    }
    if LinkOf(ids, edges, e, i) == [] {
      assert links + [] == links;
    } else {
      WeightAppended(links, LinkOf(ids, edges, e, i)[0], j);
    }
  }

  lemma {:induction false} LinksCarry(ids: seq<string>, edges: seq<Edge>, k: nat, i: nat, j: nat)
    requires k <= |edges| && j < |ids|
    ensures WeightTo(LinksFrom(ids, edges, k, i), j) == Carried(ids, edges, k, i, j)
    ensures TotalWeight(LinksFrom(ids, edges, k, i)) == Sent(ids, edges, k, i)
  {
    hide WeightTo, TotalWeight, PassedWeight, Runs, Leaves, LinkOf, Names, Positions;
    NoWeight(j);
    if k > 0 {
      LinksCarry(ids, edges, k - 1, i, j);
      LinkCarries(ids, edges, edges[k - 1], i, j, LinksFrom(ids, edges, k - 1, i));
    }
  }

  lemma {:induction false} SpreadEntry(links: seq<Link>, total: real, n: nat, j: nat)
    requires LinksWithin(links, n) && total > 0.0 && j < n
    ensures Spread(links, total, n)[j] == WeightTo(links, j) / total
  {
    if |links| == 0 {
      QuotientOfSum(0.0, 0.0, total);
    } else {
      var init, link := links[..|links| - 1], links[|links| - 1];
      SpreadEntry(init, total, n, j);
      QuotientOfSum(WeightTo(init, j), link.weight, total);
    }
  }

  // ---- the flow equation ----

  /** The part of the i-th document's rank that goes to the j-th. */
  function Portion(ids: seq<string>, edges: seq<Edge>, t: Vector, i: nat, j: nat): real
    requires j < |t|
  {
    var sent := Sent(ids, edges, |edges|, i);
    if sent <= EPSILON then t[j] else Carried(ids, edges, |edges|, i, j) / sent
  }

  /** What the j-th document receives from the first `m`. */
  function Inflow(ids: seq<string>, edges: seq<Edge>, t: Vector, x: Vector, m: nat, j: nat): real
    requires m <= |x| && j < |t|
  {
    if m == 0 then 0.0 else Inflow(ids, edges, t, x, m - 1, j) + Times(x[m - 1], Portion(ids, edges, t, m - 1, j))
  }

  /** The next vector after `x`: the teleport share, and what flows in along the edges. */
  ghost predicate Flows(ids: seq<string>, edges: seq<Edge>, t: Vector, x: Vector, next: Vector) {
    && |next| == |x| == |t|
    && forall j :: 0 <= j < |next| ==> next[j] == 0.15 * t[j] + 0.85 * Inflow(ids, edges, t, x, |x|, j)
  }

  lemma ColumnEntry(ids: seq<string>, edges: seq<Edge>, t: Vector, i: nat, j: nat)
    requires |t| == |ids| && i < |ids| && j < |ids|
    ensures Column(t, Outgoing(ids, edges)[i])[j] == Portion(ids, edges, t, i, j)
  {
    var links := Outgoing(ids, edges)[i];
    LinksCarry(ids, edges, |edges|, i, j);
    hide LinksFrom, Carried, Sent, WeightTo, TotalWeight, Spread;
    if !Dangling(links) {
      SpreadEntry(links, TotalWeight(links), |t|, j);
    }
  }

  lemma {:induction false} MixFlows(ids: seq<string>, edges: seq<Edge>, t: Vector, x: Vector, m: nat, j: nat)
    requires |t| == |ids| == |x| && m <= |x| && j < |ids|
    ensures var cols := ColumnsOf(t, Outgoing(ids, edges));
      Mix(x[..m], cols[..m], |t|)[j] == Inflow(ids, edges, t, x, m, j)
  {
    hide Times, Portion, Column, LinksFrom;
    var cols := ColumnsOf(t, Outgoing(ids, edges));
    if m > 0 {
      MixFlows(ids, edges, t, x, m - 1, j);
      ColumnEntry(ids, edges, t, m - 1, j);
      assert x[..m][..m - 1] == x[..m - 1] && cols[..m][..m - 1] == cols[..m - 1];
    }
  }

  lemma AdvanceFlows(ids: seq<string>, edges: seq<Edge>, t: Vector, x: Vector)
    requires |t| == |ids| == |x|
    ensures Flows(ids, edges, t, x, Advance(t, ColumnsOf(t, Outgoing(ids, edges)), x))
  {
    hide Times, Mix, Inflow, Column;
    var cols := ColumnsOf(t, Outgoing(ids, edges));
    assert x[..|x|] == x && cols[..|x|] == cols;
    forall j | 0 <= j < |x|
      ensures Advance(t, cols, x)[j] == 0.15 * t[j] + 0.85 * Inflow(ids, edges, t, x, |x|, j)
    {
      MixFlows(ids, edges, t, x, |x|, j);
      Damped(t[j]);
      Damped(Inflow(ids, edges, t, x, |x|, j));
    }
  }

  /** The ranks are the fortieth vector of the flow that starts at the query's shares. */
  lemma RanksFollowTheFlow(ids: seq<string>, edges: seq<Edge>, weights: map<string, real>) returns (xs: seq<Vector>)
    requires |ids| > 0
    ensures |xs| == 41 && Shares(ids, weights, xs[0]) && xs[40] == Ranks(ids, edges, weights)
    ensures forall k :: 0 <= k < 40 ==> Flows(ids, edges, xs[0], xs[k], xs[k + 1])
  {
    var t := Teleport(ids, weights);
    var cols := ColumnsOf(t, Outgoing(ids, edges));
    TeleportShares(ids, weights);
    TransitionsOf(ids, edges, weights);
    xs := seq(41, k requires 0 <= k < 41 => Iterated(t, cols, t, k));
    hide Shares, Teleport, Column, Advance, NormaliseOrUniform, Flows;
    forall k | 0 <= k < 40 ensures Flows(ids, edges, xs[0], xs[k], xs[k + 1]) {
      RoundFlows(ids, edges, t, k);
    }
  }

  lemma RoundFlows(ids: seq<string>, edges: seq<Edge>, t: Vector, k: nat)
    requires |t| == |ids| > 0 && Transitions(t, ColumnsOf(t, Outgoing(ids, edges)))
    ensures var cols := ColumnsOf(t, Outgoing(ids, edges));
      Flows(ids, edges, t, Iterated(t, cols, t, k), Iterated(t, cols, t, k + 1))
  {
    hide Flows, Advance, NormaliseOrUniform, Column;
    var cols := ColumnsOf(t, Outgoing(ids, edges));
    var x := Iterated(t, cols, t, k);
    IteratesAreDistributions(t, cols, t, k);
    AdvanceIsDistribution(t, cols, x);
    NormalisedDistribution(Advance(t, cols, x));
    AdvanceFlows(ids, edges, t, x);
  }

  /** The limit the ranks come within 0.0031 of solves the flow equation. */
  lemma LimitSolvesTheFlow(ids: seq<string>, edges: seq<Edge>, weights: map<string, real>) returns (x: Vector)
    requires |ids| > 0
    ensures Distribution(x) && Flows(ids, edges, Teleport(ids, weights), x, x)
    ensures |x| == |ids| && L1(Difference(Ranks(ids, edges, weights), x)) < 0.0031
  {
    var t := Teleport(ids, weights);
    x := RanksAreNearTheLimit(ids, edges, weights);
    TransitionsOf(ids, edges, weights);
    FixedPointIsDistribution(t, ColumnsOf(t, Outgoing(ids, edges)), x);
    AdvanceFlows(ids, edges, t, x);
  }

  // ---- without edges ----

  lemma {:induction false} AlikeColumnsMix(x: Vector, cols: seq<Vector>, t: Vector)
    requires |x| == |cols| && forall s :: 0 <= s < |cols| ==> cols[s] == t
    ensures Mix(x, cols, |t|) == Scale(Sum(x), t)
  {
    hide Times;
    if |x| == 0 {
      forall i | 0 <= i < |t| ensures Times(0.0, t[i]) == 0.0 {
        TimesZero(t[i]);
      }
    } else {
      var k := |x| - 1;
      AlikeColumnsMix(x[..k], cols[..k], t);
      forall i | 0 <= i < |t| ensures Times(Sum(x), t[i]) == Times(Sum(x[..k]), t[i]) + Times(x[k], t[i]) {
        Distributes(t[i], Sum(x[..k]), x[k]);
      }
    }
  }

  /** Where no edge passes authority, a document's rank is its share of the query's interest. */
  lemma WithoutEdgesSharesRank(ids: seq<string>, edges: seq<Edge>, weights: map<string, real>)
    requires |ids| > 0 && forall e :: e in edges ==> !Relevant(e)
    ensures Shares(ids, weights, Ranks(ids, edges, weights))
  {
    NoneRelevant(edges);
    DeletingIrrelevantEdges(ids, edges, weights);
    var t := Teleport(ids, weights);
    var cols := ColumnsOf(t, Outgoing(ids, []));
    TransitionsOf(ids, [], weights);
    TeleportShares(ids, weights);
    hide Teleport, Shares;
    forall s | 0 <= s < |cols| ensures cols[s] == t {
      assert Outgoing(ids, [])[s] == [];
    }
    AlikeColumnsMix(t, cols, t);
    StaysPut(t, cols);
    FixedPointStays(t, cols, t, ITERATIONS);
  }

  lemma StaysPut(t: Vector, cols: seq<Vector>)
    requires Transitions(t, cols) && Mix(t, cols, |t|) == Scale(Sum(t), t)
    ensures FixedPoint(t, cols, t)
  {
    hide Mix, Times;
    forall i | 0 <= i < |t| ensures Advance(t, cols, t)[i] == t[i] {
      TimesOne(t[i]);
      Damped(t[i]);
    }
  }

  lemma NoneRelevant(edges: seq<Edge>)
    requires forall e :: e in edges ==> !Relevant(e)
    ensures RelevantOnly(edges) == []
  {
    hide Relevant;
    assert forall i :: 0 <= i < |RelevantOnly(edges)| ==> RelevantOnly(edges)[i] in RelevantOnly(edges);
  }

  lemma ShareOf(ids: seq<string>, weights: map<string, real>, t: Vector, i: nat)
    requires Shares(ids, weights, t) && i < |ids| && TotalInterest(ids, weights) > EPSILON
    ensures |t| == |ids| && t[i] * TotalInterest(ids, weights) == Interest(weights, ids[i])
  {
  }

  /** The same of the map that comes back: each document with its own share. */
  lemma WithoutEdgesMapIsShares(ids: seq<string>, edges: seq<Edge>, weights: map<string, real>, i: nat)
    requires Names(ids, i) && forall e :: e in edges ==> !Relevant(e)
    requires TotalInterest(ids, weights) > EPSILON
    ensures var ranks := Zipped(ids, Ranks(ids, edges, weights));
      ids[i] in ranks && ranks[ids[i]] * TotalInterest(ids, weights) == Interest(weights, ids[i])
  {
    hide *;
    assert i < |ids| by {
      Named(ids, i);
    }
    WithoutEdgesSharesRank(ids, edges, weights);
    ZippedPairs(ids, Ranks(ids, edges, weights), i);
    ShareOf(ids, weights, Ranks(ids, edges, weights), i);
  }
}
